/**
 * The parents' area: a multiplication question guards it, and once open it
 * shows, for the selected profile, the activity of the last days, the
 * accuracy per subject, the rank, and for every profile the number of
 * unlocked levels.
 */
module ParentsZone {
  import opened Wrappers
  import opened Seqs
  import opened Random
  import opened Progression
  import opened Numbers

  // ---------------------------------------------------------------------------
  // The gate
  // ---------------------------------------------------------------------------

  /** The gate's question `a × b`, drawn once when the area opens. */
  datatype GateQuestion = GateQuestion(a: int, b: int, answer: int)

  /** Two factors between 3 and 9 from two draws, and their product. */
  function MakeQuestion(ua: Draw, ub: Draw): (q: GateQuestion)
    ensures 3 <= q.a <= 9 && 3 <= q.b <= 9 && q.answer == q.a * q.b
  {
    var a := RandomInt(3, 9, ua);
    var b := RandomInt(3, 9, ub);
    GateQuestion(a, b, a * b)
  }

  /** Every pair of factors between 3 and 9 can be asked. */
  lemma MakeQuestionReaches(a: int, b: int)
    requires 3 <= a <= 9 && 3 <= b <= 9
    ensures exists ua: Draw, ub: Draw :: MakeQuestion(ua, ub) == GateQuestion(a, b, a * b)
  {
    RandomIntReaches(3, 9, a);
    RandomIntReaches(3, 9, b);
    assert MakeQuestion(DrawFor(3, 9, a), DrawFor(3, 9, b)) == GateQuestion(a, b, a * b);
  }

  /** Whether the typed text opens the gate: `parseInt(text) === answer`. */
  predicate Opens(text: string, q: GateQuestion) {
    ParseInt(text) == Some(q.answer)
  }

  /**
   * Typing the product opens the gate, also with anything after it that is
   * not a decimal digit (`"42.0"`, `"42a"`); an empty field never does. The
   * product has two digits, so no `0x` prefix can arise.
   */
  lemma ProductOpens(q: GateQuestion, rest: string)
    requires 3 <= q.a <= 9 && 3 <= q.b <= 9 && q.answer == q.a * q.b
    requires rest == [] || !IsRadixDigit(rest[0], 10)
    ensures Opens(NatString(q.answer) + rest, q)
    ensures !Opens("", q)
  {
    ParseNatString(q.answer, rest);
    ParseIntEmpty();
  }

  /** Only text that reads as the product opens the gate: no other number does. */
  lemma OnlyProductOpens(text: string, q: GateQuestion, n: nat)
    requires ParseInt(text) == Some(n) && n != q.answer
    ensures !Opens(text, q)
  {
  }

  // ---------------------------------------------------------------------------
  // The statistics
  // ---------------------------------------------------------------------------

  /** `selectedProfile || profiles[0]`: the chosen profile, else the first, else none. */
  function DisplayedProfile(selected: Option<Profile>, profiles: seq<Profile>): (r: Option<Profile>)
    ensures selected.Some? ==> r == selected
    ensures selected.None? && profiles != [] ==> r == Some(profiles[0])
    ensures r.None? <==> selected.None? && profiles == []
  {
    if selected.Some? then selected else if profiles != [] then Some(profiles[0]) else None
  }

  /** The activity chart shows this many most recent days. */
  const ACTIVITY_DAYS: nat := 7

  /** `activityHistory.slice(-7)`: the chart's points (the weekday label is left out), none without a profile. */
  function ActivityData(profile: Option<Profile>): seq<DayXP> {
    if profile.None? then [] else LastN(profile.value.activityHistory, ACTIVITY_DAYS)
  }

  /**
   * The chart shows at most seven days: the latest ones, in order, and all of
   * them when there are no more than seven; a profile whose history has one
   * entry per day shows every day once.
   */
  lemma ActivityDataFacts(p: Profile)
    ensures var shown := ActivityData(Some(p));
      && |shown| <= ACTIVITY_DAYS
      && shown == p.activityHistory[|p.activityHistory| - |shown|..]
      && (|p.activityHistory| <= ACTIVITY_DAYS ==> shown == p.activityHistory)
      && (|p.activityHistory| > ACTIVITY_DAYS ==> |shown| == ACTIVITY_DAYS)
      && (DistinctDates(p.activityHistory) ==> DistinctDates(shown))
  {
    var h := p.activityHistory;
    var shown := ActivityData(Some(p));
    var d := |h| - |shown|;
    forall i, j | 0 <= i < j < |shown| && DistinctDates(h) ensures shown[i].date != shown[j].date {
      assert shown[i] == h[i + d] && shown[j] == h[j + d];
    }
  }

  /**
   * `data.total > 0 ? Math.round((data.correct / data.total) * 100) : 0`,
   * computed on integers: the percentage rounded half up.
   */
  function AccuracyPercent(t: Tally): (pct: int)
    ensures t.total <= 0 ==> pct == 0
    ensures t.total > 0 ==> 2 * t.total * pct - t.total <= 200 * t.correct < 2 * t.total * pct + t.total
  {
    if t.total > 0 then (200 * t.correct + t.total) / (2 * t.total) else 0
  }

  /** A positive multiple of a number below n / 2 in size is zero or negative. */
  lemma HalfBound(n: int, d: int)
    requires n > 0 && 2 * n * d < 2 * n
    ensures d <= 0
  {
    AtLeastOnce(n, d);
  }

  /** n copies of a positive d are at least n. */
  lemma AtLeastOnce(n: int, d: int)
    requires n > 0
    ensures d >= 1 ==> n * d >= n
  {
    if d >= 1 {
      assert n * d == n * (d - 1) + n;
      assert n * (d - 1) >= 0;
    }
  }

  /** A consistent tally gives a percentage between 0 and 100. */
  lemma {:induction false} AccuracyBounded(t: Tally)
    requires 0 <= t.correct <= t.total
    ensures 0 <= AccuracyPercent(t) <= 100
  {
    if t.total > 0 {
      var pct := AccuracyPercent(t);
      assert 2 * t.total * (pct - 100) <= t.total;
      HalfBound(t.total, pct - 100);
      assert 2 * t.total * (-pct) < t.total;
      HalfBound(t.total, -pct);
    }
  }

  /** When the ratio is a whole percentage, it is shown exactly (3 of 4 shows 75). */
  lemma {:induction false} AccuracyExact(t: Tally, pct: int)
    requires t.total > 0 && 100 * t.correct == pct * t.total
    ensures AccuracyPercent(t) == pct
  {
    var r := AccuracyPercent(t);
    var n := t.total;
    assert 2 * n * (pct - r) < n;
    HalfBound(n, pct - r);
    assert 2 * n * (r - pct) <= n;
    HalfBound(n, r - pct);
  }

  /** The subject ids that have a Hebrew label on the chart. */
  const LABELLED: set<string> := {"math", "reading", "english", "logic", "memory", "sorting", "counting"}

  /** The chart label of a subject: its Hebrew name, or the id itself for any other subject. */
  function SubjectLabel(subject: string): (name: string)
    ensures subject !in LABELLED <==> name == subject
  {
    if subject == "math" then "חשבון"
    else if subject == "reading" then "קריאה"
    else if subject == "english" then "אנגלית"
    else if subject == "logic" then "חשיבה"
    else if subject == "memory" then "זיכרון"
    else if subject == "sorting" then "מיון"
    else if subject == "counting" then "ספירה"
    else subject
  }

  /** One bar of the accuracy chart. */
  datatype AccuracyRow = AccuracyRow(subjectName: string, accuracy: int, total: int)

  /** `Object.entries(accuracyBySubject).map(...)`: one bar per recorded subject, keyed by subject. */
  function AccuracyData(profile: Option<Profile>): map<string, AccuracyRow> {
    if profile.None? then map[]
    else
      var acc := profile.value.accuracyBySubject;
      map s | s in acc :: AccuracyRow(SubjectLabel(s), AccuracyPercent(acc[s]), acc[s].total)
  }

  /**
   * There is a bar for every recorded subject and no other; each shows the
   * subject's attempts, and for a profile whose tallies are consistent a
   * percentage between 0 and 100.
   */
  lemma AccuracyDataFacts(p: Profile)
    ensures AccuracyData(Some(p)).Keys == p.accuracyBySubject.Keys
    ensures forall s :: s in p.accuracyBySubject ==>
      AccuracyData(Some(p))[s].total == p.accuracyBySubject[s].total
    ensures TalliesValid(p.accuracyBySubject) ==> forall s :: s in p.accuracyBySubject ==>
      0 <= AccuracyData(Some(p))[s].accuracy <= 100
  {
    var acc := p.accuracyBySubject;
    if TalliesValid(acc) {
      forall s | s in acc ensures 0 <= AccuracyData(Some(p))[s].accuracy <= 100 {
        AccuracyBounded(acc[s]);
      }
    }
  }

  // ---------------------------------------------------------------------------
  // Ranks
  // ---------------------------------------------------------------------------

  /** `RANKS.find(r => xp >= r.minXP)` from position k on: the first tier in table order that xp reaches. */
  function FindTierFrom(xp: int, k: nat): (r: Option<nat>)
    requires k <= |RANKS|
    ensures r.Some? ==> k <= r.value < |RANKS| && RANKS[r.value].minXP <= xp
    ensures r.Some? ==> forall j :: k <= j < r.value ==> xp < RANKS[j].minXP
    ensures r.None? ==> forall j :: k <= j < |RANKS| ==> xp < RANKS[j].minXP
    decreases |RANKS| - k
  {
    if k == |RANKS| then None
    else if xp >= RANKS[k].minXP then Some(k)
    else FindTierFrom(xp, k + 1)
  }

  function FindTier(xp: int): Option<nat> {
    FindTierFrom(xp, 0)
  }

  /** The rank the dashboard shows as written: `RANKS.find(...) || RANKS[0]` for the profile's XP, or 0 XP. */
  function CurrentRankAsWritten(profile: Option<Profile>): Rank {
    var xp := if profile.Some? then profile.value.totalXP else 0;
    var found := FindTier(xp);
    if found.Some? then RANKS[found.value] else RANKS[0]
  }

  /**
   * As written, the lookup stops at the first tier, whose threshold is 0: every
   * profile with no negative XP is shown as a beginner, and a profile with
   * 100 XP, which `getRank` ranks bronze, is no exception.
   */
  lemma RankAsWrittenIsFirst(profile: Option<Profile>)
    requires profile.Some? ==> profile.value.totalXP >= 0
    ensures CurrentRankAsWritten(profile) == RANKS[0]
    ensures profile.Some? && profile.value.totalXP == 100 ==>
      RankInfoFor(100).name == RANKS[1].name != CurrentRankAsWritten(profile).name
  {
    RanksAscending();
    assert TierIndex(100) == 1;
  }

  /** The rank the dashboard means to show: the highest tier reached, the one `getRank` reports. */
  function CurrentRank(profile: Option<Profile>): (r: Rank)
    ensures var xp := if profile.Some? then profile.value.totalXP else 0;
      && r == RANKS[TierIndex(xp)]
      && r.name == RankInfoFor(xp).name && r.emoji == RankInfoFor(xp).emoji
  {
    RANKS[TierIndex(if profile.Some? then profile.value.totalXP else 0)]
  }

  /** The intended rank is the highest tier reached, and it never goes down as XP grows. */
  lemma CurrentRankHighest(p: Profile, q: Profile)
    ensures CurrentRank(Some(p)).minXP <= p.totalXP || p.totalXP < 0
    ensures forall j :: 0 <= j < |RANKS| && RANKS[j].minXP <= p.totalXP ==> RANKS[j].minXP <= CurrentRank(Some(p)).minXP
    ensures p.totalXP <= q.totalXP ==> CurrentRank(Some(p)).minXP <= CurrentRank(Some(q)).minXP
  {
    RanksAscending();
    if p.totalXP <= q.totalXP {
      TierIndexMonotone(p.totalXP, q.totalXP);
    }
  }

  // ---------------------------------------------------------------------------
  // Unlocked levels
  // ---------------------------------------------------------------------------

  /** Some game of a non-empty level map. */
  ghost function SomeGame(levels: map<string, seq<int>>): (g: string)
    requires |levels| > 0
    ensures g in levels
  {
    var g :| g in levels; g
  }

  /** `Object.values(unlockedLevels).flat().length`: the lengths of all per-game lists added up. */
  ghost function LevelCount(levels: map<string, seq<int>>): nat
    decreases |levels|
  {
    if |levels| == 0 then 0
    else
      var g := SomeGame(levels);
      |levels[g]| + LevelCount(levels - {g})
  }

  /** The count is any one game's list plus the count of the others. */
  lemma {:induction false} LevelCountSplit(levels: map<string, seq<int>>, g: string)
    requires g in levels
    ensures LevelCount(levels) == |levels[g]| + LevelCount(levels - {g})
    decreases |levels|
  {
    var h := SomeGame(levels);
    if h != g {
      var rest := levels - {h};
      LevelCountSplit(rest, g);
      LevelCountSplit(levels - {g}, h);
      assert rest - {g} == (levels - {g}) - {h};
    }
  }

  /** Replacing one game's list changes the count by the difference in length. */
  lemma LevelCountUpdate(levels: map<string, seq<int>>, g: string, v: seq<int>)
    ensures LevelCount(levels[g := v]) == LevelCount(levels) - (if g in levels then |levels[g]| else 0) + |v|
  {
    var after := levels[g := v];
    LevelCountSplit(after, g);
    assert after - {g} == levels - {g};
    if g in levels {
      LevelCountSplit(levels, g);
    } else {
      assert levels - {g} == levels;
    }
  }

  /**
   * `unlockLevel` adds one to the count for a level the game did not have, and
   * nothing for one it had; an unseen game also brings its seeded level 1.
   */
  lemma UnlockCount(levels: map<string, seq<int>>, gameId: string, level: int)
    ensures var before := LevelCount(levels);
      var after := LevelCount(WithLevel(levels, gameId, level));
      && (gameId in levels && level in levels[gameId] ==> after == before)
      && (gameId in levels && level !in levels[gameId] ==> after == before + 1)
      && (gameId !in levels ==> after == before + if level == 1 then 1 else 2)
  {
    var unlocked := if gameId in levels then levels[gameId] else [1];
    LevelCountUpdate(levels, gameId, if level in unlocked then unlocked else unlocked + [level]);
  }

  /** A new profile has no unlocked level. */
  lemma NewProfileCount(id: string, name: string, avatar: string)
    ensures LevelCount(NewProfile(id, name, avatar).unlockedLevels) == 0
  {
  }

  // ---------------------------------------------------------------------------
  // The page
  // ---------------------------------------------------------------------------

  datatype Tab = Stats | Profiles | Settings

  class Dashboard {
    var isLocked: bool
    var mathAnswer: string
    var question: GateQuestion
    var selectedProfile: Option<Profile>
    var activeTab: Tab

    /** The area opens locked, with a fresh question and the current profile selected. */
    constructor (ua: Draw, ub: Draw, current: Option<Profile>)
      ensures question == MakeQuestion(ua, ub)
      ensures isLocked && mathAnswer == "" && selectedProfile == current && activeTab == Stats
    {
      question := MakeQuestion(ua, ub);
      isLocked := true;
      mathAnswer := "";
      selectedProfile := current;
      activeTab := Stats;
    }

    /** The answer field's `onChange`. */
    method TypeAnswer(text: string)
      modifies this
      ensures mathAnswer == text
      ensures isLocked == old(isLocked) && question == old(question)
      ensures selectedProfile == old(selectedProfile) && activeTab == old(activeTab)
    {
      mathAnswer := text;
    }

    /** `handleUnlock`: the right product opens the area; anything else clears the field. */
    method HandleUnlock()
      modifies this
      ensures Opens(old(mathAnswer), question) ==> !isLocked && mathAnswer == old(mathAnswer)
      ensures !Opens(old(mathAnswer), question) ==> isLocked == old(isLocked) && mathAnswer == ""
      ensures question == old(question) && selectedProfile == old(selectedProfile) && activeTab == old(activeTab)
    {
      if ParseInt(mathAnswer) == Some(question.answer) {
        isLocked := false;
      } else {
        mathAnswer := "";
      }
    }

    /** A profile button on the statistics tab. */
    method SelectProfile(p: Profile)
      modifies this
      ensures selectedProfile == Some(p)
      ensures isLocked == old(isLocked) && mathAnswer == old(mathAnswer)
      ensures question == old(question) && activeTab == old(activeTab)
    {
      selectedProfile := Some(p);
    }

    /** A tab button. */
    method SetTab(tab: Tab)
      modifies this
      ensures activeTab == tab
      ensures isLocked == old(isLocked) && mathAnswer == old(mathAnswer)
      ensures question == old(question) && selectedProfile == old(selectedProfile)
    {
      activeTab := tab;
    }
  }
}
