/**
 * The progression store of the game provider: the list of player profiles, the
 * selected ("current") profile, and the operations the games call to record
 * experience, per-subject accuracy and unlocked levels, and to derive a rank.
 *
 * `Store` and the `...Step` functions say what each operation does to the
 * provider's state; `GameStore` is the provider itself, whose methods perform
 * the operations step by step and are proved to agree with the steps. The
 * lemmas state what the steps guarantee.
 */
module Progression {
  import opened Wrappers
  import opened Seqs

  /** One entry of the activity history: a calendar day (`YYYY-MM-DD`) and the XP earned on it. */
  datatype DayXP = DayXP(date: string, xp: int)

  /** Attempts recorded for one subject. */
  datatype Tally = Tally(correct: int, total: int)

  datatype Zone = ZoneA | ZoneB
  datatype Theme = Space | Dino | Unicorn

  datatype Profile = Profile(
    id: string,
    name: string,
    avatar: string,
    totalXP: int,
    currentZone: Option<Zone>,
    unlockedLevels: map<string, seq<int>>,
    themePreference: Theme,
    activityHistory: seq<DayXP>,
    accuracyBySubject: map<string, Tally>)

  datatype Rank = Rank(name: string, emoji: string, minXP: int)

  /** The rank table, in ascending order of threshold. */
  const RANKS: seq<Rank> := [
    Rank("מתחיל", "🌟", 0),
    Rank("ארד", "🥉", 100),
    Rank("כסף", "🥈", 300),
    Rank("זהב", "🥇", 600),
    Rank("פלטינה", "💎", 1000),
    Rank("אלוף", "🏆", 1500),
    Rank("אגדה", "👑", 2500)
  ]

  /** The activity history keeps this many most recent entries. */
  const HISTORY_LIMIT: nat := 30

  /** The provider's state: all profiles and the selected one. */
  datatype Store = Store(profiles: seq<Profile>, current: Option<Profile>)

  // ---------------------------------------------------------------------------
  // Profiles
  // ---------------------------------------------------------------------------

  /** A fresh profile: no XP, no history, no accuracy, no unlocked levels. */
  function NewProfile(id: string, name: string, avatar: string): Profile {
    Profile(id, name, avatar, 0, None, map[], Space, [], map[])
  }

  /** `profiles.map(p => p.id === updated.id ? updated : p)`. */
  function ReplaceById(profiles: seq<Profile>, updated: Profile): (r: seq<Profile>)
    ensures |r| == |profiles|
    ensures forall k :: 0 <= k < |r| ==>
      r[k] == if profiles[k].id == updated.id then updated else profiles[k]
  {
    if profiles == [] then []
    else [if profiles[0].id == updated.id then updated else profiles[0]] + ReplaceById(profiles[1..], updated)
  }

  // ---------------------------------------------------------------------------
  // Activity history
  // ---------------------------------------------------------------------------

  /** The position `history.find(h => h.date === day)` finds: the first entry for `day`. */
  function FindDay(history: seq<DayXP>, day: string): (r: Option<nat>)
    ensures r.Some? ==> r.value < |history| && history[r.value].date == day
    ensures r.Some? ==> forall k :: 0 <= k < r.value ==> history[k].date != day
    ensures r.None? ==> forall k :: 0 <= k < |history| ==> history[k].date != day
  {
    if history == [] then None
    else if history[0].date == day then Some(0)
    else match FindDay(history[1..], day)
      case None => None
      case Some(k) => Some(k + 1)
  }

  /** The first entry for `day` is the one `FindDay` finds. */
  lemma FindDayAt(history: seq<DayXP>, day: string, k: nat)
    requires k < |history| && history[k].date == day
    requires forall j :: 0 <= j < k ==> history[j].date != day
    ensures FindDay(history, day) == Some(k)
  {
  }

  /** The history with `amount` credited to `day`: added to its entry, or appended as a new entry. */
  function CreditDay(history: seq<DayXP>, day: string, amount: int): seq<DayXP> {
    match FindDay(history, day)
    case Some(k) => history[k := DayXP(day, history[k].xp + amount)]
    case None => history + [DayXP(day, amount)]
  }

  /** No two entries share a date. */
  predicate DistinctDates(history: seq<DayXP>) {
    forall i, j :: 0 <= i < j < |history| ==> history[i].date != history[j].date
  }

  /** The sum of the XP of all entries. */
  function HistoryXP(history: seq<DayXP>): int {
    if history == [] then 0 else HistoryXP(history[..|history| - 1]) + history[|history| - 1].xp
  }

  lemma {:induction false} HistoryXPUpdate(history: seq<DayXP>, k: nat, e: DayXP)
    requires k < |history|
    ensures HistoryXP(history[k := e]) == HistoryXP(history) - history[k].xp + e.xp
    decreases |history|
  {
    var n := |history| - 1;
    assert history[k := e][..n] == if k == n then history[..n] else history[..n][k := e];
    if k < n {
      HistoryXPUpdate(history[..n], k, e);
    }
  }

  /**
   * Crediting a day adds exactly `amount` to the history's XP, keeps one entry
   * per date, and leaves exactly one entry for `day`, holding the day's earlier
   * XP (0 if none) plus `amount`.
   */
  lemma CreditDayFacts(history: seq<DayXP>, day: string, amount: int)
    requires DistinctDates(history)
    ensures var r := CreditDay(history, day, amount);
      && HistoryXP(r) == HistoryXP(history) + amount
      && DistinctDates(r)
      && FindDay(r, day).Some?
      && r[FindDay(r, day).value].xp == amount + (if FindDay(history, day).Some? then history[FindDay(history, day).value].xp else 0)
      && |r| == |history| + (if FindDay(history, day).Some? then 0 else 1)
  {
    match FindDay(history, day)
    case Some(k) => CreditExistingDay(history, day, amount, k);
    case None => CreditNewDay(history, day, amount);
  }

  /** Crediting a day already listed at `k` updates that entry in place. */
  lemma CreditExistingDay(history: seq<DayXP>, day: string, amount: int, k: nat)
    requires DistinctDates(history) && FindDay(history, day) == Some(k)
    ensures var r := CreditDay(history, day, amount);
      && r == history[k := DayXP(day, history[k].xp + amount)]
      && HistoryXP(r) == HistoryXP(history) + amount
      && DistinctDates(r)
      && FindDay(r, day) == Some(k)
  {
    var r := CreditDay(history, day, amount);
    HistoryXPUpdate(history, k, DayXP(day, history[k].xp + amount));
    FindDayAt(r, day, k);
  }

  /** Crediting a day not yet listed appends an entry for it. */
  lemma CreditNewDay(history: seq<DayXP>, day: string, amount: int)
    requires DistinctDates(history) && FindDay(history, day) == None
    ensures var r := CreditDay(history, day, amount);
      && r == history + [DayXP(day, amount)]
      && HistoryXP(r) == HistoryXP(history) + amount
      && DistinctDates(r)
      && FindDay(r, day) == Some(|history|)
  {
    var r := CreditDay(history, day, amount);
    assert r[..|r| - 1] == history;
    FindDayAt(r, day, |history|);
  }

  /** Two credits to the same day amount to one credit of their sum. */
  lemma CreditDayTwice(history: seq<DayXP>, day: string, a: int, b: int)
    ensures CreditDay(CreditDay(history, day, a), day, b) == CreditDay(history, day, a + b)
  {
    var once := CreditDay(history, day, a);
    match FindDay(history, day)
    case Some(k) =>
      FindDayAt(once, day, k);
    case None =>
      FindDayAt(once, day, |history|);
  }

  // ---------------------------------------------------------------------------
  // Accuracy
  // ---------------------------------------------------------------------------

  /** An attempt is counted when the subject is a non-empty string and `correct` was passed. */
  predicate Counted(subject: Option<string>, correct: Option<bool>) {
    subject.Some? && subject.value != "" && correct.Some?
  }

  /** The accuracy map with one more attempt counted for `subject`. */
  function RecordAttempt(accuracy: map<string, Tally>, subject: Option<string>, correct: Option<bool>): (r: map<string, Tally>)
    ensures !Counted(subject, correct) ==> r == accuracy
    ensures Counted(subject, correct) ==>
      var s := subject.value;
      var before := if s in accuracy then accuracy[s] else Tally(0, 0);
      && r.Keys == accuracy.Keys + {s}
      && r[s].total == before.total + 1
      && r[s].correct == before.correct + (if correct.value then 1 else 0)
      && forall t :: t in accuracy && t != s ==> r[t] == accuracy[t]
  {
    if Counted(subject, correct) then
      var s := subject.value;
      var t := if s in accuracy then accuracy[s] else Tally(0, 0);
      accuracy[s := Tally(t.correct + (if correct.value then 1 else 0), t.total + 1)]
    else accuracy
  }

  /** Every subject has 0 <= correct <= total. */
  predicate TalliesValid(accuracy: map<string, Tally>) {
    forall s :: s in accuracy ==> 0 <= accuracy[s].correct <= accuracy[s].total
  }

  // ---------------------------------------------------------------------------
  // Unlocked levels
  // ---------------------------------------------------------------------------

  /** The level lists with `level` added to `gameId`'s list, which starts as [1]. */
  function WithLevel(levels: map<string, seq<int>>, gameId: string, level: int): (r: map<string, seq<int>>)
    ensures r.Keys == levels.Keys + {gameId}
    ensures level in r[gameId]
    ensures gameId in levels ==> levels[gameId] <= r[gameId]
    ensures gameId !in levels ==> r[gameId] == if level == 1 then [1] else [1, level]
    ensures |r[gameId]| <= (if gameId in levels then |levels[gameId]| else 1) + 1
    ensures forall g :: g in levels && g != gameId ==> r[g] == levels[g]
    ensures gameId in levels && level in levels[gameId] ==> r == levels
  {
    var unlocked := if gameId in levels then levels[gameId] else [1];
    levels[gameId := if level in unlocked then unlocked else unlocked + [level]]
  }

  /** Unlocking a level twice is the same as unlocking it once. */
  lemma WithLevelIdempotent(levels: map<string, seq<int>>, gameId: string, level: int)
    ensures WithLevel(WithLevel(levels, gameId, level), gameId, level) == WithLevel(levels, gameId, level)
  {
  }

  /** Every per-game list is free of duplicates. */
  predicate LevelsValid(levels: map<string, seq<int>>) {
    forall g :: g in levels ==> Distinct(levels[g])
  }

  lemma WithLevelValid(levels: map<string, seq<int>>, gameId: string, level: int)
    requires LevelsValid(levels)
    ensures LevelsValid(WithLevel(levels, gameId, level))
  {
  }

  // ---------------------------------------------------------------------------
  // Whole profiles and the store
  // ---------------------------------------------------------------------------

  /** The invariant every operation keeps for a profile. */
  predicate ProfileValid(p: Profile) {
    && |p.activityHistory| <= HISTORY_LIMIT
    && DistinctDates(p.activityHistory)
    && TalliesValid(p.accuracyBySubject)
    && LevelsValid(p.unlockedLevels)
  }

  /** The profile `addXP` builds: XP added, the day credited, the last 30 days kept, the attempt counted. */
  function CreditXP(p: Profile, amount: int, subject: Option<string>, correct: Option<bool>, day: string): Profile {
    p.(totalXP := p.totalXP + amount,
       activityHistory := LastN(CreditDay(p.activityHistory, day, amount), HISTORY_LIMIT),
       accuracyBySubject := RecordAttempt(p.accuracyBySubject, subject, correct))
  }

  /** `addProfile`: append a fresh profile and select it. */
  function AddProfileStep(s: Store, id: string, name: string, avatar: string): Store {
    Store(s.profiles + [NewProfile(id, name, avatar)], Some(NewProfile(id, name, avatar)))
  }

  /** `updateProfile`: replace the profile with the same id and select the new version. */
  function UpdateStep(s: Store, updated: Profile): Store {
    Store(ReplaceById(s.profiles, updated), Some(updated))
  }

  /** `addXP`: nothing without a selected profile. */
  function AddXPStep(s: Store, amount: int, subject: Option<string>, correct: Option<bool>, day: string): Store {
    if s.current.None? then s
    else UpdateStep(s, CreditXP(s.current.value, amount, subject, correct, day))
  }

  /** `unlockLevel`: nothing without a selected profile. */
  function UnlockStep(s: Store, gameId: string, level: int): Store {
    if s.current.None? then s
    else UpdateStep(s, s.current.value.(unlockedLevels := WithLevel(s.current.value.unlockedLevels, gameId, level)))
  }

  /** `currentProfile?.totalXP || 0`. */
  function CurrentXP(s: Store): int {
    if s.current.Some? then s.current.value.totalXP else 0
  }

  /** A fresh profile satisfies the invariant. */
  lemma NewProfileValid(id: string, name: string, avatar: string)
    ensures ProfileValid(NewProfile(id, name, avatar)) && NewProfile(id, name, avatar).totalXP == 0
  {
  }

  /** `addXP` keeps the profile invariant: at most 30 days, one entry per day, correct <= total. */
  lemma CreditXPValid(p: Profile, amount: int, subject: Option<string>, correct: Option<bool>, day: string)
    requires ProfileValid(p)
    ensures ProfileValid(CreditXP(p, amount, subject, correct, day))
  {
    CreditDayFacts(p.activityHistory, day, amount);
    LastNDistinctDates(CreditDay(p.activityHistory, day, amount));
    RecordAttemptValid(p.accuracyBySubject, subject, correct);
  }

  /** Keeping the last entries keeps one entry per date. */
  lemma LastNDistinctDates(history: seq<DayXP>)
    requires DistinctDates(history)
    ensures DistinctDates(LastN(history, HISTORY_LIMIT))
  {
    var kept := LastN(history, HISTORY_LIMIT);
    var d := |history| - |kept|;
    forall i, j | 0 <= i < j < |kept| ensures kept[i].date != kept[j].date {
      assert kept[i] == history[i + d] && kept[j] == history[j + d];
    }
  }

  /** Counting an attempt keeps every subject's correct count between 0 and its total. */
  lemma RecordAttemptValid(accuracy: map<string, Tally>, subject: Option<string>, correct: Option<bool>)
    requires TalliesValid(accuracy)
    ensures TalliesValid(RecordAttempt(accuracy, subject, correct))
  {
  }

  /** Updating a listed profile keeps it listed. */
  lemma UpdateKeepsCurrentListed(s: Store, updated: Profile)
    requires s.current.Some? && s.current.value in s.profiles && s.current.value.id == updated.id
    ensures UpdateStep(s, updated).current.value in UpdateStep(s, updated).profiles
  {
    var k :| 0 <= k < |s.profiles| && s.profiles[k] == s.current.value;
    assert ReplaceById(s.profiles, updated)[k] == updated;
  }

  /** `addXP` raises the selected profile's XP by exactly `amount` and keeps it in the list. */
  lemma AddXPStepFacts(s: Store, amount: int, subject: Option<string>, correct: Option<bool>, day: string)
    requires s.current.Some?
    ensures AddXPStep(s, amount, subject, correct, day).current.Some?
    ensures CurrentXP(AddXPStep(s, amount, subject, correct, day)) == CurrentXP(s) + amount
    ensures s.current.value in s.profiles ==>
      AddXPStep(s, amount, subject, correct, day).current.value in AddXPStep(s, amount, subject, correct, day).profiles
  {
    if s.current.value in s.profiles {
      UpdateKeepsCurrentListed(s, CreditXP(s.current.value, amount, subject, correct, day));
    }
  }

  /**
   * `unlockLevel` without a selected profile changes nothing; with one, it
   * updates only that profile's levels, and calling it twice with the same
   * arguments is the same as calling it once.
   */
  lemma UnlockStepFacts(s: Store, gameId: string, level: int)
    ensures s.current.None? ==> UnlockStep(s, gameId, level) == s
    ensures s.current.Some? ==>
      UnlockStep(s, gameId, level).current == Some(s.current.value.(unlockedLevels := WithLevel(s.current.value.unlockedLevels, gameId, level)))
    ensures UnlockStep(UnlockStep(s, gameId, level), gameId, level) == UnlockStep(s, gameId, level)
  {
    if s.current.Some? {
      var p := s.current.value;
      var q := p.(unlockedLevels := WithLevel(p.unlockedLevels, gameId, level));
      WithLevelIdempotent(p.unlockedLevels, gameId, level);
      assert q.(unlockedLevels := WithLevel(q.unlockedLevels, gameId, level)) == q;
      var once := ReplaceById(s.profiles, q);
      assert ReplaceById(once, q) == once;
    }
  }

  /** One `addXP(amount, subject, correct)` call made on `day`. */
  datatype XPCall = XPCall(amount: int, subject: Option<string>, correct: Option<bool>, day: string)

  function ApplyXPCalls(s: Store, calls: seq<XPCall>): Store
    decreases |calls|
  {
    if calls == [] then s
    else
      var c := calls[0];
      ApplyXPCalls(AddXPStep(s, c.amount, c.subject, c.correct, c.day), calls[1..])
  }

  function SumAmounts(calls: seq<XPCall>): int {
    if calls == [] then 0 else calls[0].amount + SumAmounts(calls[1..])
  }

  /** After any sequence of `addXP` calls, the selected profile's XP has grown by the sum of the amounts. */
  lemma {:induction false} TotalXPIsSum(s: Store, calls: seq<XPCall>)
    requires s.current.Some?
    ensures ApplyXPCalls(s, calls).current.Some?
    ensures CurrentXP(ApplyXPCalls(s, calls)) == CurrentXP(s) + SumAmounts(calls)
    decreases |calls|
  {
    if calls != [] {
      var c := calls[0];
      AddXPStepFacts(s, c.amount, c.subject, c.correct, c.day);
      TotalXPIsSum(AddXPStep(s, c.amount, c.subject, c.correct, c.day), calls[1..]);
    }
  }

  /** Without a selected profile, any sequence of `addXP` calls changes nothing. */
  lemma {:induction false} NoProfileNoChange(s: Store, calls: seq<XPCall>)
    requires s.current.None?
    ensures ApplyXPCalls(s, calls) == s
    decreases |calls|
  {
    if calls != [] {
      NoProfileNoChange(s, calls[1..]);
    }
  }

  /**
   * A fresh profile given 10 XP for a correct math answer and the 0 XP of a
   * wrong one on the same day ends with 10 XP, one history entry of 10 XP, and
   * a math tally of 1 correct out of 2: the wrong answer counts as an attempt.
   */
  lemma TwoMathAnswers(id: string, day: string)
    ensures var start := NewProfile(id, "name", "avatar");
      var s := Store([start], Some(start));
      var s1 := AddXPStep(s, 10, Some("math"), Some(true), day);
      var s2 := AddXPStep(s1, 0, Some("math"), Some(false), day);
      && s2.current.Some?
      && s2.current.value.totalXP == 10
      && s2.current.value.activityHistory == [DayXP(day, 10)]
      && s2.current.value.accuracyBySubject == map["math" := Tally(1, 2)]
      && s2.profiles == [s2.current.value]
  {
    var start := NewProfile(id, "name", "avatar");
    var p1 := CreditXP(start, 10, Some("math"), Some(true), day);
    assert p1.activityHistory == [DayXP(day, 10)];
    assert FindDay(p1.activityHistory, day) == Some(0);
  }

  // ---------------------------------------------------------------------------
  // Ranks
  // ---------------------------------------------------------------------------

  /** The thresholds are strictly ascending and start at 0. */
  lemma RanksAscending()
    ensures RANKS[0].minXP == 0
    ensures forall i, j :: 0 <= i < j < |RANKS| ==> RANKS[i].minXP < RANKS[j].minXP
  {
  }

  /** Scanning the table from position k downwards for the first threshold `xp` reaches. */
  function TierFrom(xp: int, k: nat): (i: nat)
    requires k < |RANKS|
    ensures i <= k
    ensures RANKS[i].minXP <= xp || (i == 0 && xp < RANKS[0].minXP)
    ensures forall j :: i < j <= k ==> xp < RANKS[j].minXP
  {
    if RANKS[k].minXP <= xp then k
    else if k == 0 then 0
    else TierFrom(xp, k - 1)
  }

  /** The highest tier whose threshold `xp` reaches; tier 0 when it reaches none. */
  function TierIndex(xp: int): (i: nat)
    ensures i < |RANKS|
    ensures RANKS[i].minXP <= xp || (i == 0 && xp < 0)
    ensures forall j :: i < j < |RANKS| ==> xp < RANKS[j].minXP
  {
    TierFrom(xp, |RANKS| - 1)
  }

  /** More XP never means a lower tier. */
  lemma TierIndexMonotone(x: int, y: int)
    requires x <= y
    ensures TierIndex(x) <= TierIndex(y)
  {
  }

  /** `getRank()`'s result: the tier, and the threshold shown as the next goal. */
  datatype RankInfo = RankInfo(name: string, emoji: string, minXP: int, nextRankXP: int)

  /** JavaScript's `a || b` on a possibly missing number: `b` when `a` is missing or 0. */
  function OrElse(a: Option<int>, b: int): int {
    if a.Some? && a.value != 0 then a.value else b
  }

  /** `RANKS[i + 1]?.minXP || RANKS[i].minXP`. */
  function NextRankXP(i: nat): int
    requires i < |RANKS|
  {
    OrElse(if i + 1 < |RANKS| then Some(RANKS[i + 1].minXP) else None, RANKS[i].minXP)
  }

  /**
   * The rank shown for `xp`: the highest tier reached. Below the top tier the
   * next goal is the following threshold, which `xp` has not reached; at the
   * top tier it is the tier's own threshold.
   */
  function RankInfoFor(xp: int): (info: RankInfo)
    ensures var i := TierIndex(xp);
      && info.name == RANKS[i].name && info.emoji == RANKS[i].emoji && info.minXP == RANKS[i].minXP
      && info.nextRankXP == if i + 1 < |RANKS| then RANKS[i + 1].minXP else RANKS[i].minXP
    ensures info.minXP <= xp || (xp < 0 && info.minXP == 0)
    ensures TierIndex(xp) < |RANKS| - 1 ==> xp < info.nextRankXP && info.minXP < info.nextRankXP
    ensures TierIndex(xp) == |RANKS| - 1 <==> info.nextRankXP == info.minXP
  {
    var i := TierIndex(xp);
    RankInfo(RANKS[i].name, RANKS[i].emoji, RANKS[i].minXP, NextRankXP(i))
  }

  /** 150 XP is the bronze tier with 300 as the next goal; negative XP is the first tier with 100. */
  lemma RankExamples()
    ensures RankInfoFor(150) == RankInfo("ארד", "🥉", 100, 300)
    ensures RankInfoFor(-5) == RankInfo("מתחיל", "🌟", 0, 100)
    ensures RankInfoFor(9000) == RankInfo("אגדה", "👑", 2500, 2500)
  {
    assert TierIndex(150) == 1;
    assert TierIndex(-5) == 0;
    assert TierIndex(9000) == 6;
  }

  // ---------------------------------------------------------------------------
  // The provider
  // ---------------------------------------------------------------------------

  class GameStore {
    var profiles: seq<Profile>
    var current: Option<Profile>

    function State(): Store
      reads this
    {
      Store(profiles, current)
    }

    /** The provider starts from the saved profile list, with no profile selected. */
    constructor (saved: seq<Profile>)
      ensures State() == Store(saved, None)
    {
      profiles := saved;
      current := None;
    }

    /** `setCurrentProfile`. */
    method SetCurrentProfile(p: Option<Profile>)
      modifies this
      ensures State() == Store(old(profiles), p)
    {
      current := p;
    }

    method AddProfile(id: string, name: string, avatar: string)
      modifies this
      ensures State() == AddProfileStep(old(State()), id, name, avatar)
    {
      var newProfile := NewProfile(id, name, avatar);
      profiles := profiles + [newProfile];
      current := Some(newProfile);
    }

    method UpdateProfile(updated: Profile)
      modifies this
      ensures State() == UpdateStep(old(State()), updated)
    {
      profiles := ReplaceById(profiles, updated);
      current := Some(updated);
    }

    /** `addXP(amount, subject, correct)` on the day `today`. */
    method AddXP(amount: int, subject: Option<string>, correct: Option<bool>, today: string)
      modifies this
      ensures State() == AddXPStep(old(State()), amount, subject, correct, today)
    {
      if current.None? {
        return;
      }
      var p := current.value;
      var history := CreditToday(p.activityHistory, today, amount);
      var accuracy := CountAttempt(p.accuracyBySubject, subject, correct);
      UpdateProfile(p.(totalXP := p.totalXP + amount,
                       activityHistory := LastN(history, HISTORY_LIMIT),
                       accuracyBySubject := accuracy));
    }

    /** The history part of `addXP`: today's entry gains `amount`, or a new entry is appended. */
    static method CreditToday(activityHistory: seq<DayXP>, today: string, amount: int) returns (history: seq<DayXP>)
      ensures history == CreditDay(activityHistory, today, amount)
    {
      history := activityHistory;
      var todayEntry := FindDay(history, today);
      if todayEntry.Some? {
        var k := todayEntry.value;
        history := history[k := history[k].(xp := history[k].xp + amount)];
      } else {
        history := history + [DayXP(today, amount)];
      }
    }

    /** The accuracy part of `addXP`: the subject's tally starts at 0 of 0, then counts the attempt. */
    static method CountAttempt(accuracyBySubject: map<string, Tally>, subject: Option<string>, correct: Option<bool>)
      returns (accuracy: map<string, Tally>)
      ensures accuracy == RecordAttempt(accuracyBySubject, subject, correct)
    {
      accuracy := accuracyBySubject;
      if subject.Some? && subject.value != "" && correct.Some? {
        var s := subject.value;
        if s !in accuracy {
          accuracy := accuracy[s := Tally(0, 0)];
        }
        accuracy := accuracy[s := accuracy[s].(total := accuracy[s].total + 1)];
        if correct.value {
          accuracy := accuracy[s := accuracy[s].(correct := accuracy[s].correct + 1)];
        }
      }
    }

    method UnlockLevel(gameId: string, level: int)
      modifies this
      ensures State() == UnlockStep(old(State()), gameId, level)
    {
      if current.None? {
        return;
      }
      var p := current.value;
      var unlocked := p.unlockedLevels;
      if gameId !in unlocked {
        unlocked := unlocked[gameId := [1]];
      }
      if level !in unlocked[gameId] {
        unlocked := unlocked[gameId := unlocked[gameId] + [level]];
      }
      assert unlocked == WithLevel(p.unlockedLevels, gameId, level);
      UpdateProfile(p.(unlockedLevels := unlocked));
    }

    /** `getRank()`: scans the table from the top tier down and stops at the first threshold reached. */
    method GetRank() returns (info: RankInfo)
      ensures info == RankInfoFor(CurrentXP(State()))
    {
      var xp := if current.Some? then current.value.totalXP else 0;
      var tier := RANKS[0];
      var nextRankXP := OrElse(Some(RANKS[1].minXP), 0);
      var i := |RANKS| - 1;
      while i >= 0
        invariant -1 <= i < |RANKS|
        invariant forall j :: i < j < |RANKS| ==> xp < RANKS[j].minXP
        invariant tier == RANKS[0] && nextRankXP == NextRankXP(0)
      {
        if xp >= RANKS[i].minXP {
          tier := RANKS[i];
          nextRankXP := NextRankXP(i);
          assert TierIndex(xp) == i;
          break;
        }
        i := i - 1;
      }
      info := RankInfo(tier.name, tier.emoji, tier.minXP, nextRankXP);
    }
  }
}
