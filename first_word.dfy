/**
 * The first-words reading game for young players: a Hebrew word is shown and
 * spoken, and the player picks its picture among four emojis. Words are drawn
 * without repetition until every word has been shown, then the cycle restarts.
 */
module FirstWord {
  import opened Wrappers
  import opened Seqs
  import opened Random
  import opened Progression
  import opened Quiz

  datatype WordItem = WordItem(word: string, emoji: string)

  const WORDS: seq<WordItem> := [
    WordItem("בָּנָנָה", "🍌"),
    WordItem("תַּפּוּחַ", "🍎"),
    WordItem("כֶּלֶב", "🐶"),
    WordItem("חָתוּל", "🐱"),
    WordItem("שֶׁמֶשׁ", "☀️"),
    WordItem("יָרֵחַ", "🌙"),
    WordItem("כּוֹכָב", "⭐"),
    WordItem("פֶּרַח", "🌸"),
    WordItem("דָּג", "🐟"),
    WordItem("צִפּוֹר", "🐦"),
    WordItem("בַּיִת", "🏠"),
    WordItem("עֵץ", "🌳"),
    WordItem("גֶּשֶׁם", "🌧️"),
    WordItem("לֵב", "❤️"),
    WordItem("אַרְיֵה", "🦁")
  ]

  function Words(ws: seq<WordItem>): seq<string> {
    MapSeq((w: WordItem) => w.word, ws)
  }

  function Emojis(ws: seq<WordItem>): seq<string> {
    MapSeq((w: WordItem) => w.emoji, ws)
  }

  /** A usable word list: more words than wrong options, no word and no picture twice. */
  predicate ListOk(ws: seq<WordItem>) {
    Distinct(Words(ws)) && Pool(Emojis(ws))
  }

  /** The words of the list, in order. */
  lemma WordList()
    ensures Words(WORDS) == ["בָּנָנָה", "תַּפּוּחַ", "כֶּלֶב", "חָתוּל", "שֶׁמֶשׁ", "יָרֵחַ", "כּוֹכָב", "פֶּרַח", "דָּג", "צִפּוֹר", "בַּיִת", "עֵץ", "גֶּשֶׁם", "לֵב", "אַרְיֵה"]
  {
  }

  /** The pictures of the list, in order. */
  lemma PictureList()
    ensures Emojis(WORDS) == ["🍌", "🍎", "🐶", "🐱", "☀️", "🌙", "⭐", "🌸", "🐟", "🐦", "🏠", "🌳", "🌧️", "❤️", "🦁"]
  {
  }

  /** The fifteen words are different. */
  lemma WordLiteralsDistinct()
    ensures Distinct(["בָּנָנָה", "תַּפּוּחַ", "כֶּלֶב", "חָתוּל", "שֶׁמֶשׁ", "יָרֵחַ", "כּוֹכָב", "פֶּרַח", "דָּג", "צִפּוֹר", "בַּיִת", "עֵץ", "גֶּשֶׁם", "לֵב", "אַרְיֵה"])
  {
  }

  /** The fifteen pictures are different. */
  lemma PictureLiteralsDistinct()
    ensures Distinct(["🍌", "🍎", "🐶", "🐱", "☀️", "🌙", "⭐", "🌸", "🐟", "🐦", "🏠", "🌳", "🌧️", "❤️", "🦁"])
  {
  }

  /** No two words, and no two pictures, of the list are the same. */
  lemma WordsDistinct()
    ensures ListOk(WORDS)
  {
    WordList();
    PictureList();
    WordLiteralsDistinct();
    PictureLiteralsDistinct();
  }

  /** `ws.filter(w => !used.includes(w.word))`. */
  function Unused(ws: seq<WordItem>, used: seq<string>): (r: seq<WordItem>)
    ensures |r| <= |ws|
  {
    if ws == [] then []
    else (if ws[0].word in used then [] else [ws[0]]) + Unused(ws[1..], used)
  }

  /** The unused words are exactly the words of the list not yet used. */
  lemma {:induction false} UnusedMembers(ws: seq<WordItem>, used: seq<string>, w: WordItem)
    ensures w in Unused(ws, used) <==> w in ws && w.word !in used
  {
    if ws != [] {
      UnusedMembers(ws[1..], used, w);
      assert ws == [ws[0]] + ws[1..];
    }
  }

  /**
   * Used words that are distinct words of a list without repeated words
   * leave no word unused exactly when all of them have been used.
   */
  lemma NoneUnusedIffAllUsed(ws: seq<WordItem>, used: seq<string>)
    requires Distinct(Words(ws)) && Distinct(used)
    requires forall x :: x in used ==> x in Words(ws)
    ensures Unused(ws, used) == [] <==> |used| == |ws|
  {
    FullIffAllPresent(used, Words(ws));
    if Unused(ws, used) == [] {
      forall x | x in Words(ws) ensures x in used {
        var k :| 0 <= k < |ws| && Words(ws)[k] == x;
        UnusedMembers(ws, used, ws[k]);
      }
    } else {
      var w := Unused(ws, used)[0];
      UnusedMembers(ws, used, w);
      var k :| 0 <= k < |ws| && ws[k] == w;
      assert Words(ws)[k] == w.word;
    }
  }

  /** The word `newWord` selects from list `ws`: from the unused words, or from all when none is left. */
  function Pick(ws: seq<WordItem>, used: seq<string>, u: Draw): (w: WordItem)
    requires ws != []
    ensures w in ws
    ensures Unused(ws, used) != [] ==> w.word !in used
  {
    var available := Unused(ws, used);
    var words := if |available| > 0 then available else ws;
    var w := words[RandomInt(0, |words| - 1, u)];
    UnusedMembers(ws, used, w);
    w
  }

  /** The used words after a pick with draw u: the pick appended, or alone once every word had been used. */
  function NextUsed(ws: seq<WordItem>, used: seq<string>, u: Draw): seq<string>
    requires ws != []
  {
    var w := Pick(ws, used, u);
    if Unused(ws, used) == [] then [w.word] else used + [w.word]
  }

  /** A list of used words `newWord` can work from: distinct words of the list. */
  predicate UsedOk(ws: seq<WordItem>, used: seq<string>) {
    ws != [] && Distinct(Words(ws)) && Distinct(used) && forall x :: x in used ==> x in Words(ws)
  }

  /**
   * Picking keeps the used words distinct words of the list; before the cycle
   * is complete the pick is a new word and is appended.
   */
  lemma NextUsedFacts(ws: seq<WordItem>, used: seq<string>, u: Draw)
    requires UsedOk(ws, used)
    ensures UsedOk(ws, NextUsed(ws, used, u))
    ensures |used| < |ws| ==>
      Pick(ws, used, u).word !in used && NextUsed(ws, used, u) == used + [Pick(ws, used, u).word]
    ensures |used| == |ws| ==> NextUsed(ws, used, u) == [Pick(ws, used, u).word]
  {
    NoneUnusedIffAllUsed(ws, used);
    FullIffAllPresent(used, Words(ws));
    var w := Pick(ws, used, u);
    var k :| 0 <= k < |ws| && ws[k] == w;
    assert Words(ws)[k] == w.word;
    var before := if Unused(ws, used) == [] then [] else used;
    DistinctAppend(before, [w.word]);
  }

  /** The words shown by successive `newWord` calls with the given draws, from the used list `used`. */
  function Shown(ws: seq<WordItem>, used: seq<string>, draws: seq<Draw>): (r: seq<WordItem>)
    requires UsedOk(ws, used)
    ensures |r| == |draws|
    decreases |draws|
  {
    if draws == [] then []
    else
      NextUsedFacts(ws, used, draws[0]);
      [Pick(ws, used, draws[0])] + Shown(ws, NextUsed(ws, used, draws[0]), draws[1..])
  }

  /** While the cycle lasts, every round shows a word of the list that was not used before. */
  lemma {:induction false} ShownFresh(ws: seq<WordItem>, used: seq<string>, draws: seq<Draw>)
    requires UsedOk(ws, used) && |used| + |draws| <= |ws|
    ensures forall w :: w in Shown(ws, used, draws) ==> w in ws && w.word !in used
    decreases |draws|
  {
    if draws != [] {
      var w := Pick(ws, used, draws[0]);
      NextUsedFacts(ws, used, draws[0]);
      var next := NextUsed(ws, used, draws[0]);
      ShownFresh(ws, next, draws[1..]);
      var rest := Shown(ws, next, draws[1..]);
      assert Shown(ws, used, draws) == [w] + rest;
      assert next == used + [w.word];
    }
  }

  /** While the cycle lasts, no two rounds show the same word. */
  lemma {:induction false} ShownDistinct(ws: seq<WordItem>, used: seq<string>, draws: seq<Draw>)
    requires UsedOk(ws, used) && |used| + |draws| <= |ws|
    ensures forall i, j :: 0 <= i < j < |draws| ==> Shown(ws, used, draws)[i].word != Shown(ws, used, draws)[j].word
    decreases |draws|
  {
    if draws != [] {
      var shown := Shown(ws, used, draws);
      var w := Pick(ws, used, draws[0]);
      NextUsedFacts(ws, used, draws[0]);
      var next := NextUsed(ws, used, draws[0]);
      ShownFresh(ws, next, draws[1..]);
      ShownDistinct(ws, next, draws[1..]);
      var rest := Shown(ws, next, draws[1..]);
      assert shown == [w] + rest;
      FreshHeadDistinct(w, rest, next);
    }
  }

  /** A word already used, followed by rounds of distinct words not yet used, repeats no word. */
  lemma FreshHeadDistinct(w: WordItem, rest: seq<WordItem>, used: seq<string>)
    requires w.word in used
    requires forall v :: v in rest ==> v.word !in used
    requires forall i, j :: 0 <= i < j < |rest| ==> rest[i].word != rest[j].word
    ensures forall i, j :: 0 <= i < j < |[w] + rest| ==> ([w] + rest)[i].word != ([w] + rest)[j].word
  {
    var shown := [w] + rest;
    forall i, j | 0 <= i < j < |shown| ensures shown[i].word != shown[j].word {
      var later := rest[j - 1];
      assert shown[j] == later && later in rest;
      if i > 0 {
        assert shown[i] == rest[i - 1];
      }
    }
  }

  /**
   * No word repeats within a cycle: while the used words and the rounds to
   * come do not exceed the list, every round shows a word of the list not
   * shown before.
   */
  lemma NoRepeatWithinCycle(ws: seq<WordItem>, used: seq<string>, draws: seq<Draw>)
    requires UsedOk(ws, used) && |used| + |draws| <= |ws|
    ensures forall w :: w in Shown(ws, used, draws) ==> w in ws && w.word !in used
    ensures forall i, j :: 0 <= i < j < |draws| ==> Shown(ws, used, draws)[i].word != Shown(ws, used, draws)[j].word
  {
    ShownFresh(ws, used, draws);
    ShownDistinct(ws, used, draws);
  }

  /** Words of list items that all belong to `ws` are words of `ws`. */
  lemma WordsWithin(ws: seq<WordItem>, items: seq<WordItem>)
    requires forall w :: w in items ==> w in ws
    ensures forall x :: x in Words(items) ==> x in Words(ws)
  {
    forall x | x in Words(items) ensures x in Words(ws) {
      var k :| 0 <= k < |items| && Words(items)[k] == x;
      assert items[k] in items;
      var m :| 0 <= m < |ws| && ws[m] == items[k];
      assert Words(ws)[m] == x;
    }
  }

  /** An item of a list without repeated words is the one item there with its word. */
  lemma ItemOfWord(ws: seq<WordItem>, items: seq<WordItem>, w: WordItem)
    requires Distinct(Words(ws)) && w in ws && w.word in Words(items)
    requires forall v :: v in items ==> v in ws
    ensures w in items
  {
    var k :| 0 <= k < |items| && Words(items)[k] == w.word;
    var m :| 0 <= m < |ws| && ws[m] == w;
    assert items[k] in items;
    var m2 :| 0 <= m2 < |ws| && ws[m2] == items[k];
    assert Words(ws)[m2] == w.word == Words(ws)[m];
  }

  /** A whole cycle from the start shows every word of the list exactly once. */
  lemma FullCycle(ws: seq<WordItem>, draws: seq<Draw>)
    requires ws != [] && Distinct(Words(ws)) && |draws| == |ws|
    ensures forall w :: w in ws <==> w in Shown(ws, [], draws)
  {
    var shown := Shown(ws, [], draws);
    NoRepeatWithinCycle(ws, [], draws);
    var a := Words(shown);
    assert Distinct(a) by {
      forall i, j | 0 <= i < j < |a| ensures a[i] != a[j] {
        assert a[i] == shown[i].word && a[j] == shown[j].word;
      }
    }
    WordsWithin(ws, shown);
    FullIffAllPresent(a, Words(ws));
    forall w | w in ws ensures w in shown {
      var m :| 0 <= m < |ws| && ws[m] == w;
      assert Words(ws)[m] == w.word;
      ItemOfWord(ws, shown, w);
    }
  }

  /**
   * The word choice of `newWord` over list `ws`: the picked word, and the used
   * words afterwards — the picked word appended, to the used words while some
   * word is unused and to an empty list once all have been used.
   */
  method SelectWord(ws: seq<WordItem>, used: seq<string>, u: Draw) returns (selected: WordItem, usedAfter: seq<string>)
    requires ws != [] && Distinct(Words(ws)) && Distinct(used)
    requires forall x :: x in used ==> x in Words(ws)
    ensures selected == Pick(ws, used, u) && usedAfter == NextUsed(ws, used, u)
    ensures |used| < |ws| ==> selected.word !in used && usedAfter == used + [selected.word]
    ensures |used| == |ws| ==> usedAfter == [selected.word]
    ensures Distinct(usedAfter) && forall x :: x in usedAfter ==> x in Words(ws)
  {
    var available := Unused(ws, used);
    usedAfter := used;
    if |available| == 0 {
      usedAfter := [];
    }
    var words := if |available| > 0 then available else ws;
    selected := words[RandomInt(0, |words| - 1, u)];
    usedAfter := usedAfter + [selected.word];
    assert selected == Pick(ws, used, u);
    assert usedAfter == NextUsed(ws, used, u);
    NoneUnusedIffAllUsed(ws, used);
    NextUsedFacts(ws, used, u);
  }

  /** What an answer schedules. */
  datatype Followup = NoFollowup | NewWordAfter(delay: nat) | ClearWrongAfter(delay: nat)

  /** The options `newWord` builds for a word of list `ws`: its emoji and three other emojis of the list, shuffled. */
  method WordOptions(word: WordItem, ws: seq<WordItem>, otherDraws: seq<Draw>, optionDraws: seq<Draw>)
    returns (options: seq<string>)
    requires word in ws && ListOk(ws)
    requires |otherDraws| >= |ws| - 2 && |optionDraws| >= WRONG_COUNT
    ensures word.emoji in Emojis(ws)
    ensures options == Options(Emojis(ws), word.emoji, otherDraws, optionDraws)
    ensures |options| == WRONG_COUNT + 1 && Distinct(options) && word.emoji in options
  {
    var k :| 0 <= k < |ws| && ws[k] == word;
    assert Emojis(ws)[k] == word.emoji;
    // the other emojis of the list, filtered out of it before they are shuffled
    var otherEmojis := Without(Emojis(ws), word.emoji);
    options := BuildOptions(Emojis(ws), word.emoji, otherEmojis, otherDraws, optionDraws);
  }

  class Game {
    var currentWord: Option<WordItem>
    var options: seq<string>
    var showCorrect: bool
    var wrongAnswer: Option<string>
    var score: int
    var usedWords: seq<string>

    /** The used words are distinct words of the list. */
    predicate Valid()
      reads this
    {
      && Distinct(usedWords)
      && (forall x :: x in usedWords ==> x in Words(WORDS))
    }

    /**
     * The component's initial state: no word yet, nothing used. The mount
     * effect draws the first word at once: the caller's next call is
     * `NewWord`.
     */
    constructor ()
      ensures currentWord == None && options == [] && !showCorrect && wrongAnswer == None
      ensures score == 0 && usedWords == []
      ensures Valid()
    {
      currentWord := None;
      options := [];
      showCorrect := false;
      wrongAnswer := None;
      score := 0;
      usedWords := [];
    }

    /**
     * `newWord`: picks a word not used yet (all words again once every one has
     * been used, starting the used list afresh), records it as used and builds
     * its options.
     */
    method NewWord(uPick: Draw, otherDraws: seq<Draw>, optionDraws: seq<Draw>)
      requires Valid()
      requires |otherDraws| >= |WORDS| - 2 && |optionDraws| >= WRONG_COUNT
      modifies this
      ensures Valid()
      ensures currentWord == Some(Pick(WORDS, old(usedWords), uPick))
      ensures |old(usedWords)| < |WORDS| ==>
        currentWord.value.word !in old(usedWords) && usedWords == old(usedWords) + [currentWord.value.word]
      ensures |old(usedWords)| == |WORDS| ==> usedWords == [currentWord.value.word]
      ensures ListOk(WORDS) && currentWord.value.emoji in Emojis(WORDS)
      ensures options == Options(Emojis(WORDS), currentWord.value.emoji, otherDraws, optionDraws)
      ensures |options| == WRONG_COUNT + 1 && Distinct(options) && currentWord.value.emoji in options
      ensures !showCorrect && wrongAnswer == None && score == old(score)
    {
      WordsDistinct();
      NewWordFrom(WORDS, uPick, otherDraws, optionDraws);
    }

    /** `newWord` over the word list `ws`: the word choice, then the options for it. */
    method NewWordFrom(ws: seq<WordItem>, uPick: Draw, otherDraws: seq<Draw>, optionDraws: seq<Draw>)
      requires ListOk(ws) && Distinct(usedWords) && forall x :: x in usedWords ==> x in Words(ws)
      requires |otherDraws| >= |ws| - 2 && |optionDraws| >= WRONG_COUNT
      modifies this
      ensures Distinct(usedWords) && forall x :: x in usedWords ==> x in Words(ws)
      ensures currentWord == Some(Pick(ws, old(usedWords), uPick))
      ensures |old(usedWords)| < |ws| ==>
        currentWord.value.word !in old(usedWords) && usedWords == old(usedWords) + [currentWord.value.word]
      ensures |old(usedWords)| == |ws| ==> usedWords == [currentWord.value.word]
      ensures currentWord.value.emoji in Emojis(ws)
      ensures options == Options(Emojis(ws), currentWord.value.emoji, otherDraws, optionDraws)
      ensures |options| == WRONG_COUNT + 1 && Distinct(options) && currentWord.value.emoji in options
      ensures !showCorrect && wrongAnswer == None && score == old(score)
    {
      ChooseWord(ws, uPick);
      SetOptions(ws, otherDraws, optionDraws);
    }

    /** The word choice of `newWord`: the picked word becomes current and is recorded as used. */
    method ChooseWord(ws: seq<WordItem>, uPick: Draw)
      requires ListOk(ws) && Distinct(usedWords) && forall x :: x in usedWords ==> x in Words(ws)
      modifies this
      ensures Distinct(usedWords) && forall x :: x in usedWords ==> x in Words(ws)
      ensures currentWord == Some(Pick(ws, old(usedWords), uPick)) && currentWord.value in ws
      ensures |old(usedWords)| < |ws| ==>
        currentWord.value.word !in old(usedWords) && usedWords == old(usedWords) + [currentWord.value.word]
      ensures |old(usedWords)| == |ws| ==> usedWords == [currentWord.value.word]
      ensures options == old(options) && !showCorrect && wrongAnswer == None && score == old(score)
    {
      var selected, used := SelectWord(ws, usedWords, uPick);
      currentWord, usedWords := Some(selected), used;
      showCorrect := false;
      wrongAnswer := None;
    }

    /** The option building of `newWord` for the current word. */
    method SetOptions(ws: seq<WordItem>, otherDraws: seq<Draw>, optionDraws: seq<Draw>)
      requires ListOk(ws) && currentWord.Some? && currentWord.value in ws
      requires |otherDraws| >= |ws| - 2 && |optionDraws| >= WRONG_COUNT
      modifies this
      ensures currentWord == old(currentWord) && usedWords == old(usedWords)
      ensures currentWord.value.emoji in Emojis(ws)
      ensures options == Options(Emojis(ws), currentWord.value.emoji, otherDraws, optionDraws)
      ensures |options| == WRONG_COUNT + 1 && Distinct(options) && currentWord.value.emoji in options
      ensures showCorrect == old(showCorrect) && wrongAnswer == old(wrongAnswer) && score == old(score)
    {
      options := WordOptions(currentWord.value, ws, otherDraws, optionDraws);
    }

    /**
     * `handleAnswer(emoji)`: nothing before the first word. The right emoji
     * earns 15 `reading` XP and a point and schedules the next word; a wrong one
     * is marked, records a 0-XP `reading` attempt, and leaves the word and its
     * options as they were.
     */
    method HandleAnswer(emoji: string, store: GameStore, today: string) returns (next: Followup)
      modifies this, store
      ensures currentWord == old(currentWord) && options == old(options) && usedWords == old(usedWords)
      ensures currentWord == None ==>
        next == NoFollowup && store.State() == old(store.State())
        && showCorrect == old(showCorrect) && wrongAnswer == old(wrongAnswer) && score == old(score)
      ensures currentWord.Some? && emoji == currentWord.value.emoji ==>
        && store.State() == AddXPStep(old(store.State()), 15, Some("reading"), Some(true), today)
        && showCorrect && score == old(score) + 1 && wrongAnswer == old(wrongAnswer)
        && next == NewWordAfter(1500)
      ensures currentWord.Some? && emoji != currentWord.value.emoji ==>
        && store.State() == AddXPStep(old(store.State()), 0, Some("reading"), Some(false), today)
        && wrongAnswer == Some(emoji) && showCorrect == old(showCorrect) && score == old(score)
        && next == ClearWrongAfter(500)
    {
      if currentWord == None {
        return NoFollowup;
      }
      if emoji == currentWord.value.emoji {
        showCorrect := true;
        store.AddXP(15, Some("reading"), Some(true), today);
        score := score + 1;
        next := NewWordAfter(1500);
      } else {
        wrongAnswer := Some(emoji);
        store.AddXP(0, Some("reading"), Some(false), today);
        next := ClearWrongAfter(500);
      }
    }

    /** The timeout after a wrong answer: the mark goes away. */
    method ClearWrongTimeout()
      modifies this
      ensures wrongAnswer == None
      ensures currentWord == old(currentWord) && options == old(options) && usedWords == old(usedWords)
      ensures showCorrect == old(showCorrect) && score == old(score)
    {
      wrongAnswer := None;
    }
  }
}
