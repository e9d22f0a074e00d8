/**
 * The English-words game for older players: an English word is shown and
 * spoken, and the player picks its picture among four emojis. Three levels
 * narrow the word list by category; correct answers in a row raise the reward.
 */
module EnglishGame {
  import opened Wrappers
  import opened Seqs
  import opened Random
  import opened Progression
  import opened Quiz

  datatype WordItem = WordItem(word: string, emoji: string, category: string)

  const WORDS: seq<WordItem> := [
    WordItem("Dog", "🐶", "animals"),
    WordItem("Cat", "🐱", "animals"),
    WordItem("Bird", "🐦", "animals"),
    WordItem("Fish", "🐟", "animals"),
    WordItem("Lion", "🦁", "animals"),
    WordItem("Apple", "🍎", "food"),
    WordItem("Banana", "🍌", "food"),
    WordItem("Orange", "🍊", "food"),
    WordItem("Red", "🔴", "colors"),
    WordItem("Blue", "🔵", "colors"),
    WordItem("Green", "🟢", "colors"),
    WordItem("Yellow", "🟡", "colors"),
    WordItem("One", "1️⃣", "numbers"),
    WordItem("Two", "2️⃣", "numbers"),
    WordItem("Three", "3️⃣", "numbers"),
    WordItem("Sun", "☀️", "nature"),
    WordItem("Moon", "🌙", "nature"),
    WordItem("Star", "⭐", "nature"),
    WordItem("House", "🏠", "objects"),
    WordItem("Car", "🚗", "objects")
  ]

  /** A level's name and its category filter: `all`, or category names separated by commas. */
  datatype LevelConfig = LevelConfig(name: string, filter: string)

  const LEVELS: seq<LevelConfig> := [
    LevelConfig("חיות", "animals"),
    LevelConfig("צבעים ומספרים", "colors,numbers"),
    LevelConfig("הכל!", "all")
  ]

  /** The filter value that keeps every word. */
  const ALL: string := "all"

  function Emojis(ws: seq<WordItem>): seq<string> {
    MapSeq((w: WordItem) => w.emoji, ws)
  }

  /** The pictures of the word list, in order. */
  lemma Pictures()
    ensures Emojis(WORDS) == ["🐶", "🐱", "🐦", "🐟", "🦁", "🍎", "🍌", "🍊", "🔴", "🔵",
                              "🟢", "🟡", "1️⃣", "2️⃣", "3️⃣", "☀️", "🌙", "⭐", "🏠", "🚗"]
  {
  }

  /** The twenty pictures are different. */
  lemma PictureLiteralsDistinct()
    ensures Distinct(["🐶", "🐱", "🐦", "🐟", "🦁", "🍎", "🍌", "🍊", "🔴", "🔵",
                              "🟢", "🟡", "1️⃣", "2️⃣", "3️⃣", "☀️", "🌙", "⭐", "🏠", "🚗"])
  {
  }

  /** No two words of the list share a picture, and there are more than enough for a question. */
  lemma EmojisDistinct()
    ensures Pool(Emojis(WORDS))
  {
    Pictures();
    PictureLiteralsDistinct();
  }

  // ---------------------------------------------------------------------------
  // `split` and the category filter
  // ---------------------------------------------------------------------------

  /** JavaScript's `s.split(sep)` for a one-character separator: the pieces between separators. */
  function Split(s: string, sep: char): (parts: seq<string>)
    ensures |parts| >= 1
  {
    if s == [] then [""]
    else
      var rest := Split(s[1..], sep);
      if s[0] == sep then [""] + rest else [[s[0]] + rest[0]] + rest[1..]
  }

  /** `parts.join(sep)`. */
  function Join(parts: seq<string>, sep: char): string
    requires |parts| >= 1
  {
    if |parts| == 1 then parts[0] else parts[0] + [sep] + Join(parts[1..], sep)
  }

  /** Joining the pieces with the separator gives back the split string. */
  lemma {:induction false} SplitJoin(s: string, sep: char)
    ensures Join(Split(s, sep), sep) == s
  {
    if s != [] {
      var rest := Split(s[1..], sep);
      SplitJoin(s[1..], sep);
      if s[0] != sep && |rest| > 1 {
        var parts := [[s[0]] + rest[0]] + rest[1..];
        assert parts[1..] == rest[1..];
        assert Join(rest, sep) == rest[0] + [sep] + Join(rest[1..], sep);
      }
    }
  }

  /** No piece contains the separator. */
  lemma {:induction false} SplitPieces(s: string, sep: char)
    ensures forall k :: 0 <= k < |Split(s, sep)| ==> sep !in Split(s, sep)[k]
  {
    if s != [] {
      SplitPieces(s[1..], sep);
    }
  }

  /** A string without the separator splits into itself alone. */
  lemma {:induction false} SplitWhole(s: string, sep: char)
    requires sep !in s
    ensures Split(s, sep) == [s]
  {
    if s != [] {
      SplitWhole(s[1..], sep);
      assert [s[0]] + s[1..] == s;
    }
  }

  /** A separator after a piece without one ends that piece. */
  lemma {:induction false} SplitAfter(a: string, b: string, sep: char)
    requires sep !in a
    ensures Split(a + [sep] + b, sep) == [a] + Split(b, sep)
  {
    if a != [] {
      assert (a + [sep] + b)[1..] == a[1..] + [sep] + b;
      SplitAfter(a[1..], b, sep);
      assert [a[0]] + a[1..] == a;
    } else {
      assert a + [sep] + b == [sep] + b;
    }
  }

  /** `ws.filter(w => categories.includes(w.category))`. */
  function InCategories(ws: seq<WordItem>, categories: seq<string>): (r: seq<WordItem>)
    ensures |r| <= |ws|
  {
    if ws == [] then []
    else (if ws[0].category in categories then [ws[0]] else []) + InCategories(ws[1..], categories)
  }

  /** The filter keeps exactly the words whose category is listed. */
  lemma {:induction false} InCategoriesMembers(ws: seq<WordItem>, categories: seq<string>, w: WordItem)
    ensures w in InCategories(ws, categories) <==> w in ws && w.category in categories
  {
    if ws != [] {
      InCategoriesMembers(ws[1..], categories, w);
      assert ws == [ws[0]] + ws[1..];
    }
  }

  /** The kept words stay in the order of the list, the order the draw indexes into. */
  lemma {:induction false} InCategoriesKeepsOrder(ws: seq<WordItem>, categories: seq<string>)
    ensures Subsequence(InCategories(ws, categories), ws)
  {
    if ws != [] {
      InCategoriesKeepsOrder(ws[1..], categories);
      var rest := InCategories(ws[1..], categories);
      if ws[0].category in categories {
        assert InCategories(ws, categories) == [ws[0]] + rest;
        assert ([ws[0]] + rest)[1..] == rest;
      } else {
        assert InCategories(ws, categories) == [] + rest == rest;
        assert Subsequence(rest, ws[1..]);
      }
    }
  }

  /** The words of list `ws` a level filter keeps: all of them for `all`, otherwise those of the listed categories. */
  function Filtered(ws: seq<WordItem>, filter: string): seq<WordItem> {
    if filter == ALL then ws else InCategories(ws, Split(filter, ','))
  }

  /** `getAvailableWords()` at a level. */
  function Available(level: nat): seq<WordItem>
    requires level < |LEVELS|
  {
    Filtered(WORDS, LEVELS[level].filter)
  }

  /** The first level's filter is the one category `animals`. */
  lemma AnimalsFilter(filter: string)
    requires filter == LEVELS[0].filter
    ensures filter != ALL && Split(filter, ',') == ["animals"]
  {
    SplitWhole(filter, ',');
  }

  /** Two pieces without the separator, joined by it, split back into the two. */
  lemma SplitPair(a: string, b: string, sep: char)
    requires sep !in a && sep !in b
    ensures Split(a + [sep] + b, sep) == [a, b]
  {
    SplitAfter(a, b, sep);
    SplitWhole(b, sep);
  }

  /** The second level's filter lists `colors` and `numbers`. */
  lemma ColoursNumbersFilter(filter: string)
    requires filter == LEVELS[1].filter
    ensures filter != ALL && Split(filter, ',') == ["colors", "numbers"]
  {
    var colours, numbers := "colors", "numbers";
    assert filter == colours + [','] + numbers;
    SplitPair(colours, numbers, ',');
  }

  /** The three filters: animals; colours and numbers; everything. */
  lemma LevelFilters()
    ensures Split(LEVELS[0].filter, ',') == ["animals"]
    ensures Split(LEVELS[1].filter, ',') == ["colors", "numbers"]
    ensures LEVELS[0].filter != ALL && LEVELS[1].filter != ALL && LEVELS[2].filter == ALL
  {
    AnimalsFilter(LEVELS[0].filter);
    ColoursNumbersFilter(LEVELS[1].filter);
  }

  /**
   * Level 0 keeps exactly the animal words, level 1 exactly the colour and
   * number words, level 2 every word, of whatever list it filters.
   */
  lemma LevelWords(ws: seq<WordItem>, w: WordItem)
    ensures w in Filtered(ws, LEVELS[0].filter) <==> w in ws && w.category == "animals"
    ensures w in Filtered(ws, LEVELS[1].filter) <==> w in ws && (w.category == "colors" || w.category == "numbers")
    ensures Filtered(ws, LEVELS[2].filter) == ws
  {
    LevelFilters();
    InCategoriesMembers(ws, ["animals"], w);
    InCategoriesMembers(ws, ["colors", "numbers"], w);
  }

  /** Every word a level offers is a word of the list. */
  lemma AvailableListed(level: nat, w: WordItem)
    requires level < |LEVELS|
    ensures w in Available(level) ==> w in WORDS
  {
    if LEVELS[level].filter != ALL {
      InCategoriesMembers(WORDS, Split(LEVELS[level].filter, ','), w);
    }
  }

  /** A list with an animal word and a colour word leaves every level something to offer. */
  lemma LevelsNonEmpty(ws: seq<WordItem>, level: nat, animal: WordItem, colour: WordItem)
    requires level < |LEVELS|
    requires animal in ws && animal.category == "animals"
    requires colour in ws && colour.category == "colors"
    ensures Filtered(ws, LEVELS[level].filter) != []
  {
    if level == 0 {
      LevelWords(ws, animal);
      assert animal in Filtered(ws, LEVELS[0].filter);
    } else if level == 1 {
      LevelWords(ws, colour);
      assert colour in Filtered(ws, LEVELS[1].filter);
    } else {
      LevelWords(ws, animal);
      assert Filtered(ws, LEVELS[2].filter) == ws;
    }
  }

  /** Every level offers at least one word, so `newWord` always has one to draw. */
  lemma AvailableNonEmpty(level: nat)
    requires level < |LEVELS|
    ensures Available(level) != []
  {
    LevelsNonEmpty(WORDS, level, WORDS[0], WORDS[8]);
  }

  // ---------------------------------------------------------------------------
  // Rewards
  // ---------------------------------------------------------------------------

  /** XP for a correct answer: 15, plus 5 per level, plus 2 per answer of the current streak. */
  function AnswerXP(level: nat, streak: nat): (xp: int)
    ensures xp >= 15
  {
    15 + level * 5 + streak * 2
  }

  /** The score gained by `n` correct answers in a row, starting from streak `streak`. */
  function RunXP(level: nat, streak: nat, n: nat): int
    decreases n
  {
    if n == 0 then 0 else AnswerXP(level, streak) + RunXP(level, streak + 1, n - 1)
  }

  /**
   * A run of `n` correct answers starting at streak `streak` earns
   * `n * (15 + 5 * level + 2 * streak) + n * (n - 1)`; from a broken streak
   * (0) that is `n * (15 + 5 * level) + n * (n - 1)`.
   */
  lemma {:induction false} RunXPTotal(level: nat, streak: nat, n: nat)
    decreases n
    ensures RunXP(level, streak, n) == n * (15 + 5 * level + 2 * streak) + n * (n - 1)
  {
    if n > 0 {
      RunXPTotal(level, streak + 1, n - 1);
      var base := 15 + 5 * level + 2 * streak;
      calc {
        RunXP(level, streak, n);
        base + (n - 1) * (base + 2) + (n - 1) * (n - 2);
        { assert (n - 1) * (base + 2) == (n - 1) * base + 2 * (n - 1); }
        base + (n - 1) * base + 2 * (n - 1) + (n - 1) * (n - 2);
        { assert (n - 1) * (n - 2) + 2 * (n - 1) == (n - 1) * n; }
        n * base + n * (n - 1);
      }
    }
  }

  /** What an answer schedules: the next word in either case, sooner after a right one. */
  datatype Followup = NoFollowup | NewWordAfter(delay: nat)

  /** The options `newWord` builds for a word of list `ws`: its emoji and three other emojis of the list, shuffled. */
  method WordOptions(word: WordItem, ws: seq<WordItem>, otherDraws: seq<Draw>, optionDraws: seq<Draw>)
    returns (options: seq<string>)
    requires word in ws && Pool(Emojis(ws))
    requires |otherDraws| >= |ws| - 2 && |optionDraws| >= WRONG_COUNT
    ensures word.emoji in Emojis(ws)
    ensures options == Options(Emojis(ws), word.emoji, otherDraws, optionDraws)
    ensures |options| == WRONG_COUNT + 1 && Distinct(options) && word.emoji in options
  {
    var k :| 0 <= k < |ws| && ws[k] == word;
    assert Emojis(ws)[k] == word.emoji;
    // the other emojis of the list, filtered out of it before they are shuffled
    var otherEmojis := Without(Emojis(ws), word.emoji);
    options := BuildOptions(Emojis(ws), word.emoji, otherEmojis, otherDraws, optionDraws);
  }

  class Game {
    var level: nat
    var currentWord: Option<WordItem>
    var options: seq<string>
    var score: int
    var streak: nat
    var selectedAnswer: Option<string>
    var isCorrect: Option<bool>

    /**
     * The component's initial state: level 0, no word yet. The effect on
     * `level` also runs on mount and draws the first word: the caller's next
     * call is `NewWord`.
     */
    constructor ()
      ensures level == 0 && currentWord == None && options == [] && score == 0 && streak == 0
      ensures selectedAnswer == None && isCorrect == None
    {
      level := 0;
      currentWord := None;
      options := [];
      score := 0;
      streak := 0;
      selectedAnswer := None;
      isCorrect := None;
    }

    /** A level button: only the level changes (the new level's first word follows with `NewWord`). */
    method SetLevel(l: nat)
      requires l < |LEVELS|
      modifies this
      ensures level == l
      ensures currentWord == old(currentWord) && options == old(options) && score == old(score)
      ensures streak == old(streak) && selectedAnswer == old(selectedAnswer) && isCorrect == old(isCorrect)
    {
      level := l;
    }

    /**
     * `newWord`: a word drawn from the level's available words, its picture
     * among four options built from the whole word list, and no answer yet.
     */
    method NewWord(uPick: Draw, otherDraws: seq<Draw>, optionDraws: seq<Draw>)
      requires level < |LEVELS|
      requires |otherDraws| >= |WORDS| - 2 && |optionDraws| >= WRONG_COUNT
      modifies this
      ensures level == old(level) && score == old(score) && streak == old(streak)
      ensures Available(old(level)) != []
      ensures currentWord == Some(Available(old(level))[RandomInt(0, |Available(old(level))| - 1, uPick)])
      ensures currentWord.value in Available(old(level)) && currentWord.value.emoji in Emojis(WORDS)
      ensures Pool(Emojis(WORDS))
      ensures options == Options(Emojis(WORDS), currentWord.value.emoji, otherDraws, optionDraws)
      ensures |options| == WRONG_COUNT + 1 && Distinct(options) && currentWord.value.emoji in options
      ensures selectedAnswer == None && isCorrect == None
    {
      var available := Available(level);
      AvailableNonEmpty(level);
      EmojisDistinct();
      forall w | w in available ensures w in WORDS {
        AvailableListed(level, w);
      }
      NewWordFrom(WORDS, available, uPick, otherDraws, optionDraws);
    }

    /** `newWord` drawing from `available`, a part of the word list `ws`. */
    method NewWordFrom(ws: seq<WordItem>, available: seq<WordItem>, uPick: Draw, otherDraws: seq<Draw>, optionDraws: seq<Draw>)
      requires available != [] && (forall w :: w in available ==> w in ws) && Pool(Emojis(ws))
      requires |otherDraws| >= |ws| - 2 && |optionDraws| >= WRONG_COUNT
      modifies this
      ensures level == old(level) && score == old(score) && streak == old(streak)
      ensures currentWord == Some(available[RandomInt(0, |available| - 1, uPick)])
      ensures currentWord.value in available && currentWord.value.emoji in Emojis(ws)
      ensures options == Options(Emojis(ws), currentWord.value.emoji, otherDraws, optionDraws)
      ensures |options| == WRONG_COUNT + 1 && Distinct(options) && currentWord.value.emoji in options
      ensures selectedAnswer == None && isCorrect == None
    {
      var word := available[RandomInt(0, |available| - 1, uPick)];
      ShowWord(word, ws, otherDraws, optionDraws);
    }

    /** The new word and its options, for a word of list `ws`. */
    method ShowWord(word: WordItem, ws: seq<WordItem>, otherDraws: seq<Draw>, optionDraws: seq<Draw>)
      requires word in ws && Pool(Emojis(ws))
      requires |otherDraws| >= |ws| - 2 && |optionDraws| >= WRONG_COUNT
      modifies this
      ensures currentWord == Some(word) && word.emoji in Emojis(ws)
      ensures options == Options(Emojis(ws), word.emoji, otherDraws, optionDraws)
      ensures |options| == WRONG_COUNT + 1 && Distinct(options) && word.emoji in options
      ensures selectedAnswer == None && isCorrect == None
      ensures level == old(level) && score == old(score) && streak == old(streak)
    {
      var built := WordOptions(word, ws, otherDraws, optionDraws);
      currentWord, options := Some(word), built;
      selectedAnswer := None;
      isCorrect := None;
    }

    /**
     * `handleAnswer(emoji)`: nothing before the first word or once an answer
     * is chosen. Otherwise the answer is recorded; a right one earns
     * `AnswerXP(level, streak)` `english` XP, adds it to the score and extends
     * the streak; a wrong one records a 0-XP attempt and breaks the streak.
     */
    method HandleAnswer(emoji: string, store: GameStore, today: string) returns (next: Followup)
      modifies this, store
      ensures level == old(level) && currentWord == old(currentWord) && options == old(options)
      ensures (old(currentWord) == None || old(selectedAnswer) != None) ==>
        && next == NoFollowup && store.State() == old(store.State())
        && score == old(score) && streak == old(streak)
        && selectedAnswer == old(selectedAnswer) && isCorrect == old(isCorrect)
      ensures old(currentWord) != None && old(selectedAnswer) == None ==>
        && selectedAnswer == Some(emoji)
        && isCorrect == Some(emoji == old(currentWord).value.emoji)
      ensures old(currentWord) != None && old(selectedAnswer) == None && emoji == old(currentWord).value.emoji ==>
        && store.State() == AddXPStep(old(store.State()), AnswerXP(old(level), old(streak)), Some("english"), Some(true), today)
        && score == old(score) + AnswerXP(old(level), old(streak))
        && streak == old(streak) + 1
        && next == NewWordAfter(1000)
      ensures old(currentWord) != None && old(selectedAnswer) == None && emoji != old(currentWord).value.emoji ==>
        && store.State() == AddXPStep(old(store.State()), 0, Some("english"), Some(false), today)
        && score == old(score) && streak == 0
        && next == NewWordAfter(1500)
    {
      if currentWord == None || selectedAnswer != None {
        return NoFollowup;
      }
      selectedAnswer := Some(emoji);
      var correct := emoji == currentWord.value.emoji;
      isCorrect := Some(correct);
      if correct {
        var xp := 15 + level * 5 + streak * 2;
        store.AddXP(xp, Some("english"), Some(true), today);
        score := score + xp;
        streak := streak + 1;
        next := NewWordAfter(1000);
      } else {
        store.AddXP(0, Some("english"), Some(false), today);
        streak := 0;
        next := NewWordAfter(1500);
      }
    }
  }
}
