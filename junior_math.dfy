/**
 * The counting-arithmetic game for young players: small additions and
 * subtractions illustrated with emojis, four options, wrong options greyed out
 * one by one, and a hint after the second mistake.
 */
module JuniorMath {
  import opened Wrappers
  import opened Seqs
  import opened Random
  import opened Options
  import opened Progression

  const EMOJIS: seq<string> := ["🦕", "🐶", "⭐", "🎈", "🍎", "🌸"]

  datatype Operator = Plus | Minus

  datatype Question = Question(num1: int, num2: int, operator: Operator, answer: int, emoji: string)

  /** What a question may be: operands up to 5 for addition, a difference of at most 5 for subtraction. */
  predicate ValidQuestion(q: Question) {
    && q.emoji in EMOJIS
    && match q.operator
       case Plus => 1 <= q.num1 <= 5 && 1 <= q.num2 <= 5 && q.answer == q.num1 + q.num2
       case Minus => 1 <= q.num2 <= q.answer <= 5 && q.num1 == q.answer + q.num2
  }

  /**
   * `generateQuestion()`: the emoji from `uEmoji`; addition when `uOp > 0.3`;
   * then two numbers from `u1` and `u2` (subtraction draws the answer first and
   * the subtrahend up to the answer).
   */
  function GenerateQuestion(uEmoji: Draw, uOp: Draw, u1: Draw, u2: Draw): (q: Question)
    ensures ValidQuestion(q)
    ensures q.operator == Plus ==> 2 <= q.answer <= 10
    ensures q.operator == Minus ==> q.num1 - q.num2 == q.answer && q.num1 <= 10
  {
    var emoji := EMOJIS[RandomInt(0, |EMOJIS| - 1, uEmoji)];
    if uOp > 0.3 then
      var num1 := RandomInt(1, 5, u1);
      var num2 := RandomInt(1, 5, u2);
      Question(num1, num2, Plus, num1 + num2, emoji)
    else
      var answer := RandomInt(1, 5, u1);
      var num2 := RandomInt(1, answer, u2);
      var num1 := answer + num2;
      Question(num1, num2, Minus, num1 - num2, emoji)
  }

  /** Every valid question is generated by some draws. */
  lemma GenerateQuestionReaches(q: Question)
    requires ValidQuestion(q)
    ensures exists uEmoji: Draw, uOp: Draw, u1: Draw, u2: Draw :: GenerateQuestion(uEmoji, uOp, u1, u2) == q
  {
    var i :| 0 <= i < |EMOJIS| && EMOJIS[i] == q.emoji;
    var uEmoji := DrawFor(0, |EMOJIS| - 1, i);
    RandomIntReaches(0, |EMOJIS| - 1, i);
    match q.operator
    case Plus =>
      RandomIntReaches(1, 5, q.num1);
      RandomIntReaches(1, 5, q.num2);
      assert GenerateQuestion(uEmoji, 0.5, DrawFor(1, 5, q.num1), DrawFor(1, 5, q.num2)) == q;
    case Minus =>
      RandomIntReaches(1, 5, q.answer);
      RandomIntReaches(1, q.answer, q.num2);
      assert GenerateQuestion(uEmoji, 0.0, DrawFor(1, 5, q.answer), DrawFor(1, q.answer, q.num2)) == q;
  }

  /** The option one loop iteration proposes: `Math.max(0, answer + offset)`, offset in [-3, 3]. */
  function Candidate(answer: int, u: Draw): (c: int)
    ensures c >= 0
    ensures c == 0 || answer - 3 <= c <= answer + 3
  {
    var option := answer + RandomInt(-3, 3, u);
    if option > 0 then option else 0
  }

  function Candidates(answer: int, draws: seq<Draw>): seq<int> {
    MapSeq(u => Candidate(answer, u), draws)
  }

  /**
   * Whatever question is generated, the option loop can finish: the offsets
   * +1, +2 and +3 give three distinct positive wrong values.
   */
  lemma JuniorOptionsFinish(uEmoji: Draw, uOp: Draw, u1: Draw, u2: Draw)
    ensures var a := GenerateQuestion(uEmoji, uOp, u1, u2).answer;
      Fill([a], a, Candidates(a, [DrawFor(-3, 3, 1), DrawFor(-3, 3, 2), DrawFor(-3, 3, 3)])).Some?
  {
    ClimbingDrawsFinish(GenerateQuestion(uEmoji, uOp, u1, u2).answer);
  }

  /** For a positive answer the draws of offsets +1, +2 and +3 finish the option loop. */
  lemma ClimbingDrawsFinish(a: int)
    requires a >= 1
    ensures Fill([a], a, Candidates(a, [DrawFor(-3, 3, 1), DrawFor(-3, 3, 2), DrawFor(-3, 3, 3)])).Some?
  {
    RandomIntReaches(-3, 3, 1);
    RandomIntReaches(-3, 3, 2);
    RandomIntReaches(-3, 3, 3);
    assert Candidates(a, [DrawFor(-3, 3, 1), DrawFor(-3, 3, 2), DrawFor(-3, 3, 3)]) == [a + 1, a + 2, a + 3];
    StepsFill(a, 1);
  }

  /**
   * `generateOptions(answer)`: the option loop over `draws`, then the shuffle
   * over `shuffleDraws`. The result holds the answer and three other distinct
   * values, none negative and each 0 or within 3 of the answer.
   */
  method GenerateOptions(answer: int, draws: seq<Draw>, shuffleDraws: seq<Draw>) returns (options: seq<int>)
    requires Fill([answer], answer, Candidates(answer, draws)).Some?
    requires |shuffleDraws| >= OPTION_COUNT - 1
    ensures options == Shuffled(Fill([answer], answer, Candidates(answer, draws)).value, shuffleDraws)
    ensures |options| == OPTION_COUNT && answer in options && Distinct(options)
    ensures forall o :: o in options && o != answer ==> o >= 0 && (o == 0 || answer - 3 <= o <= answer + 3)
  {
    var cands := Candidates(answer, draws);
    var gathered := FillOptions(answer, cands);
    FillFromAnswer(answer, cands);
    options := ShuffleArray(gathered, shuffleDraws);
    ShuffledDistinct(gathered, shuffleDraws);
    assert answer in multiset(options) by {
      assert gathered[0] == answer;
    }
    forall o | o in options && o != answer
      ensures o >= 0 && (o == 0 || answer - 3 <= o <= answer + 3)
    {
      assert o in multiset(gathered);
      var k :| 0 <= k < |gathered| && gathered[k] == o;
      var j :| 0 <= j < |cands| && cands[j] == o;
      assert cands[j] == Candidate(answer, draws[j]);
    }
  }

  /** XP for a correct answer: 20, less 5 per mistake on this question, never below 10. */
  function CorrectXP(errors: nat): (xp: int)
    ensures 10 <= xp <= 20
    ensures errors == 0 <==> xp == 20
    ensures errors >= 2 <==> xp == 10
  {
    if 20 - errors * 5 > 10 then 20 - errors * 5 else 10
  }

  /** What an answer schedules. */
  datatype Followup = NoFollowup | NewQuestionAfter(delay: nat)

  class Game {
    var question: Question
    var options: seq<int>
    var errors: nat
    var disabledOptions: seq<int>
    var showHint: bool
    var showCorrect: bool
    var score: int

    /**
     * Within one question: the greyed-out options are the distinct wrong
     * answers given so far, one per mistake, and the hint shows from the second
     * mistake on.
     */
    predicate Valid()
      reads this
    {
      && |disabledOptions| == errors
      && Distinct(disabledOptions)
      && question.answer !in disabledOptions
      && (showHint <==> errors >= 2)
    }

    /**
     * The component's initial state: a first question, not yet with options.
     * The mount effect replaces it at once: the caller's next call is
     * `NewQuestion`.
     */
    constructor (uEmoji: Draw, uOp: Draw, u1: Draw, u2: Draw)
      ensures question == GenerateQuestion(uEmoji, uOp, u1, u2)
      ensures options == [] && errors == 0 && disabledOptions == [] && !showHint && !showCorrect && score == 0
      ensures Valid()
    {
      question := GenerateQuestion(uEmoji, uOp, u1, u2);
      options := [];
      errors := 0;
      disabledOptions := [];
      showHint := false;
      showCorrect := false;
      score := 0;
    }

    /** `newQuestion`: a new question and options, with mistakes, greyed options and hint cleared. */
    method NewQuestion(uEmoji: Draw, uOp: Draw, u1: Draw, u2: Draw, draws: seq<Draw>, shuffleDraws: seq<Draw>)
      modifies this
      requires var a := GenerateQuestion(uEmoji, uOp, u1, u2).answer; Fill([a], a, Candidates(a, draws)).Some?
      requires |shuffleDraws| >= OPTION_COUNT - 1
      ensures question == GenerateQuestion(uEmoji, uOp, u1, u2)
      ensures var a := question.answer;
        && options == Shuffled(Fill([a], a, Candidates(a, draws)).value, shuffleDraws)
        && a in options && |options| == OPTION_COUNT && Distinct(options)
      ensures errors == 0 && disabledOptions == [] && !showHint && !showCorrect && score == old(score)
      ensures Valid()
    {
      var q := GenerateQuestion(uEmoji, uOp, u1, u2);
      question := q;
      options := GenerateOptions(q.answer, draws, shuffleDraws);
      errors := 0;
      disabledOptions := [];
      showHint := false;
      showCorrect := false;
    }

    /**
     * `handleAnswer(selected)`: a greyed-out option is ignored. The correct
     * option earns `CorrectXP(errors)` under `math` and a point; a wrong one
     * records a 0-XP `math` attempt, counts a mistake and greys the option out.
     * The correct option is not greyed out, so choosing it again before the next
     * question earns again.
     */
    method HandleAnswer(selected: int, store: GameStore, today: string) returns (next: Followup)
      requires Valid()
      modifies this, store
      ensures Valid()
      ensures question == old(question) && options == old(options)
      ensures old(selected in disabledOptions) ==>
        next == NoFollowup && store.State() == old(store.State())
        && errors == old(errors) && disabledOptions == old(disabledOptions)
        && showHint == old(showHint) && showCorrect == old(showCorrect) && score == old(score)
      ensures old(selected !in disabledOptions) && selected == question.answer ==>
        && store.State() == AddXPStep(old(store.State()), CorrectXP(old(errors)), Some("math"), Some(true), today)
        && showCorrect && score == old(score) + 1
        && errors == old(errors) && disabledOptions == old(disabledOptions) && showHint == old(showHint)
        && next == NewQuestionAfter(1500)
      ensures old(selected !in disabledOptions) && selected != question.answer ==>
        && store.State() == AddXPStep(old(store.State()), 0, Some("math"), Some(false), today)
        && errors == old(errors) + 1 && disabledOptions == old(disabledOptions) + [selected]
        && showCorrect == old(showCorrect) && score == old(score)
        && next == NoFollowup
    {
      if selected in disabledOptions {
        return NoFollowup;
      }
      if selected == question.answer {
        next := Solve(store, today);
      } else {
        Miss(selected, store, today);
        next := NoFollowup;
      }
    }

    /** The correct option: `CorrectXP(errors)` under `math`, a point, and the next question after 1.5 s. */
    method Solve(store: GameStore, today: string) returns (next: Followup)
      requires Valid()
      modifies this, store
      ensures Valid()
      ensures store.State() == AddXPStep(old(store.State()), CorrectXP(old(errors)), Some("math"), Some(true), today)
      ensures showCorrect && score == old(score) + 1 && next == NewQuestionAfter(1500)
      ensures question == old(question) && options == old(options) && errors == old(errors)
      ensures disabledOptions == old(disabledOptions) && showHint == old(showHint)
    {
      showCorrect := true;
      store.AddXP(CorrectXP(errors), Some("math"), Some(true), today);
      score := score + 1;
      next := NewQuestionAfter(1500);
    }

    /** A wrong option: a 0-XP `math` attempt, one more mistake, the option greyed out, the hint from the second mistake. */
    method Miss(selected: int, store: GameStore, today: string)
      requires Valid() && selected != question.answer && selected !in disabledOptions
      modifies this, store
      ensures Valid()
      ensures store.State() == AddXPStep(old(store.State()), 0, Some("math"), Some(false), today)
      ensures errors == old(errors) + 1 && disabledOptions == old(disabledOptions) + [selected]
      ensures showHint == (errors >= 2)
      ensures question == old(question) && options == old(options)
      ensures showCorrect == old(showCorrect) && score == old(score)
    {
      store.AddXP(0, Some("math"), Some(false), today);
      var newErrors := errors + 1;
      errors := newErrors;
      disabledOptions := disabledOptions + [selected];
      DistinctAppend(old(disabledOptions), [selected]);
      if newErrors >= 2 {
        showHint := true;
      }
    }
  }
}
