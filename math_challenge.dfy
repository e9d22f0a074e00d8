/**
 * The arithmetic challenge for older players: five levels of questions over
 * addition, subtraction, multiplication and exact division, four answer
 * options per question, a streak bonus, and a level-up every fifth correct
 * answer.
 */
module MathChallenge {
  import opened Wrappers
  import opened Seqs
  import opened Random
  import opened Options
  import opened Progression

  datatype Operator = Plus | Minus | Times | Divide

  datatype LevelConfig = LevelConfig(name: string, maxNum: int, operators: seq<Operator>)

  const LEVELS: seq<LevelConfig> := [
    LevelConfig("קל", 10, [Plus, Minus]),
    LevelConfig("בינוני", 20, [Plus, Minus]),
    LevelConfig("כפל", 10, [Times]),
    LevelConfig("חילוק", 10, [Divide]),
    LevelConfig("מאתגר", 100, [Plus, Minus, Times])
  ]

  datatype Question = Question(num1: int, num2: int, operator: Operator, answer: int)

  /** The level's configuration, the index clamped to the last level. */
  function ConfigFor(level: nat): (c: LevelConfig)
    ensures c == LEVELS[if level < |LEVELS| then level else |LEVELS| - 1]
    ensures c.maxNum >= 1 && |c.operators| >= 1
  {
    LEVELS[if level < |LEVELS| then level else |LEVELS| - 1]
  }

  /** What a question of the given level may be: the operands and answer each operator promises. */
  predicate ValidQuestion(level: nat, q: Question) {
    var max := ConfigFor(level).maxNum;
    && q.operator in ConfigFor(level).operators
    && match q.operator
       case Plus => 1 <= q.num1 <= max && 1 <= q.num2 <= max && q.answer == q.num1 + q.num2
       case Minus => 1 <= q.answer <= max && 1 <= q.num2 <= max && q.num1 - q.num2 == q.answer
       case Times => 1 <= q.num1 <= max && 1 <= q.num2 <= max && q.answer == q.num1 * q.num2
       case Divide => 1 <= q.answer <= max && 1 <= q.num2 <= max && q.num1 == q.num2 * q.answer
  }

  /**
   * `generateQuestion(level)`: the operator from `uOp`; then the two numbers
   * from `u1` and `u2` in the order each case draws them (subtraction draws the
   * answer first, division the divisor first).
   */
  function GenerateQuestion(level: nat, uOp: Draw, u1: Draw, u2: Draw): (q: Question)
    ensures ValidQuestion(level, q)
    ensures q.answer >= 1
    ensures q.operator == Divide ==> q.num1 % q.num2 == 0 && q.num1 / q.num2 == q.answer
  {
    var config := ConfigFor(level);
    var operator := config.operators[RandomInt(0, |config.operators| - 1, uOp)];
    match operator
    case Plus =>
      var num1 := RandomInt(1, config.maxNum, u1);
      var num2 := RandomInt(1, config.maxNum, u2);
      Question(num1, num2, Plus, num1 + num2)
    case Minus =>
      var answer := RandomInt(1, config.maxNum, u1);
      var num2 := RandomInt(1, config.maxNum, u2);
      Question(answer + num2, num2, Minus, answer)
    case Times =>
      var num1 := RandomInt(1, config.maxNum, u1);
      var num2 := RandomInt(1, config.maxNum, u2);
      Question(num1, num2, Times, num1 * num2)
    case Divide =>
      var num2 := RandomInt(1, config.maxNum, u1);
      var answer := RandomInt(1, config.maxNum, u2);
      assert (num2 * answer) / num2 == answer && (num2 * answer) % num2 == 0 by {
        DivisionExact(num2, answer);
      }
      Question(num2 * answer, num2, Divide, answer)
  }

  lemma DivisionExact(d: int, a: int)
    requires d >= 1
    ensures (d * a) / d == a && (d * a) % d == 0
  {
    var q, r := (d * a) / d, (d * a) % d;
    assert d * (a - q) == r;
    if a - q >= 1 {
      MulAtLeast(d, a - q);
    } else if a - q <= -1 {
      MulAtLeast(d, q - a);
    }
  }

  lemma MulAtLeast(x: int, y: int)
    requires x >= 1 && y >= 1
    ensures x * y >= x
  {
  }

  /** Every valid question of a level is generated by some draws. */
  lemma GenerateQuestionReaches(level: nat, q: Question)
    requires ValidQuestion(level, q)
    ensures exists uOp: Draw, u1: Draw, u2: Draw :: GenerateQuestion(level, uOp, u1, u2) == q
  {
    var config := ConfigFor(level);
    var ops := config.operators;
    var i :| 0 <= i < |ops| && ops[i] == q.operator;
    assert ops == [Plus, Minus] || ops == [Times] || ops == [Divide] || ops == [Plus, Minus, Times];
    var uOp := DrawFor(0, |ops| - 1, i);
    RandomIntReaches(0, |ops| - 1, i);
    var max := config.maxNum;
    match q.operator
    case Plus =>
      RandomIntReaches(1, max, q.num1);
      RandomIntReaches(1, max, q.num2);
      assert GenerateQuestion(level, uOp, DrawFor(1, max, q.num1), DrawFor(1, max, q.num2)) == q;
    case Minus =>
      RandomIntReaches(1, max, q.answer);
      RandomIntReaches(1, max, q.num2);
      assert GenerateQuestion(level, uOp, DrawFor(1, max, q.answer), DrawFor(1, max, q.num2)) == q;
    case Times =>
      RandomIntReaches(1, max, q.num1);
      RandomIntReaches(1, max, q.num2);
      assert GenerateQuestion(level, uOp, DrawFor(1, max, q.num1), DrawFor(1, max, q.num2)) == q;
    case Divide =>
      RandomIntReaches(1, max, q.num2);
      RandomIntReaches(1, max, q.answer);
      assert GenerateQuestion(level, uOp, DrawFor(1, max, q.num2), DrawFor(1, max, q.answer)) == q;
  }

  /** The option one loop iteration proposes: `Math.max(0, answer + offset)`, offset in [-5, 5]. */
  function Candidate(answer: int, u: Draw): (c: int)
    ensures c >= 0
    ensures c == 0 || answer - 5 <= c <= answer + 5
  {
    var option := answer + RandomInt(-5, 5, u);
    if option > 0 then option else 0
  }

  function Candidates(answer: int, draws: seq<Draw>): seq<int> {
    MapSeq(u => Candidate(answer, u), draws)
  }

  /**
   * Whatever question is generated, the option loop can finish: the offsets
   * +1, +2 and +3 give three distinct positive wrong values.
   */
  lemma MathOptionsFinish(level: nat, uOp: Draw, u1: Draw, u2: Draw)
    ensures var a := GenerateQuestion(level, uOp, u1, u2).answer;
      Fill([a], a, Candidates(a, [DrawFor(-5, 5, 1), DrawFor(-5, 5, 2), DrawFor(-5, 5, 3)])).Some?
  {
    ClimbingDrawsFinish(GenerateQuestion(level, uOp, u1, u2).answer);
  }

  /** For a positive answer the draws of offsets +1, +2 and +3 finish the option loop. */
  lemma ClimbingDrawsFinish(a: int)
    requires a >= 1
    ensures Fill([a], a, Candidates(a, [DrawFor(-5, 5, 1), DrawFor(-5, 5, 2), DrawFor(-5, 5, 3)])).Some?
  {
    RandomIntReaches(-5, 5, 1);
    RandomIntReaches(-5, 5, 2);
    RandomIntReaches(-5, 5, 3);
    assert Candidates(a, [DrawFor(-5, 5, 1), DrawFor(-5, 5, 2), DrawFor(-5, 5, 3)]) == [a + 1, a + 2, a + 3];
    StepsFill(a, 1);
  }

  /**
   * `generateOptions(answer)`: the option loop over `draws`, then the shuffle
   * over `shuffleDraws`. The result holds the answer and three other distinct
   * values, none negative and each 0 or within 5 of the answer.
   */
  method GenerateOptions(answer: int, draws: seq<Draw>, shuffleDraws: seq<Draw>) returns (options: seq<int>)
    requires Fill([answer], answer, Candidates(answer, draws)).Some?
    requires |shuffleDraws| >= OPTION_COUNT - 1
    ensures options == Shuffled(Fill([answer], answer, Candidates(answer, draws)).value, shuffleDraws)
    ensures |options| == OPTION_COUNT && answer in options && Distinct(options)
    ensures forall o :: o in options && o != answer ==> o >= 0 && (o == 0 || answer - 5 <= o <= answer + 5)
  {
    var cands := Candidates(answer, draws);
    var gathered := FillOptions(answer, cands);
    FillFromAnswer(answer, cands);
    options := ShuffleArray(gathered, shuffleDraws);
    ShuffledDistinct(gathered, shuffleDraws);
    assert answer in multiset(options) by {
      assert gathered[0] == answer;
    }
    forall o | o in options && o != answer
      ensures o >= 0 && (o == 0 || answer - 5 <= o <= answer + 5)
    {
      assert o in multiset(gathered);
      var k :| 0 <= k < |gathered| && gathered[k] == o;
      if k > 0 {
        var j :| 0 <= j < |cands| && cands[j] == o;
        assert cands[j] == Candidate(answer, draws[j]);
      }
    }
  }

  /** XP for a correct answer: 10, plus 5 per level, plus 2 per answer of the current streak. */
  function AnswerXP(level: nat, streak: nat): (xp: int)
    ensures xp >= 10
  {
    10 + level * 5 + streak * 2
  }

  /** Whether the answer just counted completes a block of five below the last level. */
  predicate LevelUpDue(questionsAnswered: nat, level: nat) {
    (questionsAnswered + 1) % 5 == 0 && level < |LEVELS| - 1
  }

  /** Within every five consecutive counts below the last level, exactly one brings a level-up. */
  lemma LevelUpEveryFifth(level: nat, start: nat)
    requires level < |LEVELS| - 1
    ensures exists k :: start <= k < start + 5 && LevelUpDue(k, level)
    ensures forall k, k' :: start <= k < k' < start + 5 && LevelUpDue(k, level) ==> !LevelUpDue(k', level)
  {
    var k := start + (4 - start % 5);
    assert (k + 1) % 5 == 0;
    assert LevelUpDue(k, level);
  }

  /** What an answer schedules. */
  datatype Followup = NoFollowup | LevelUpAfter(delay: nat) | NewQuestionAfter(delay: nat)

  class Game {
    var level: nat
    var question: Option<Question>
    var options: seq<int>
    var score: int
    var streak: nat
    var questionsAnswered: nat
    var showLevelUp: bool
    var selectedAnswer: Option<int>
    var isCorrect: Option<bool>

    /**
     * The component's initial state, before the first question is drawn. The
     * effect on `level` then calls `newQuestion`: the caller's next call here
     * is `NewQuestion`.
     */
    constructor ()
      ensures level == 0 && question == None && options == [] && score == 0 && streak == 0
      ensures questionsAnswered == 0 && !showLevelUp && selectedAnswer == None && isCorrect == None
    {
      level := 0;
      question := None;
      options := [];
      score := 0;
      streak := 0;
      questionsAnswered := 0;
      showLevelUp := false;
      selectedAnswer := None;
      isCorrect := None;
    }

    /** `newQuestion`: a question for the current level, its options, and no answer selected. */
    method NewQuestion(uOp: Draw, u1: Draw, u2: Draw, draws: seq<Draw>, shuffleDraws: seq<Draw>)
      modifies this
      requires var q := GenerateQuestion(level, uOp, u1, u2); Fill([q.answer], q.answer, Candidates(q.answer, draws)).Some?
      requires |shuffleDraws| >= OPTION_COUNT - 1
      ensures question == Some(GenerateQuestion(old(level), uOp, u1, u2))
      ensures var a := GenerateQuestion(old(level), uOp, u1, u2).answer;
        && options == Shuffled(Fill([a], a, Candidates(a, draws)).value, shuffleDraws)
        && a in options && |options| == OPTION_COUNT && Distinct(options)
      ensures selectedAnswer == None && isCorrect == None
      ensures level == old(level) && score == old(score) && streak == old(streak)
      ensures questionsAnswered == old(questionsAnswered) && showLevelUp == old(showLevelUp)
    {
      var q := GenerateQuestion(level, uOp, u1, u2);
      question := Some(q);
      options := GenerateOptions(q.answer, draws, shuffleDraws);
      selectedAnswer := None;
      isCorrect := None;
    }

    /**
     * `handleAnswer(selected)`: ignored before a question exists or once an
     * answer is selected. A correct answer earns `AnswerXP` under `math`, extends
     * the streak and counts the answer; a wrong one records a 0-XP `math` attempt
     * and ends the streak.
     */
    method HandleAnswer(selected: int, store: GameStore, today: string) returns (next: Followup)
      modifies this, store
      ensures old(question.None? || selectedAnswer.Some?) ==>
        next == NoFollowup && store.State() == old(store.State())
        && level == old(level) && question == old(question) && options == old(options) && score == old(score)
        && streak == old(streak) && questionsAnswered == old(questionsAnswered)
        && selectedAnswer == old(selectedAnswer) && isCorrect == old(isCorrect) && showLevelUp == old(showLevelUp)
      ensures old(question.Some? && selectedAnswer.None?) ==>
        var correct := selected == old(question.value.answer);
        && selectedAnswer == Some(selected) && isCorrect == Some(correct)
        && level == old(level) && question == old(question) && options == old(options) && showLevelUp == old(showLevelUp)
        && (correct ==>
              && store.State() == AddXPStep(old(store.State()), AnswerXP(old(level), old(streak)), Some("math"), Some(true), today)
              && score == old(score) + AnswerXP(old(level), old(streak))
              && streak == old(streak) + 1
              && questionsAnswered == old(questionsAnswered) + 1
              && next == if LevelUpDue(old(questionsAnswered), old(level)) then LevelUpAfter(500) else NewQuestionAfter(1000))
        && (!correct ==>
              && store.State() == AddXPStep(old(store.State()), 0, Some("math"), Some(false), today)
              && score == old(score) && streak == 0 && questionsAnswered == old(questionsAnswered)
              && next == NewQuestionAfter(1500))
    {
      if question.None? || selectedAnswer.Some? {
        return NoFollowup;
      }
      selectedAnswer := Some(selected);
      var correct := selected == question.value.answer;
      isCorrect := Some(correct);
      if correct {
        next := Solve(store, today);
      } else {
        Miss(store, today);
        next := NewQuestionAfter(1500);
      }
    }

    /**
     * A correct answer: `AnswerXP(level, streak)` under `math` and on the score,
     * the streak extended, the answer counted, and the level-up or the next
     * question scheduled.
     */
    method Solve(store: GameStore, today: string) returns (next: Followup)
      modifies this, store
      ensures store.State() == AddXPStep(old(store.State()), AnswerXP(old(level), old(streak)), Some("math"), Some(true), today)
      ensures score == old(score) + AnswerXP(old(level), old(streak))
      ensures streak == old(streak) + 1 && questionsAnswered == old(questionsAnswered) + 1
      ensures next == if LevelUpDue(old(questionsAnswered), old(level)) then LevelUpAfter(500) else NewQuestionAfter(1000)
      ensures level == old(level) && question == old(question) && options == old(options) && showLevelUp == old(showLevelUp)
      ensures selectedAnswer == old(selectedAnswer) && isCorrect == old(isCorrect)
    {
      var xp := AnswerXP(level, streak);
      store.AddXP(xp, Some("math"), Some(true), today);
      score := score + xp;
      streak := streak + 1;
      if LevelUpDue(questionsAnswered, level) {
        next := LevelUpAfter(500);
      } else {
        next := NewQuestionAfter(1000);
      }
      questionsAnswered := questionsAnswered + 1;
    }

    /** A wrong answer: a 0-XP `math` attempt and the streak reset. */
    method Miss(store: GameStore, today: string)
      modifies this, store
      ensures store.State() == AddXPStep(old(store.State()), 0, Some("math"), Some(false), today)
      ensures streak == 0
      ensures score == old(score) && questionsAnswered == old(questionsAnswered)
      ensures level == old(level) && question == old(question) && options == old(options) && showLevelUp == old(showLevelUp)
      ensures selectedAnswer == old(selectedAnswer) && isCorrect == old(isCorrect)
    {
      store.AddXP(0, Some("math"), Some(false), today);
      streak := 0;
    }

    /** The level-up timeout: show the level-up screen and unlock the next level's entry. */
    method LevelUpTimeout(store: GameStore)
      modifies this, store
      ensures showLevelUp
      ensures store.State() == UnlockStep(old(store.State()), "math-challenge", old(level) + 2)
      ensures level == old(level) && question == old(question) && options == old(options) && score == old(score)
      ensures streak == old(streak) && questionsAnswered == old(questionsAnswered)
      ensures selectedAnswer == old(selectedAnswer) && isCorrect == old(isCorrect)
    {
      showLevelUp := true;
      store.UnlockLevel("math-challenge", level + 2);
    }

    /**
     * `handleLevelUp`: move to the next level and hide the level-up screen.
     * The change of level fires the effect that draws a new question, which
     * is the caller's follow-up call to `NewQuestion`.
     */
    method HandleLevelUp()
      modifies this
      ensures level == old(level) + 1 && !showLevelUp
      ensures question == old(question) && options == old(options) && score == old(score)
      ensures streak == old(streak) && questionsAnswered == old(questionsAnswered)
      ensures selectedAnswer == old(selectedAnswer) && isCorrect == old(isCorrect)
    {
      level := level + 1;
      showLevelUp := false;
    }
  }
}
