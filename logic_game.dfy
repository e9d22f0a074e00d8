/**
 * The logic game: a comparison mode (the "alligator" eats the larger number)
 * and a number-sequence mode (continue an arithmetic progression), each
 * question answered once.
 */
module LogicGame {
  import opened Wrappers
  import opened Seqs
  import opened Random
  import opened Options
  import opened Progression

  datatype Mode = Alligator | Sequence

  datatype Comparison = Less | Greater | Equal

  datatype AlligatorQuestion = AlligatorQuestion(num1: int, num2: int, answer: Comparison)

  /** `generateAlligatorQuestion()`: two numbers in [1, 20] and the sign between them. */
  function GenerateAlligatorQuestion(u1: Draw, u2: Draw): (q: AlligatorQuestion)
    ensures 1 <= q.num1 <= 20 && 1 <= q.num2 <= 20
    ensures q.answer == Less <==> q.num1 < q.num2
    ensures q.answer == Greater <==> q.num1 > q.num2
    ensures q.answer == Equal <==> q.num1 == q.num2
  {
    var num1 := RandomInt(1, 20, u1);
    var num2 := RandomInt(1, 20, u2);
    var answer := if num1 < num2 then Less else if num1 > num2 then Greater else Equal;
    AlligatorQuestion(num1, num2, answer)
  }

  /** An arithmetic progression: its first term and its step. */
  datatype Pattern = Pattern(start: int, step: int)

  /** For each pattern, in order: the range its start is drawn from, and its step. */
  datatype PatternRange = PatternRange(minStart: int, maxStart: int, step: int)

  const PATTERN_RANGES: seq<PatternRange> := [
    PatternRange(1, 5, 1),
    PatternRange(0, 5, 2),
    PatternRange(0, 3, 3),
    PatternRange(1, 5, 5),
    PatternRange(0, 3, 10)
  ]

  /** The number of terms shown; the answer is the next term. */
  const TERMS: nat := 4

  /**
   * The pattern `generateSequenceQuestion` picks: every pattern's start is drawn
   * first, one draw each from `startDraws`, then `uPattern` picks one pattern.
   */
  function ChosenPattern(startDraws: seq<Draw>, uPattern: Draw): (p: Pattern)
    requires |startDraws| == |PATTERN_RANGES|
    ensures exists i :: (0 <= i < |PATTERN_RANGES| && p.step == PATTERN_RANGES[i].step
                         && PATTERN_RANGES[i].minStart <= p.start <= PATTERN_RANGES[i].maxStart)
    ensures p.step >= 1 && p.start >= 0
  {
    var i := RandomInt(0, |PATTERN_RANGES| - 1, uPattern);
    var range := PATTERN_RANGES[i];
    Pattern(RandomInt(range.minStart, range.maxStart, startDraws[i]), range.step)
  }

  /** The term after the shown ones. */
  function NextTerm(p: Pattern): int {
    p.start + p.step * TERMS
  }

  /** The wrong value one loop iteration proposes: the answer plus `offset * step`, offset in [-3, 3]. */
  function Candidate(answer: int, step: int, u: Draw): (c: int)
    ensures exists k :: -3 <= k <= 3 && c == answer + k * step
  {
    var k := RandomInt(-3, 3, u);
    answer + k * step
  }

  function Candidates(answer: int, step: int, draws: seq<Draw>): seq<int> {
    MapSeq(u => Candidate(answer, step, u), draws)
  }

  /**
   * The wrong-value loop always has six admissible values to find: every
   * non-zero offset gives a value different from the answer and, because the
   * answer is at least four steps, not negative.
   */
  lemma AdmissibleOffsets(p: Pattern, k: int)
    requires p.step >= 1 && p.start >= 0
    requires -3 <= k <= 3 && k != 0
    ensures NextTerm(p) + k * p.step >= 0 && NextTerm(p) + k * p.step != NextTerm(p)
  {
  }

  /** The loop is finished after three draws giving the offsets 1, 2 and 3. */
  lemma SequenceOptionsFinish(p: Pattern)
    requires p.step >= 1 && p.start >= 0
    ensures var a := NextTerm(p);
      Fill([a], a, Candidates(a, p.step, [DrawFor(-3, 3, 1), DrawFor(-3, 3, 2), DrawFor(-3, 3, 3)])).Some?
  {
    var a := NextTerm(p);
    RandomIntReaches(-3, 3, 1);
    RandomIntReaches(-3, 3, 2);
    RandomIntReaches(-3, 3, 3);
    assert a == p.start + 4 * p.step;
    assert Candidates(a, p.step, [DrawFor(-3, 3, 1), DrawFor(-3, 3, 2), DrawFor(-3, 3, 3)])
      == [a + p.step, a + 2 * p.step, a + 3 * p.step];
    StepsFill(a, p.step);
  }

  /**
   * The options of a sequence question: the wrong-value loop over `draws`,
   * then the answer and the wrong values shuffled with `shuffleDraws`.
   */
  method SequenceOptions(answer: int, step: int, draws: seq<Draw>, shuffleDraws: seq<Draw>) returns (options: seq<int>)
    requires Fill([answer], answer, Candidates(answer, step, draws)).Some?
    requires |shuffleDraws| >= OPTION_COUNT - 1
    ensures options == Shuffled(Fill([answer], answer, Candidates(answer, step, draws)).value, shuffleDraws)
    ensures |options| == OPTION_COUNT && answer in options && Distinct(options)
    ensures forall o :: o in options && o != answer ==>
      o >= 0 && exists k :: -3 <= k <= 3 && k != 0 && o == answer + k * step
  {
    var cands := Candidates(answer, step, draws);
    var gathered := FillOptions(answer, cands);
    FillFromAnswer(answer, cands);
    options := ShuffleArray(gathered, shuffleDraws);
    ShuffledDistinct(gathered, shuffleDraws);
    assert answer in multiset(options) by {
      assert gathered[0] == answer;
    }
    forall o | o in options && o != answer
      ensures o >= 0 && exists k :: -3 <= k <= 3 && k != 0 && o == answer + k * step
    {
      assert o in multiset(gathered);
      var m :| 0 <= m < |gathered| && gathered[m] == o;
      var j :| 0 <= j < |cands| && cands[j] == o;
      assert cands[j] == Candidate(answer, step, draws[j]);
      var k :| -3 <= k <= 3 && o == answer + k * step;
      assert k != 0;
    }
  }

  datatype SequenceQuestion = SequenceQuestion(sequence: seq<int>, answer: int, options: seq<int>)

  /**
   * `generateSequenceQuestion()`: the pattern's first four terms, the fifth as
   * the answer, three wrong values from the option loop over `draws`, and the
   * answer and wrong values shuffled with `shuffleDraws`.
   */
  method GenerateSequenceQuestion(startDraws: seq<Draw>, uPattern: Draw, draws: seq<Draw>, shuffleDraws: seq<Draw>)
    returns (q: SequenceQuestion)
    requires |startDraws| == |PATTERN_RANGES|
    requires var p := ChosenPattern(startDraws, uPattern);
      Fill([NextTerm(p)], NextTerm(p), Candidates(NextTerm(p), p.step, draws)).Some?
    requires |shuffleDraws| >= OPTION_COUNT - 1
    ensures var p := ChosenPattern(startDraws, uPattern);
      && |q.sequence| == TERMS
      && (forall i :: 0 <= i < TERMS ==> q.sequence[i] == p.start + p.step * i)
      && q.answer == NextTerm(p) == q.sequence[TERMS - 1] + p.step
      && q.options == Shuffled(Fill([q.answer], q.answer, Candidates(q.answer, p.step, draws)).value, shuffleDraws)
      && |q.options| == OPTION_COUNT && q.answer in q.options && Distinct(q.options)
      && forall o :: o in q.options && o != q.answer ==>
           o >= 0 && exists k :: -3 <= k <= 3 && k != 0 && o == q.answer + k * p.step
  {
    var p := ChosenPattern(startDraws, uPattern);
    var sequence := [];
    for i := 0 to TERMS
      invariant |sequence| == i
      invariant forall j :: 0 <= j < i ==> sequence[j] == p.start + p.step * j
    {
      sequence := sequence + [p.start + p.step * i];
    }
    var answer := p.start + p.step * TERMS;
    var options := SequenceOptions(answer, p.step, draws, shuffleDraws);
    q := SequenceQuestion(sequence, answer, options);
  }

  /** An answer in either mode. */
  datatype Choice = Compared(sign: Comparison) | Number(n: int)

  /** What an answer schedules. */
  datatype Followup = NoFollowup | NewAlligatorAfter(delay: nat) | NewSequenceAfter(delay: nat)

  class Game {
    var mode: Option<Mode>
    var alligatorQ: Option<AlligatorQuestion>
    var sequenceQ: Option<SequenceQuestion>
    var score: int
    var selectedAnswer: Option<Choice>
    var isCorrect: Option<bool>

    /** The component's initial state: no mode chosen, no question. */
    constructor ()
      ensures mode == None && alligatorQ == None && sequenceQ == None && score == 0
      ensures selectedAnswer == None && isCorrect == None
    {
      mode := None;
      alligatorQ := None;
      sequenceQ := None;
      score := 0;
      selectedAnswer := None;
      isCorrect := None;
    }

    /**
     * Choosing a mode, or going back to the menu with `None`. The effect on
     * `mode` then draws a question of the chosen kind: the caller follows up
     * with `NewAlligatorQuestion` or `NewSequenceQuestion`.
     */
    method SetMode(m: Option<Mode>)
      modifies this
      ensures mode == m
      ensures alligatorQ == old(alligatorQ) && sequenceQ == old(sequenceQ) && score == old(score)
      ensures selectedAnswer == old(selectedAnswer) && isCorrect == old(isCorrect)
    {
      mode := m;
    }

    /** `newAlligatorQuestion`. */
    method NewAlligatorQuestion(u1: Draw, u2: Draw)
      modifies this
      ensures alligatorQ == Some(GenerateAlligatorQuestion(u1, u2))
      ensures selectedAnswer == None && isCorrect == None
      ensures mode == old(mode) && sequenceQ == old(sequenceQ) && score == old(score)
    {
      alligatorQ := Some(GenerateAlligatorQuestion(u1, u2));
      selectedAnswer := None;
      isCorrect := None;
    }

    /** `newSequenceQuestion`. */
    method NewSequenceQuestion(startDraws: seq<Draw>, uPattern: Draw, draws: seq<Draw>, shuffleDraws: seq<Draw>)
      modifies this
      requires |startDraws| == |PATTERN_RANGES|
      requires var p := ChosenPattern(startDraws, uPattern);
        Fill([NextTerm(p)], NextTerm(p), Candidates(NextTerm(p), p.step, draws)).Some?
      requires |shuffleDraws| >= OPTION_COUNT - 1
      ensures sequenceQ.Some?
      ensures var p, q := ChosenPattern(startDraws, uPattern), sequenceQ.value;
        && |q.sequence| == TERMS
        && (forall i :: 0 <= i < TERMS ==> q.sequence[i] == p.start + p.step * i)
        && q.answer == NextTerm(p) == q.sequence[TERMS - 1] + p.step
        && q.options == Shuffled(Fill([q.answer], q.answer, Candidates(q.answer, p.step, draws)).value, shuffleDraws)
        && |q.options| == OPTION_COUNT && q.answer in q.options && Distinct(q.options)
        && forall o :: o in q.options && o != q.answer ==>
             o >= 0 && exists k :: -3 <= k <= 3 && k != 0 && o == q.answer + k * p.step
      ensures selectedAnswer == None && isCorrect == None
      ensures mode == old(mode) && alligatorQ == old(alligatorQ) && score == old(score)
    {
      var q := GenerateSequenceQuestion(startDraws, uPattern, draws, shuffleDraws);
      sequenceQ := Some(q);
      selectedAnswer := None;
      isCorrect := None;
    }

    /**
     * `handleAlligatorAnswer(answer)`: ignored without a question or once an
     * answer is selected; otherwise 15 `logic` XP when right, a 0-XP `logic`
     * attempt when wrong.
     */
    method HandleAlligatorAnswer(answer: Comparison, store: GameStore, today: string) returns (next: Followup)
      modifies this, store
      ensures mode == old(mode) && alligatorQ == old(alligatorQ) && sequenceQ == old(sequenceQ)
      ensures old(alligatorQ.None? || selectedAnswer.Some?) ==>
        next == NoFollowup && store.State() == old(store.State())
        && score == old(score) && selectedAnswer == old(selectedAnswer) && isCorrect == old(isCorrect)
      ensures old(alligatorQ.Some? && selectedAnswer.None?) ==>
        var correct := answer == old(alligatorQ.value.answer);
        && selectedAnswer == Some(Compared(answer)) && isCorrect == Some(correct)
        && (correct ==>
              store.State() == AddXPStep(old(store.State()), 15, Some("logic"), Some(true), today)
              && score == old(score) + 15 && next == NewAlligatorAfter(1000))
        && (!correct ==>
              store.State() == AddXPStep(old(store.State()), 0, Some("logic"), Some(false), today)
              && score == old(score) && next == NewAlligatorAfter(1500))
    {
      if alligatorQ.None? || selectedAnswer.Some? {
        return NoFollowup;
      }
      selectedAnswer := Some(Compared(answer));
      var correct := answer == alligatorQ.value.answer;
      isCorrect := Some(correct);
      if correct {
        store.AddXP(15, Some("logic"), Some(true), today);
        score := score + 15;
        next := NewAlligatorAfter(1000);
      } else {
        store.AddXP(0, Some("logic"), Some(false), today);
        next := NewAlligatorAfter(1500);
      }
    }

    /**
     * `handleSequenceAnswer(answer)`: ignored without a question or once an
     * answer is selected; otherwise 20 `logic` XP when right, a 0-XP `logic`
     * attempt when wrong.
     */
    method HandleSequenceAnswer(answer: int, store: GameStore, today: string) returns (next: Followup)
      modifies this, store
      ensures mode == old(mode) && alligatorQ == old(alligatorQ) && sequenceQ == old(sequenceQ)
      ensures old(sequenceQ.None? || selectedAnswer.Some?) ==>
        next == NoFollowup && store.State() == old(store.State())
        && score == old(score) && selectedAnswer == old(selectedAnswer) && isCorrect == old(isCorrect)
      ensures old(sequenceQ.Some? && selectedAnswer.None?) ==>
        var correct := answer == old(sequenceQ.value.answer);
        && selectedAnswer == Some(Number(answer)) && isCorrect == Some(correct)
        && (correct ==>
              store.State() == AddXPStep(old(store.State()), 20, Some("logic"), Some(true), today)
              && score == old(score) + 20 && next == NewSequenceAfter(1000))
        && (!correct ==>
              store.State() == AddXPStep(old(store.State()), 0, Some("logic"), Some(false), today)
              && score == old(score) && next == NewSequenceAfter(1500))
    {
      if sequenceQ.None? || selectedAnswer.Some? {
        return NoFollowup;
      }
      selectedAnswer := Some(Number(answer));
      var correct := answer == sequenceQ.value.answer;
      isCorrect := Some(correct);
      if correct {
        store.AddXP(20, Some("logic"), Some(true), today);
        score := score + 20;
        next := NewSequenceAfter(1000);
      } else {
        store.AddXP(0, Some("logic"), Some(false), today);
        next := NewSequenceAfter(1500);
      }
    }
  }
}
