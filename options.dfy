/**
 * The answer-option loop shared by the arithmetic and logic games: a `Set`
 * seeded with the answer, to which candidate values are added until it holds
 * four. A candidate is added when it differs from the answer, is not negative
 * and is not already present (adding a present value leaves a `Set` as it was).
 * The set is listed in insertion order, answer first.
 *
 * Each candidate comes from one draw, so the loop is described over the
 * sequence of candidates the draws produce. A finite sequence may run out
 * before the set is full; `Fill` then answers `None`, meaning the loop has not
 * finished within those draws.
 */
module Options {
  import opened Wrappers
  import opened Seqs

  /** Every question offers this many options. */
  const OPTION_COUNT: nat := 4

  /** Whether the loop adds candidate `c` to the options gathered so far. */
  predicate Admissible(acc: seq<int>, answer: int, c: int) {
    c != answer && c >= 0 && c !in acc
  }

  /** The options once the loop has stopped, or `None` if the candidates run out first. */
  function Fill(acc: seq<int>, answer: int, cands: seq<int>): (r: Option<seq<int>>)
    ensures r.Some? && |acc| <= OPTION_COUNT ==> |r.value| == OPTION_COUNT
    decreases |cands|
  {
    if |acc| >= OPTION_COUNT then Some(acc)
    else if cands == [] then None
    else Fill(if Admissible(acc, answer, cands[0]) then acc + [cands[0]] else acc, answer, cands[1..])
  }

  /**
   * A finished loop yields exactly four distinct options that extend the
   * starting ones; every added option is one of the candidates, differs from
   * the answer and is not negative.
   */
  lemma {:induction false} FillFacts(acc: seq<int>, answer: int, cands: seq<int>)
    requires Fill(acc, answer, cands).Some?
    requires Distinct(acc) && |acc| <= OPTION_COUNT
    ensures var r := Fill(acc, answer, cands).value;
      && |r| == OPTION_COUNT
      && acc <= r
      && Distinct(r)
      && forall k :: |acc| <= k < |r| ==> r[k] in cands && r[k] != answer && r[k] >= 0
    decreases |cands|
  {
    if |acc| < OPTION_COUNT {
      var c := cands[0];
      var next := if Admissible(acc, answer, c) then acc + [c] else acc;
      FillFacts(next, answer, cands[1..]);
      var r := Fill(acc, answer, cands).value;
      assert r == Fill(next, answer, cands[1..]).value;
      forall k | |acc| <= k < |r|
        ensures r[k] in cands && r[k] != answer && r[k] >= 0
      {
        if k == |acc| && Admissible(acc, answer, c) {
          assert r[k] == next[k] == c;
        } else {
          assert r[k] in cands[1..];
        }
      }
    }
  }

  /** The options seeded with the answer contain the answer and three other values. */
  lemma FillFromAnswer(answer: int, cands: seq<int>)
    requires Fill([answer], answer, cands).Some?
    ensures var r := Fill([answer], answer, cands).value;
      && |r| == OPTION_COUNT && r[0] == answer && Distinct(r)
      && forall k :: 1 <= k < |r| ==> r[k] in cands && r[k] != answer && r[k] >= 0
  {
    FillFacts([answer], answer, cands);
  }

  /** Draws beyond the point where the loop stopped are never looked at. */
  lemma {:induction false} FillIgnoresExtra(acc: seq<int>, answer: int, cands: seq<int>, more: seq<int>)
    requires Fill(acc, answer, cands).Some?
    ensures Fill(acc, answer, cands + more) == Fill(acc, answer, cands)
    decreases |cands|
  {
    if |acc| < OPTION_COUNT {
      assert (cands + more)[1..] == cands[1..] + more;
      var next := if Admissible(acc, answer, cands[0]) then acc + [cands[0]] else acc;
      FillIgnoresExtra(next, answer, cands[1..], more);
    }
  }

  /**
   * Three candidates climbing from a non-negative answer in equal positive
   * steps fill the options, each in turn: the loop always has a way to finish.
   */
  lemma StepsFill(answer: int, step: int)
    requires answer >= 0 && step >= 1
    ensures Fill([answer], answer, [answer + step, answer + 2 * step, answer + 3 * step])
      == Some([answer, answer + step, answer + 2 * step, answer + 3 * step])
  {
    var a, s := answer, step;
    var cands := [a + s, a + 2 * s, a + 3 * s];
    assert Admissible([a], a, cands[0]) && [a] + [cands[0]] == [a, a + s];
    assert Fill([a], a, cands) == Fill([a, a + s], a, cands[1..]);
    assert Admissible([a, a + s], a, cands[1]) && [a, a + s] + [cands[1]] == [a, a + s, a + 2 * s];
    assert Fill([a, a + s], a, cands[1..]) == Fill([a, a + s, a + 2 * s], a, cands[2..]);
    assert Admissible([a, a + s, a + 2 * s], a, cands[2]);
    assert [a, a + s, a + 2 * s] + [cands[2]] == [a, a + s, a + 2 * s, a + 3 * s];
    assert Fill([a, a + s, a + 2 * s], a, cands[2..]) == Fill([a, a + s, a + 2 * s, a + 3 * s], a, cands[3..]);
  }

  /**
   * The `while (options.size < 4)` loop over the candidates the draws
   * produce, one candidate per iteration.
   */
  method FillOptions(answer: int, cands: seq<int>) returns (options: seq<int>)
    requires Fill([answer], answer, cands).Some?
    ensures options == Fill([answer], answer, cands).value
  {
    options := [answer];
    var n := 0;
    while |options| < OPTION_COUNT
      invariant n <= |cands|
      invariant answer in options
      invariant Fill(options, answer, cands[n..]) == Fill([answer], answer, cands)
      decreases |cands| - n
    {
      var option := cands[n];
      if option != answer && option >= 0 && option !in options {
        options := options + [option];
      }
      assert cands[n..][1..] == cands[n + 1..];
      n := n + 1;
    }
  }
}
