/**
 * The picture question shared by the two word games: the right emoji and
 * three wrong ones taken from the other emojis of the word list, where both
 * the wrong pool and the final four are shuffled with `shuffleArray`.
 */
module Quiz {
  import opened Seqs
  import opened Random

  /** A question shows the right emoji and this many wrong ones. */
  const WRONG_COUNT: nat := 3

  /** An emoji list a question can be drawn from: no picture twice, more pictures than wrong options. */
  predicate Pool(emojis: seq<string>) {
    |emojis| > WRONG_COUNT && Distinct(emojis)
  }

  /**
   * The options for emoji `e` of the list: `e` and the first three of the
   * other emojis shuffled with `otherDraws`, the four shuffled with `optionDraws`.
   */
  function Options(emojis: seq<string>, e: string, otherDraws: seq<Draw>, optionDraws: seq<Draw>): seq<string>
    requires e in emojis && Pool(emojis)
    requires |otherDraws| >= |emojis| - 2 && |optionDraws| >= WRONG_COUNT
  {
    var others := Without(emojis, e);
    WithoutLength(emojis, e);
    ShuffledPermutation(others, otherDraws);
    Shuffled([e] + Shuffled(others, otherDraws)[..WRONG_COUNT], optionDraws)
  }

  /**
   * The options hold four distinct emojis of the list, among them `e`; so
   * exactly three of them are wrong answers.
   */
  lemma OptionsFacts(emojis: seq<string>, e: string, otherDraws: seq<Draw>, optionDraws: seq<Draw>)
    requires e in emojis && Pool(emojis)
    requires |otherDraws| >= |emojis| - 2 && |optionDraws| >= WRONG_COUNT
    ensures var options := Options(emojis, e, otherDraws, optionDraws);
      && |options| == WRONG_COUNT + 1 && Distinct(options) && e in options
      && forall o :: o in options ==> o in emojis
  {
    var others := Without(emojis, e);
    WithoutLength(emojis, e);
    WithoutDistinct(emojis, e);
    ShuffledPermutation(others, otherDraws);
    ShuffledDistinct(others, otherDraws);
    var shuffled := Shuffled(others, otherDraws);
    var wrong := shuffled[..WRONG_COUNT];
    PrefixDistinct(shuffled, WRONG_COUNT);
    forall x | x in wrong ensures x != e && x in emojis {
      assert x in multiset(others);
      var k :| 0 <= k < |others| && others[k] == x;
    }
    DistinctAppend([e], wrong);
    var all := [e] + wrong;
    ShuffledPermutation(all, optionDraws);
    ShuffledDistinct(all, optionDraws);
    forall o | o in Options(emojis, e, otherDraws, optionDraws) ensures o in emojis {
      assert o in multiset(all);
    }
    assert e in multiset(all);
  }

  /**
   * The option building of `newWord`, given the other emojis as the game
   * filters them out of its word list.
   */
  method BuildOptions(emojis: seq<string>, e: string, others: seq<string>, otherDraws: seq<Draw>, optionDraws: seq<Draw>)
    returns (options: seq<string>)
    requires e in emojis && Pool(emojis) && others == Without(emojis, e)
    requires |otherDraws| >= |emojis| - 2 && |optionDraws| >= WRONG_COUNT
    ensures options == Options(emojis, e, otherDraws, optionDraws)
    ensures |options| == WRONG_COUNT + 1 && Distinct(options) && e in options
    ensures forall o :: o in options ==> o in emojis
  {
    WithoutLength(emojis, e);
    var shuffledOthers := ShuffleArray(others, otherDraws);
    var wrongOptions := shuffledOthers[..WRONG_COUNT];
    options := ShuffleArray([e] + wrongOptions, optionDraws);
    OptionsFacts(emojis, e, otherDraws, optionDraws);
  }
}
