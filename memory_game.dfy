/**
 * The memory game: a deck of six pairs (emoji with emoji, emoji with its
 * Hebrew word, or a sum with its result), laid out shuffled and face down;
 * the player turns two cards at a time, and equal pairs stay face up.
 */
module MemoryGame {
  import opened Wrappers
  import opened Seqs
  import opened Random
  import opened Progression
  import opened Numbers

  datatype Mode = Emoji | Word | Math

  /** A pair of card faces: what the front card and the back card show. */
  datatype Pair = Pair(front: string, back: string)

  /** Every deck is made of this many pairs. */
  const PAIR_COUNT: nat := 6

  const EMOJI_PAIRS: seq<Pair> := [
    Pair("🦁", "🦁"), Pair("🐘", "🐘"), Pair("🦊", "🦊"), Pair("🐼", "🐼"),
    Pair("🦄", "🦄"), Pair("🐸", "🐸")
  ]

  const WORD_PAIRS: seq<Pair> := [
    Pair("🦁", "אריה"), Pair("🐘", "פיל"), Pair("🦊", "שועל"),
    Pair("🐼", "פנדה"), Pair("🦄", "חד קרן"), Pair("🐸", "צפרדע")
  ]

  const MATH_PAIRS: seq<Pair> := [
    Pair("1+1", "2"), Pair("2+2", "4"), Pair("3+2", "5"),
    Pair("4+1", "5"), Pair("2+3", "5"), Pair("1+4", "5")
  ]

  // ---------------------------------------------------------------------------
  // The pairs of each mode
  // ---------------------------------------------------------------------------

  /** The results (back faces) of the pairs, in order. */
  function Backs(pairs: seq<Pair>): (r: seq<string>)
    ensures |r| == |pairs| && forall k :: 0 <= k < |pairs| ==> r[k] == pairs[k].back
  {
    seq(|pairs|, k requires 0 <= k < |pairs| => pairs[k].back)
  }

  lemma BacksAppend(pairs: seq<Pair>, p: Pair)
    ensures Backs(pairs + [p]) == Backs(pairs) + [p.back]
  {
  }

  /**
   * The `for ... of MATH_PAIRS` loop: each pair whose result is not yet used is
   * kept, and the loop stops as soon as six pairs are kept.
   */
  function Dedupe(source: seq<Pair>, acc: seq<Pair>): (r: seq<Pair>)
    ensures |acc| < PAIR_COUNT ==> |r| <= PAIR_COUNT
    decreases |source|
  {
    if source == [] then acc
    else
      var next := if source[0].back !in Backs(acc) then acc + [source[0]] else acc;
      if |next| >= PAIR_COUNT then next else Dedupe(source[1..], next)
  }

  /**
   * The pairs the loop keeps: the ones kept before, then pairs of `source` in
   * their order, never two with the same result and never more than six; and
   * unless the loop stopped at six, every result of `source` is among them.
   */
  lemma DedupeFacts(source: seq<Pair>, acc: seq<Pair>)
    requires Distinct(Backs(acc)) && |acc| < PAIR_COUNT
    ensures var r := Dedupe(source, acc);
      && |acc| <= |r| <= PAIR_COUNT && r[..|acc|] == acc
      && Subsequence(r[|acc|..], source)
      && Distinct(Backs(r))
      && (|r| < PAIR_COUNT ==> forall p :: p in source ==> p.back in Backs(r))
  {
    DedupeExtends(source, acc);
    DedupeDistinct(source, acc);
    DedupeCovers(source, acc);
  }

  /** The loop only appends, and what it appends are pairs of `source` in their order. */
  lemma {:induction false} DedupeExtends(source: seq<Pair>, acc: seq<Pair>)
    requires |acc| < PAIR_COUNT
    ensures var r := Dedupe(source, acc);
      |acc| <= |r| && r[..|acc|] == acc && Subsequence(r[|acc|..], source)
    decreases |source|
  {
    if source != [] {
      var next := if source[0].back !in Backs(acc) then acc + [source[0]] else acc;
      BacksAppend(acc, source[0]);
      if |next| >= PAIR_COUNT {
        assert Dedupe(source, acc) == next == acc + [source[0]];
        assert next[|acc|..] == [source[0]];
        assert Subsequence([source[0]][1..], source[1..]);
      } else {
        assert Dedupe(source, acc) == Dedupe(source[1..], next);
        DedupeExtends(source[1..], next);
        var r := Dedupe(source[1..], next);
        assert r[..|acc|] == r[..|next|][..|acc|];
        if next != acc {
          assert r[|acc|..][0] == source[0] && r[|acc|..][1..] == r[|next|..];
        }
      }
    }
  }

  /** No two kept pairs share a result. */
  lemma {:induction false} DedupeDistinct(source: seq<Pair>, acc: seq<Pair>)
    requires Distinct(Backs(acc))
    ensures Distinct(Backs(Dedupe(source, acc)))
    decreases |source|
  {
    if source != [] {
      var next := if source[0].back !in Backs(acc) then acc + [source[0]] else acc;
      BacksAppend(acc, source[0]);
      if next != acc {
        BacksAppend(acc, source[0]);
        DistinctAppend(Backs(acc), [source[0].back]);
      }
      if |next| < PAIR_COUNT {
        DedupeDistinct(source[1..], next);
      }
    }
  }

  /** Unless the loop stopped at six, every result of `source` is kept. */
  lemma {:induction false} DedupeCovers(source: seq<Pair>, acc: seq<Pair>)
    requires |acc| < PAIR_COUNT
    ensures var r := Dedupe(source, acc);
      |r| < PAIR_COUNT ==> forall p :: p in source ==> p.back in Backs(r)
    decreases |source|
  {
    if source != [] {
      var next := if source[0].back !in Backs(acc) then acc + [source[0]] else acc;
      BacksAppend(acc, source[0]);
      if |next| < PAIR_COUNT {
        assert Dedupe(source, acc) == Dedupe(source[1..], next);
        DedupeCovers(source[1..], next);
        DedupeExtends(source[1..], next);
        var r := Dedupe(source[1..], next);
        forall p | p in source
          ensures |r| < PAIR_COUNT ==> p.back in Backs(r)
        {
          if p != source[0] {
            assert p in source[1..];
          } else {
            var k :| 0 <= k < |next| && Backs(next)[k] == p.back;
            assert r[k] == r[..|next|][k] == next[k];
          }
        }
      }
    }
  }

  lemma DedupeSkip(source: seq<Pair>, acc: seq<Pair>)
    requires source != [] && source[0].back in Backs(acc) && |acc| < PAIR_COUNT
    ensures Dedupe(source, acc) == Dedupe(source[1..], acc)
  {
  }

  lemma DedupeKeep(source: seq<Pair>, acc: seq<Pair>)
    requires source != [] && source[0].back !in Backs(acc) && |acc| + 1 < PAIR_COUNT
    ensures Dedupe(source, acc) == Dedupe(source[1..], acc + [source[0]])
  {
  }

  /** Six pairs with three different results, the last three repeating the third, keep the first three. */
  lemma DedupeThreeResults(p: seq<Pair>)
    requires |p| == 6
    requires p[0].back != p[1].back && p[0].back != p[2].back && p[1].back != p[2].back
    requires p[3].back == p[2].back && p[4].back == p[2].back && p[5].back == p[2].back
    ensures Dedupe(p, []) == p[..3]
  {
    var a1, a2, a3 := [p[0]], [p[0], p[1]], [p[0], p[1], p[2]];
    assert Dedupe(p, []) == Dedupe(p[1..], a1) by {
      DedupeKeep(p, []);
      assert [] + [p[0]] == a1;
    }
    assert Dedupe(p[1..], a1) == Dedupe(p[2..], a2) by {
      DedupeKeep(p[1..], a1);
      assert p[1..][1..] == p[2..] && a1 + [p[1]] == a2;
    }
    assert Dedupe(p[2..], a2) == Dedupe(p[3..], a3) by {
      DedupeKeep(p[2..], a2);
      assert p[2..][1..] == p[3..] && a2 + [p[2]] == a3;
    }
    assert p[2].back == Backs(a3)[2];
    assert Dedupe(p[3..], a3) == Dedupe(p[4..], a3) by {
      DedupeSkip(p[3..], a3);
      assert p[3..][1..] == p[4..];
    }
    assert Dedupe(p[4..], a3) == Dedupe(p[5..], a3) by {
      DedupeSkip(p[4..], a3);
      assert p[4..][1..] == p[5..];
    }
    assert Dedupe(p[5..], a3) == a3 by {
      DedupeSkip(p[5..], a3);
      assert p[5..][1..] == [];
    }
    assert a3 == p[..3];
  }

  /** Of the fixed sums only the first three have different results. */
  lemma DedupeMathPairs()
    ensures Dedupe(MATH_PAIRS, []) == MATH_PAIRS[..3]
  {
    DedupeThreeResults(MATH_PAIRS);
  }

  /** The pair made from two random summands: `${a}+${b}` and `String(a + b)`. */
  function SumPair(a: nat, b: nat): Pair {
    Pair(NatString(a) + "+" + NatString(b), NatString(a + b))
  }

  /**
   * The `while (uniqueMath.length < 6)` loop: each iteration draws two summands
   * in [1, 5] and keeps the pair when its result is not yet used. `None` when
   * the draws run out first.
   */
  function TopUp(acc: seq<Pair>, draws: seq<(Draw, Draw)>): (r: Option<seq<Pair>>)
    ensures r.Some? && |acc| <= PAIR_COUNT ==> |r.value| == PAIR_COUNT
    decreases |draws|
  {
    if |acc| >= PAIR_COUNT then Some(acc)
    else if draws == [] then None
    else
      var pair := SumPair(RandomInt(1, 5, draws[0].0), RandomInt(1, 5, draws[0].1));
      TopUp(if pair.back !in Backs(acc) then acc + [pair] else acc, draws[1..])
  }

  /**
   * A finished loop has six pairs with pairwise different results, extending
   * the pairs it started from; each added pair is a sum of two summands in [1, 5].
   */
  lemma {:induction false} TopUpFacts(acc: seq<Pair>, draws: seq<(Draw, Draw)>)
    requires TopUp(acc, draws).Some?
    requires Distinct(Backs(acc)) && |acc| <= PAIR_COUNT
    ensures var r := TopUp(acc, draws).value;
      && |r| == PAIR_COUNT && acc <= r && Distinct(Backs(r))
      && forall k :: |acc| <= k < |r| ==> exists a, b :: 1 <= a <= 5 && 1 <= b <= 5 && r[k] == SumPair(a, b)
    decreases |draws|
  {
    if |acc| < PAIR_COUNT {
      var a, b := RandomInt(1, 5, draws[0].0), RandomInt(1, 5, draws[0].1);
      var pair := SumPair(a, b);
      if pair.back !in Backs(acc) {
        BacksAppend(acc, pair);
        TopUpFacts(acc + [pair], draws[1..]);
        var r := TopUp(acc, draws).value;
        assert r[|acc|] == pair;
      } else {
        TopUpFacts(acc, draws[1..]);
      }
    }
  }

  /** The pairs `generateCards` lays out, or `None` when the math loop has not finished within `mathDraws`. */
  function PairsFor(mode: Mode, mathDraws: seq<(Draw, Draw)>): (r: Option<seq<Pair>>)
    ensures r.Some? ==> |r.value| == PAIR_COUNT
  {
    match mode
    case Emoji => Some(EMOJI_PAIRS[..PAIR_COUNT])
    case Word => Some(WORD_PAIRS[..PAIR_COUNT])
    case Math => TopUp(Dedupe(MATH_PAIRS, []), mathDraws)
  }

  /**
   * Every mode lays out six pairs. In math mode the first three are the fixed
   * sums 1+1, 2+2 and 3+2, the others are random sums, and no two results are equal.
   */
  lemma PairsForFacts(mode: Mode, mathDraws: seq<(Draw, Draw)>)
    requires PairsFor(mode, mathDraws).Some?
    ensures var pairs := PairsFor(mode, mathDraws).value;
      && |pairs| == PAIR_COUNT
      && (mode == Math ==>
            && Distinct(Backs(pairs))
            && pairs[..3] == MATH_PAIRS[..3]
            && forall k :: 3 <= k < |pairs| ==> exists a, b :: 1 <= a <= 5 && 1 <= b <= 5 && pairs[k] == SumPair(a, b))
  {
    if mode == Math {
      FixedBacks();
      TopUpFacts(MATH_PAIRS[..3], mathDraws);
    }
  }

  /** One iteration of the math loop that keeps the drawn sum `c`, a result not used yet. */
  lemma TopUpStep(acc: seq<Pair>, draws: seq<(Draw, Draw)>, a: nat, b: nat, backs: seq<string>, c: string)
    requires |acc| < PAIR_COUNT && draws != []
    requires RandomInt(1, 5, draws[0].0) == a && RandomInt(1, 5, draws[0].1) == b
    requires Backs(acc) == backs && NatString(a + b) == c && c !in backs
    ensures TopUp(acc, draws) == TopUp(acc + [SumPair(a, b)], draws[1..])
    ensures Backs(acc + [SumPair(a, b)]) == backs + [c]
  {
    BacksAppend(acc, SumPair(a, b));
  }

  /** The fixed sums keep 1+1, 2+2 and 3+2, whose results are 2, 4 and 5. */
  lemma FixedBacks()
    ensures Dedupe(MATH_PAIRS, []) == MATH_PAIRS[..3]
    ensures Backs(MATH_PAIRS[..3]) == ["2", "4", "5"]
    ensures Distinct(Backs(MATH_PAIRS[..3]))
  {
    DedupeMathPairs();
  }

  /** From three pairs with results 2, 4 and 5, draws whose sums are 3, 6 and 7 finish the loop. */
  lemma TopUpFinish(acc: seq<Pair>, draws: seq<(Draw, Draw)>)
    requires |acc| == 3 && Backs(acc) == ["2", "4", "5"] && |draws| == 3
    requires RandomInt(1, 5, draws[0].0) == 1 && RandomInt(1, 5, draws[0].1) == 2
    requires RandomInt(1, 5, draws[1].0) == 3 && RandomInt(1, 5, draws[1].1) == 3
    requires RandomInt(1, 5, draws[2].0) == 3 && RandomInt(1, 5, draws[2].1) == 4
    ensures TopUp(acc, draws).Some?
  {
    var b0 := ["2", "4", "5"];
    TopUpStep(acc, draws, 1, 2, b0, "3");
    var p1 := acc + [SumPair(1, 2)];
    TopUpStep(p1, draws[1..], 3, 3, b0 + ["3"], "6");
    var p2 := p1 + [SumPair(3, 3)];
    assert draws[1..][1..] == draws[2..];
    TopUpStep(p2, draws[2..], 3, 4, b0 + ["3"] + ["6"], "7");
  }

  /** Three draws whose sums are 3, 6 and 7 finish the math loop. */
  lemma MathPairsFinish(draws: seq<(Draw, Draw)>)
    requires |draws| == 3
    requires RandomInt(1, 5, draws[0].0) == 1 && RandomInt(1, 5, draws[0].1) == 2
    requires RandomInt(1, 5, draws[1].0) == 3 && RandomInt(1, 5, draws[1].1) == 3
    requires RandomInt(1, 5, draws[2].0) == 3 && RandomInt(1, 5, draws[2].1) == 4
    ensures PairsFor(Math, draws).Some?
  {
    FixedBacks();
    TopUpFinish(MATH_PAIRS[..3], draws);
  }

  /** Some draws finish the math loop. */
  lemma MathPairsCanFinish()
    ensures exists draws :: PairsFor(Math, draws).Some?
  {
    RandomIntReaches(1, 5, 1);
    RandomIntReaches(1, 5, 2);
    RandomIntReaches(1, 5, 3);
    RandomIntReaches(1, 5, 4);
    var draws := [(DrawFor(1, 5, 1), DrawFor(1, 5, 2)), (DrawFor(1, 5, 3), DrawFor(1, 5, 3)), (DrawFor(1, 5, 3), DrawFor(1, 5, 4))];
    MathPairsFinish(draws);
  }

  /**
   * The `for ... of MATH_PAIRS` loop with its early `break`, returning the kept
   * pairs and the set of their results.
   */
  method DedupeLoop() returns (uniqueMath: seq<Pair>, usedResults: set<string>)
    ensures uniqueMath == Dedupe(MATH_PAIRS, [])
    ensures forall r :: r in usedResults <==> r in Backs(uniqueMath)
  {
    uniqueMath := [];
    usedResults := {};
    var n := 0;
    while n < |MATH_PAIRS|
      invariant n <= |MATH_PAIRS|
      invariant |uniqueMath| < PAIR_COUNT
      invariant forall r :: r in usedResults <==> r in Backs(uniqueMath)
      invariant Dedupe(MATH_PAIRS[n..], uniqueMath) == Dedupe(MATH_PAIRS, [])
    {
      var pair := MATH_PAIRS[n];
      if pair.back !in usedResults {
        BacksAppend(uniqueMath, pair);
        uniqueMath := uniqueMath + [pair];
        usedResults := usedResults + {pair.back};
      }
      if |uniqueMath| >= PAIR_COUNT {
        break;
      }
      assert MATH_PAIRS[n..][1..] == MATH_PAIRS[n + 1..];
      n := n + 1;
    }
  }

  /**
   * The `while (uniqueMath.length < 6)` loop over `mathDraws`: two summands
   * `Math.floor(Math.random() * 5) + 1` per iteration.
   */
  method TopUpLoop(start: seq<Pair>, used: set<string>, mathDraws: seq<(Draw, Draw)>) returns (uniqueMath: seq<Pair>)
    requires forall r :: r in used <==> r in Backs(start)
    requires TopUp(start, mathDraws).Some?
    ensures uniqueMath == TopUp(start, mathDraws).value
  {
    uniqueMath := start;
    var usedResults := used;
    var k := 0;
    while |uniqueMath| < PAIR_COUNT
      invariant k <= |mathDraws|
      invariant forall r :: r in usedResults <==> r in Backs(uniqueMath)
      invariant TopUp(uniqueMath, mathDraws[k..]) == TopUp(start, mathDraws)
      decreases |mathDraws| - k
    {
      var a := RandomInt(1, 5, mathDraws[k].0);
      var b := RandomInt(1, 5, mathDraws[k].1);
      var result := NatString(a + b);
      if result !in usedResults {
        BacksAppend(uniqueMath, SumPair(a, b));
        uniqueMath := uniqueMath + [Pair(NatString(a) + "+" + NatString(b), result)];
        usedResults := usedResults + {result};
      }
      assert mathDraws[k..][1..] == mathDraws[k + 1..];
      k := k + 1;
    }
  }

  // ---------------------------------------------------------------------------
  // Cards
  // ---------------------------------------------------------------------------

  datatype Side = Front | Back

  /** The card id `${i}-a` (front) or `${i}-b` (back) of pair i. */
  datatype CardId = CardId(pair: nat, side: Side)

  datatype Card = Card(id: CardId, content: string, matchId: nat, side: Side)

  /** The two cards of pair i. */
  function CardsOfPair(i: nat, p: Pair): seq<Card> {
    [Card(CardId(i, Front), p.front, i, Front), Card(CardId(i, Back), p.back, i, Back)]
  }

  /** The cards in the order `pairs.forEach` pushes them: pair by pair, front before back. */
  function CardsOf(pairs: seq<Pair>): (cards: seq<Card>)
    ensures |cards| == 2 * |pairs|
  {
    if pairs == [] then []
    else CardsOf(pairs[..|pairs| - 1]) + CardsOfPair(|pairs| - 1, pairs[|pairs| - 1])
  }

  function Ids(cards: seq<Card>): seq<CardId> {
    MapSeq((c: Card) => c.id, cards)
  }

  function MatchIds(cards: seq<Card>): seq<nat> {
    MapSeq((c: Card) => c.matchId, cards)
  }

  /** No two cards share an id, and every card belongs to one of the pairs. */
  lemma {:induction false} CardIdsDistinct(pairs: seq<Pair>)
    ensures Distinct(Ids(CardsOf(pairs)))
    ensures forall c :: c in CardsOf(pairs) ==> c.id.pair < |pairs| && c.matchId == c.id.pair
    decreases |pairs|
  {
    if pairs != [] {
      var n := |pairs| - 1;
      var before := CardsOf(pairs[..n]);
      CardIdsDistinct(pairs[..n]);
      var cards := CardsOf(pairs);
      assert cards == before + CardsOfPair(n, pairs[n]);
      forall i, j | 0 <= i < j < |cards| ensures Ids(cards)[i] != Ids(cards)[j] {
        if j >= |before| && i < |before| {
          assert before[i] in before;
        } else if i < |before| {
          assert Ids(before)[i] == Ids(cards)[i] && Ids(before)[j] == Ids(cards)[j];
        }
      }
    }
  }

  /** Every pair index is the match id of exactly two cards, and nothing else is. */
  lemma {:induction false} MatchIdCounts(pairs: seq<Pair>)
    ensures forall j: nat :: multiset(MatchIds(CardsOf(pairs)))[j] == if j < |pairs| then 2 else 0
    decreases |pairs|
  {
    if pairs != [] {
      var n := |pairs| - 1;
      var before := MatchIds(CardsOf(pairs[..n]));
      MatchIdCounts(pairs[..n]);
      var twice: seq<nat> := [n, n];
      var cards := CardsOf(pairs);
      assert cards == CardsOf(pairs[..n]) + CardsOfPair(n, pairs[n]);
      assert MatchIds(cards) == before + twice by {
        assert |MatchIds(cards)| == |before + twice|;
        forall k | 0 <= k < |cards| ensures MatchIds(cards)[k] == (before + twice)[k] {
          if k >= |before| {
            assert cards[k] == CardsOfPair(n, pairs[n])[k - |before|];
          }
        }
      }
      var m: multiset<nat> := multiset(MatchIds(cards));
      var mb: multiset<nat> := multiset(before);
      var mt: multiset<nat> := multiset(twice);
      assert m == mb + mt;
      forall j: nat ensures m[j] == if j < |pairs| then 2 else 0 {
        if j == n {
          assert mt[j] == 2;
        } else {
          assert mt[j] == 0;
        }
      }
    }
  }

  /** `pairs.forEach((pair, i) => { cards.push(front); cards.push(back); })`. */
  method BuildCards(pairs: seq<Pair>) returns (cards: seq<Card>)
    ensures cards == CardsOf(pairs)
  {
    cards := [];
    for i := 0 to |pairs|
      invariant cards == CardsOf(pairs[..i])
    {
      assert pairs[..i + 1][..i] == pairs[..i];
      cards := cards + [Card(CardId(i, Front), pairs[i].front, i, Front)];
      cards := cards + [Card(CardId(i, Back), pairs[i].back, i, Back)];
    }
    assert pairs[..|pairs|] == pairs;
  }

  /**
   * `generateCards(mode)`: the mode's pairs, two cards per pair, shuffled with
   * `shuffleDraws`. The deck has twelve cards with distinct ids, and each match
   * id 0..5 is on exactly two of them.
   */
  method GenerateCards(mode: Mode, mathDraws: seq<(Draw, Draw)>, shuffleDraws: seq<Draw>) returns (deck: seq<Card>)
    requires PairsFor(mode, mathDraws).Some?
    requires |shuffleDraws| >= 2 * PAIR_COUNT - 1
    ensures deck == Shuffled(CardsOf(PairsFor(mode, mathDraws).value), shuffleDraws)
    ensures |deck| == 2 * PAIR_COUNT
    ensures Distinct(Ids(deck))
    ensures forall j: nat :: multiset(MatchIds(deck))[j] == if j < PAIR_COUNT then 2 else 0
  {
    PairsForFacts(mode, mathDraws);
    var pairs: seq<Pair>;
    match mode {
      case Emoji => pairs := EMOJI_PAIRS[..PAIR_COUNT];
      case Word => pairs := WORD_PAIRS[..PAIR_COUNT];
      case Math =>
        var kept, used := DedupeLoop();
        pairs := TopUpLoop(kept, used, mathDraws);
    }
    var cards := BuildCards(pairs);
    deck := ShuffleArray(cards, shuffleDraws);
    CardIdsDistinct(pairs);
    MatchIdCounts(pairs);
    ShuffledMap((c: Card) => c.id, cards, shuffleDraws);
    ShuffledDistinct(Ids(cards), shuffleDraws);
    ShuffledMap((c: Card) => c.matchId, cards, shuffleDraws);
    ShuffledPermutation(MatchIds(cards), shuffleDraws);
  }

  // ---------------------------------------------------------------------------
  // Play
  // ---------------------------------------------------------------------------

  /** `cards.find(c => c.id === id)`. */
  function FindCard(cards: seq<Card>, id: CardId): (r: Option<Card>)
    ensures r.Some? <==> id in Ids(cards)
    ensures r.Some? ==> r.value in cards && r.value.id == id
  {
    if cards == [] then None
    else if cards[0].id == id then Some(cards[0])
    else
      assert Ids(cards) == [cards[0].id] + Ids(cards[1..]);
      FindCard(cards[1..], id)
  }

  /** In a deck without repeated ids, looking up a card's id finds that card. */
  lemma FindOwnCard(cards: seq<Card>, c: Card)
    requires Distinct(Ids(cards)) && c in cards
    ensures FindCard(cards, c.id) == Some(c)
  {
    var k :| 0 <= k < |cards| && cards[k] == c;
    var found := FindCard(cards, c.id).value;
    var m :| 0 <= m < |cards| && cards[m] == found;
    assert Ids(cards)[k] == Ids(cards)[m];
  }

  /** A card's id is among the deck's ids. */
  lemma CardIdListed(cards: seq<Card>, c: Card)
    requires c in cards
    ensures c.id in Ids(cards)
  {
    var k :| 0 <= k < |cards| && cards[k] == c;
    assert Ids(cards)[k] == c.id;
  }

  /**
   * A deck without repeated ids whose matched ids are distinct ids of the deck
   * is fully matched exactly when as many ids are matched as there are cards.
   */
  lemma CompleteIffAllMatched(cards: seq<Card>, matched: seq<CardId>)
    requires Distinct(Ids(cards)) && Distinct(matched)
    requires forall id :: id in matched ==> id in Ids(cards)
    ensures |matched| == |cards| <==> forall c :: c in cards ==> c.id in matched
  {
    FullIffAllPresent(matched, Ids(cards));
    forall c | c in cards ensures c.id in Ids(cards) {
      CardIdListed(cards, c);
    }
  }

  /** What a click schedules. */
  datatype Followup = NoFollowup | BonusAfter(delay: nat) | UnflipAfter(delay: nat)

  class Game {
    var mode: Option<Mode>
    var cards: seq<Card>
    var flipped: seq<CardId>
    var matched: seq<CardId>
    var moves: nat
    var score: int
    var isChecking: bool

    /**
     * The deck has no repeated ids; at most two cards are turned, two only while
     * a mismatch is on show; turned and matched cards are distinct cards of the
     * deck, and no card is both.
     */
    predicate Valid()
      reads this
    {
      && Distinct(Ids(cards))
      && |flipped| <= 2 && (|flipped| == 2 ==> isChecking)
      && Distinct(flipped) && Distinct(matched)
      && (forall id :: id in flipped ==> id in Ids(cards) && id !in matched)
      && (forall id :: id in matched ==> id in Ids(cards))
    }

    /** `isComplete`: every card matched, in a non-empty deck. */
    predicate IsComplete()
      reads this
    {
      |matched| == |cards| && |cards| > 0
    }

    /** The component's initial state: no mode chosen, no deck. */
    constructor ()
      ensures mode == None && cards == [] && flipped == [] && matched == []
      ensures moves == 0 && score == 0 && !isChecking
      ensures Valid()
    {
      mode := None;
      cards := [];
      flipped := [];
      matched := [];
      moves := 0;
      score := 0;
      isChecking := false;
    }

    /**
     * Choosing a mode, or going back to the menu with `None`. The effect on
     * `mode` then deals a deck for a chosen mode: the caller follows up with
     * `StartGame`.
     */
    method SetMode(m: Option<Mode>)
      modifies this
      ensures mode == m
      ensures cards == old(cards) && flipped == old(flipped) && matched == old(matched)
      ensures moves == old(moves) && score == old(score) && isChecking == old(isChecking)
    {
      mode := m;
    }

    /** `startGame`: a new deck for the chosen mode, nothing turned or matched, no moves. */
    method StartGame(mathDraws: seq<(Draw, Draw)>, shuffleDraws: seq<Draw>)
      requires mode.Some? && PairsFor(mode.value, mathDraws).Some?
      requires |shuffleDraws| >= 2 * PAIR_COUNT - 1
      modifies this
      ensures mode == old(mode)
      ensures cards == Shuffled(CardsOf(PairsFor(mode.value, mathDraws).value), shuffleDraws)
      ensures |cards| == 2 * PAIR_COUNT && Distinct(Ids(cards))
      ensures flipped == [] && matched == [] && moves == 0
      ensures score == old(score) && isChecking == old(isChecking)
      ensures Valid()
    {
      cards := GenerateCards(mode.value, mathDraws, shuffleDraws);
      flipped := [];
      matched := [];
      moves := 0;
    }

    /**
     * `handleCardClick(card)`: ignored while a mismatch is on show or when the
     * card is turned or matched. Turning a first card only turns it. Turning a
     * second counts a move: equal match ids match both cards, earn 20 `memory`
     * XP and schedule the 50-XP bonus when these were the last two cards;
     * different ones record a 0-XP `memory` attempt and leave both turned until
     * the scheduled unflip.
     */
    method HandleCardClick(card: Card, store: GameStore, today: string) returns (next: Followup)
      requires Valid() && card in cards
      modifies this, store
      ensures Valid()
      ensures mode == old(mode) && cards == old(cards)
      ensures old(isChecking || card.id in flipped || card.id in matched) ==>
        next == NoFollowup && store.State() == old(store.State())
        && flipped == old(flipped) && matched == old(matched) && moves == old(moves)
        && score == old(score) && isChecking == old(isChecking)
      ensures old(!isChecking && card.id !in flipped && card.id !in matched) && old(|flipped|) == 0 ==>
        next == NoFollowup && store.State() == old(store.State())
        && flipped == [card.id] && matched == old(matched) && moves == old(moves)
        && score == old(score) && isChecking == old(isChecking)
      ensures old(!isChecking && card.id !in flipped && card.id !in matched) && old(|flipped|) == 1 ==>
        var first := FindCard(cards, old(flipped[0])).value;
        && moves == old(moves) + 1
        && (first.matchId == card.matchId ==>
              && matched == old(matched) + [first.id, card.id]
              && store.State() == AddXPStep(old(store.State()), 20, Some("memory"), Some(true), today)
              && score == old(score) + 20 && flipped == [] && !isChecking
              && (next == BonusAfter(500) <==> IsComplete())
              && (next != BonusAfter(500) ==> next == NoFollowup))
        && (first.matchId != card.matchId ==>
              && matched == old(matched)
              && store.State() == AddXPStep(old(store.State()), 0, Some("memory"), Some(false), today)
              && score == old(score) && flipped == old(flipped) + [card.id] && isChecking
              && next == UnflipAfter(1000))
    {
      if isChecking || card.id in flipped || card.id in matched {
        return NoFollowup;
      }
      if |flipped| == 0 {
        flipped := [card.id];
        return NoFollowup;
      }
      var first := FindCard(cards, flipped[0]).value;
      FindOwnCard(cards, card);
      next := TurnSecond(first, card, store, today);
    }

    /**
     * The second card of a move turned: the move is counted and the two cards
     * are compared by match id.
     */
    method TurnSecond(first: Card, card: Card, store: GameStore, today: string) returns (next: Followup)
      requires Valid() && !isChecking && |flipped| == 1
      requires first in cards && first.id == flipped[0]
      requires card in cards && card.id !in flipped && card.id !in matched
      modifies this, store
      ensures Valid()
      ensures mode == old(mode) && cards == old(cards)
      ensures moves == old(moves) + 1
      ensures first.matchId == card.matchId ==>
        && matched == old(matched) + [first.id, card.id]
        && store.State() == AddXPStep(old(store.State()), 20, Some("memory"), Some(true), today)
        && score == old(score) + 20 && flipped == [] && !isChecking
        && (next == BonusAfter(500) <==> IsComplete())
        && (next != BonusAfter(500) ==> next == NoFollowup)
      ensures first.matchId != card.matchId ==>
        && matched == old(matched)
        && store.State() == AddXPStep(old(store.State()), 0, Some("memory"), Some(false), today)
        && score == old(score) && flipped == old(flipped) + [card.id] && isChecking
        && next == UnflipAfter(1000)
    {
      flipped := flipped + [card.id];
      moves := moves + 1;
      isChecking := true;
      if first.matchId == card.matchId {
        next := KeepPair(first, card, store, today);
      } else {
        store.AddXP(0, Some("memory"), Some(false), today);
        next := UnflipAfter(1000);
      }
    }

    /**
     * Two cards with the same match id: both are matched, 20 `memory` XP, the
     * move ends at once, and the bonus is scheduled when these were the last two.
     */
    method KeepPair(first: Card, card: Card, store: GameStore, today: string) returns (next: Followup)
      requires Distinct(Ids(cards)) && Distinct(matched) && forall id :: id in matched ==> id in Ids(cards)
      requires first in cards && card in cards && first.id != card.id
      requires first.id !in matched && card.id !in matched
      modifies this, store
      ensures Valid()
      ensures mode == old(mode) && cards == old(cards) && moves == old(moves)
      ensures matched == old(matched) + [first.id, card.id]
      ensures store.State() == AddXPStep(old(store.State()), 20, Some("memory"), Some(true), today)
      ensures score == old(score) + 20 && flipped == [] && !isChecking
      ensures next == BonusAfter(500) <==> IsComplete()
      ensures next != BonusAfter(500) ==> next == NoFollowup
    {
      var matchedBefore := |matched|;
      CardIdListed(cards, first);
      CardIdListed(cards, card);
      DistinctAppend(matched, [first.id, card.id]);
      matched := matched + [first.id, card.id];
      store.AddXP(20, Some("memory"), Some(true), today);
      score := score + 20;
      flipped := [];
      isChecking := false;
      CompleteIffAllMatched(cards, matched);
      next := NoFollowup;
      if matchedBefore + 2 == |cards| {
        next := BonusAfter(500);
      }
    }

    /** The bonus timeout: 50 XP, counted for no subject. */
    method BonusTimeout(store: GameStore, today: string)
      modifies store
      ensures store.State() == AddXPStep(old(store.State()), 50, None, None, today)
    {
      store.AddXP(50, None, None, today);
    }

    /** The unflip timeout after a mismatch: both cards face down again. */
    method UnflipTimeout()
      requires Valid()
      modifies this
      ensures flipped == [] && !isChecking
      ensures mode == old(mode) && cards == old(cards) && matched == old(matched)
      ensures moves == old(moves) && score == old(score)
      ensures Valid()
    {
      flipped := [];
      isChecking := false;
    }
  }
}
