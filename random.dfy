/**
 * The random helpers of the utility library: `getRandomInt` and the
 * Fisher-Yates `shuffleArray`. Every `Math.random()` value they consume is an
 * explicit `Draw` argument, so each helper is a deterministic function of its
 * draws.
 */
module Random {
  import opened Seqs

  /** One value of `Math.random()`: a real number in [0, 1). */
  type Draw = u: real | 0.0 <= u < 1.0

  /** `getRandomInt(min, max)`: `Math.floor(u * (max - min + 1)) + min`. */
  function RandomInt(min: int, max: int, u: Draw): (r: int)
    requires min <= max
    ensures min <= r <= max
  {
    var width := (max - min + 1) as real;
    assert u * width < width by {
      assert (1.0 - u) * width > 0.0;
    }
    (u * width).Floor + min
  }

  /** A draw that makes `RandomInt(min, max, _)` produce `r`. */
  function DrawFor(min: int, max: int, r: int): Draw
    requires min <= r <= max
  {
    var width := (max - min + 1) as real;
    assert (r - min) as real < width;
    (r - min) as real / width
  }

  /** Every integer of [min, max] is the result of some draw. */
  lemma RandomIntReaches(min: int, max: int, r: int)
    requires min <= r <= max
    ensures RandomInt(min, max, DrawFor(min, max, r)) == r
  {
    var width := (max - min + 1) as real;
    assert DrawFor(min, max, r) * width == (r - min) as real;
  }

  /** The sequence with the elements at positions i and j exchanged. */
  function Swap<T>(s: seq<T>, i: nat, j: nat): (r: seq<T>)
    requires i < |s| && j < |s|
    ensures |r| == |s|
  {
    s[i := s[j]][j := s[i]]
  }

  /**
   * The loop of `shuffleArray` from position i down to 1: at each position k it
   * exchanges element k with element `RandomInt(0, k, _)`, taking the next draw.
   */
  function SwapDown<T>(s: seq<T>, draws: seq<Draw>, i: nat): seq<T>
    requires i < |s| && i <= |draws|
    decreases i
  {
    if i == 0 then s
    else SwapDown(Swap(s, i, RandomInt(0, i, draws[0])), draws[1..], i - 1)
  }

  /** What `shuffleArray` returns for the given draws (it needs one per position above 0). */
  function Shuffled<T>(s: seq<T>, draws: seq<Draw>): seq<T>
    requires |draws| >= |s| - 1
  {
    if |s| == 0 then s else SwapDown(s, draws, |s| - 1)
  }

  lemma {:induction false} SwapDownPermutation<T>(s: seq<T>, draws: seq<Draw>, i: nat)
    requires i < |s| && i <= |draws|
    ensures |SwapDown(s, draws, i)| == |s|
    ensures multiset(SwapDown(s, draws, i)) == multiset(s)
    decreases i
  {
    if i > 0 {
      SwapDownPermutation(Swap(s, i, RandomInt(0, i, draws[0])), draws[1..], i - 1);
    }
  }

  /** The shuffle returns a permutation of its input. */
  lemma ShuffledPermutation<T>(s: seq<T>, draws: seq<Draw>)
    requires |draws| >= |s| - 1
    ensures |Shuffled(s, draws)| == |s|
    ensures multiset(Shuffled(s, draws)) == multiset(s)
  {
    if |s| > 0 {
      SwapDownPermutation(s, draws, |s| - 1);
    }
  }

  /** Shuffling keeps a sequence free of duplicates. */
  lemma ShuffledDistinct<T>(s: seq<T>, draws: seq<Draw>)
    requires |draws| >= |s| - 1 && Distinct(s)
    ensures Distinct(Shuffled(s, draws))
  {
    ShuffledPermutation(s, draws);
    PermutationDistinct(s, Shuffled(s, draws));
  }

  /** The element-wise image of a sequence under f. */
  function MapSeq<T, U>(f: T -> U, s: seq<T>): (r: seq<U>)
    ensures |r| == |s| && forall k :: 0 <= k < |s| ==> r[k] == f(s[k])
  {
    seq(|s|, k requires 0 <= k < |s| => f(s[k]))
  }

  lemma SwapMap<T, U>(f: T -> U, s: seq<T>, i: nat, j: nat)
    requires i < |s| && j < |s|
    ensures MapSeq(f, Swap(s, i, j)) == Swap(MapSeq(f, s), i, j)
  {
    var l, r := MapSeq(f, Swap(s, i, j)), Swap(MapSeq(f, s), i, j);
    assert |l| == |r|;
    forall k | 0 <= k < |l| ensures l[k] == r[k] {
    }
  }

  lemma {:induction false} SwapDownMap<T, U>(f: T -> U, s: seq<T>, draws: seq<Draw>, i: nat)
    requires i < |s| && i <= |draws|
    ensures MapSeq(f, SwapDown(s, draws, i)) == SwapDown(MapSeq(f, s), draws, i)
    decreases i
  {
    if i == 0 {
      assert SwapDown(s, draws, i) == s;
      assert SwapDown(MapSeq(f, s), draws, i) == MapSeq(f, s);
    } else {
      var j := RandomInt(0, i, draws[0]);
      var t := Swap(s, i, j);
      var lhs := SwapDown(s, draws, i);
      var rhs := SwapDown(MapSeq(f, s), draws, i);
      assert lhs == SwapDown(t, draws[1..], i - 1);
      SwapDownMap(f, t, draws[1..], i - 1);
      SwapMap(f, s, i, j);
      assert rhs == SwapDown(MapSeq(f, t), draws[1..], i - 1);
    }
  }

  /** The same draws move every element to the same place whatever the elements are. */
  lemma ShuffledMap<T, U>(f: T -> U, s: seq<T>, draws: seq<Draw>)
    requires |draws| >= |s| - 1
    ensures MapSeq(f, Shuffled(s, draws)) == Shuffled(MapSeq(f, s), draws)
  {
    if |s| > 0 {
      SwapDownMap(f, s, draws, |s| - 1);
    }
  }

  /**
   * `shuffleArray`: copies its argument into a fresh array and, for i from the
   * last position down to 1, exchanges element i with element j, 0 <= j <= i.
   * The argument is a value, so the caller's sequence is never changed.
   */
  method ShuffleArray<T>(input: seq<T>, draws: seq<Draw>) returns (shuffled: seq<T>)
    requires |draws| >= |input| - 1
    ensures shuffled == Shuffled(input, draws)
    ensures multiset(shuffled) == multiset(input) && |shuffled| == |input|
    ensures |input| <= 1 ==> shuffled == input
  {
    var a := new T[|input|](k requires 0 <= k < |input| => input[k]);
    assert a[..] == input;
    var n := a.Length;
    var i := n - 1;
    while i > 0
      invariant if n == 0 then i == -1 else 0 <= i < n
      invariant n == 0 ==> a[..] == input
      invariant n > 0 ==> SwapDown(a[..], draws[n - 1 - i..], i) == Shuffled(input, draws)
    {
      var j := RandomInt(0, i, draws[n - 1 - i]);
      ghost var before := a[..];
      a[i], a[j] := a[j], a[i];
      assert a[..] == Swap(before, i, j);
      assert draws[n - 1 - i..][1..] == draws[n - 1 - (i - 1)..];
      i := i - 1;
    }
    shuffled := a[..];
    if n == 0 {
      assert Shuffled(input, draws) == input == shuffled;
    } else {
      assert i == 0 && SwapDown(shuffled, draws[n - 1..], 0) == shuffled;
    }
    ShuffledPermutation(input, draws);
  }
}
