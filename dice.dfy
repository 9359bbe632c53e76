/**
 * The dice of `dnd35Utils.ts`. `Math.random()` is an oracle: every call site receives the
 * value it would have drawn, a `Draw` in [0, 1).
 */
module Dice {
  import opened Optional

  /** A value `Math.random()` can return. */
  type Draw = u: real | 0.0 <= u < 1.0

  /** `Math.floor(u * n)`: for a positive `n` an index below `n`. */
  function Scaled(u: Draw, n: int): (k: int)
    ensures n >= 1 ==> 0 <= k < n
  {
    if n >= 1 then
      assert 0.0 <= u * n as real < n as real by { ScaleBelow(u, n as real); }
      (u * n as real).Floor
    else (u * n as real).Floor
  }

  lemma ScaleBelow(u: Draw, x: real)
    requires x >= 1.0
    ensures 0.0 <= u * x < x
  {
    assert (1.0 - u) * x > 0.0;
  }

  /** `rollDie(sides)`: `Math.floor(Math.random() * sides) + 1`. */
  function RollDie(sides: int, u: Draw): (r: int)
    ensures sides >= 1 ==> 1 <= r <= sides
  {
    Scaled(u, sides) + 1
  }

  /** The dice the draws `us` give, one per draw, in the order drawn. */
  function Rolls(sides: int, us: seq<Draw>): seq<int> {
    seq(|us|, i requires 0 <= i < |us| => RollDie(sides, us[i]))
  }

  /**
   * `rollDice(count, sides)`: `count` dice (none for a count below one), each in [1, sides],
   * the i-th drawn from the i-th value of the oracle.
   */
  method RollDice(count: int, sides: int, us: seq<Draw>) returns (rolls: seq<int>)
    requires count <= |us|
    ensures |rolls| == if count < 0 then 0 else count
    ensures rolls == Rolls(sides, us[..|rolls|])
    ensures sides >= 1 ==> forall i :: 0 <= i < |rolls| ==> 1 <= rolls[i] <= sides
  {
    rolls := [];
    var i := 0;
    while i < count
      invariant 0 <= i <= |us| && (count >= 0 ==> i <= count) && (count < 0 ==> i == 0)
      invariant rolls == Rolls(sides, us[..i])
    {
      rolls := rolls + [RollDie(sides, us[i])];
      i := i + 1;
    }
  }

  function Sum(xs: seq<int>): int {
    if xs == [] then 0 else xs[0] + Sum(xs[1..])
  }

  function Min(xs: seq<int>): (m: int)
    requires xs != []
    ensures m in xs
    ensures forall i :: 0 <= i < |xs| ==> m <= xs[i]
  {
    if |xs| == 1 then xs[0]
    else
      var rest := Min(xs[1..]);
      if xs[0] <= rest then xs[0] else rest
  }

  /** "4d6, drop the lowest": the sum of the dice less one copy of the smallest. */
  function DropLowest(xs: seq<int>): int
    requires xs != []
  {
    Sum(xs) - Min(xs)
  }

  lemma {:induction false} SumConcat(xs: seq<int>, ys: seq<int>)
    ensures Sum(xs + ys) == Sum(xs) + Sum(ys)
  {
    if xs != [] {
      assert (xs + ys)[0] == xs[0];
      assert (xs + ys)[1..] == xs[1..] + ys;
      SumConcat(xs[1..], ys);
    } else {
      assert xs + ys == ys;
    }
  }

  /** Reordering dice does not change their sum. */
  lemma {:induction false} SumPermutation(xs: seq<int>, ys: seq<int>)
    requires multiset(xs) == multiset(ys)
    ensures Sum(xs) == Sum(ys)
  {
    if xs != [] {
      assert xs == [xs[0]] + xs[1..];
      assert xs[0] in multiset(ys);
      TakeOut(ys, xs[0]);
      assert multiset(xs[1..]) == multiset(xs) - multiset{xs[0]};
      SumPermutation(xs[1..], TakenOut(ys, xs[0]));
    } else {
      assert |ys| == |multiset(ys)| == 0;
    }
  }

  /** The dice with the first one showing `x` taken out. */
  function TakenOut(ys: seq<int>, x: int): seq<int> {
    if ys == [] then []
    else if ys[0] == x then ys[1..]
    else [ys[0]] + TakenOut(ys[1..], x)
  }

  /** Taking one die out leaves the others and their sum less that die. */
  lemma {:induction false} TakeOut(ys: seq<int>, x: int)
    requires x in ys
    ensures multiset(TakenOut(ys, x)) == multiset(ys) - multiset{x}
    ensures Sum(ys) == x + Sum(TakenOut(ys, x))
  {
    assert ys == [ys[0]] + ys[1..];
    if ys[0] != x {
      TakeOut(ys[1..], x);
      assert TakenOut(ys, x) == [ys[0]] + TakenOut(ys[1..], x);
    }
  }

  predicate SortedDescending(xs: seq<int>) {
    forall p, q :: 0 <= p < q < |xs| ==> xs[p] >= xs[q]
  }

  /**
   * Of a descending arrangement of the dice, all but the last entry add up to the
   * dice less their smallest: what `slice(0, 3)` of the sorted four keeps.
   */
  lemma DropLowestOfSorted(sorted: seq<int>, xs: seq<int>)
    requires xs != [] && SortedDescending(sorted) && multiset(sorted) == multiset(xs)
    ensures |sorted| == |xs|
    ensures Sum(sorted[..|sorted| - 1]) == DropLowest(xs)
  {
    assert |sorted| == |multiset(sorted)| == |xs|;
    var n := |sorted|;
    var last := sorted[n - 1];
    assert last in multiset(xs);
    assert Min(xs) in multiset(sorted);
    var j :| 0 <= j < n && sorted[j] == Min(xs);
    assert Min(xs) == last;
    SumPermutation(sorted, xs);
    assert sorted == sorted[..n - 1] + [last];
    SumConcat(sorted[..n - 1], [last]);
  }

  /** Sorts the array into descending order in place (`rolls.sort((a, b) => b - a)`). */
  method SortDescending(a: array<int>)
    modifies a
    ensures SortedDescending(a[..])
    ensures multiset(a[..]) == old(multiset(a[..]))
  {
    var i := 0;
    while i < a.Length
      invariant 0 <= i <= a.Length
      invariant forall p, q :: 0 <= p < q < i ==> a[p] >= a[q]
      invariant multiset(a[..]) == old(multiset(a[..]))
    {
      var j := i;
      while j > 0 && a[j - 1] < a[j]
        invariant 0 <= j <= i
        invariant forall p, q :: 0 <= p < q <= i && p != j && q != j ==> a[p] >= a[q]
        invariant forall q :: j < q <= i ==> a[j] >= a[q]
        invariant multiset(a[..]) == old(multiset(a[..]))
      {
        Swap(a, j - 1, j);
        j := j - 1;
      }
      i := i + 1;
    }
  }

  /** Exchanges two entries of the array and leaves the others. */
  method Swap(a: array<int>, i: nat, j: nat)
    requires i < a.Length && j < a.Length
    modifies a
    ensures a[i] == old(a[j]) && a[j] == old(a[i])
    ensures forall k :: 0 <= k < a.Length && k != i && k != j ==> a[k] == old(a[k])
    ensures multiset(a[..]) == old(multiset(a[..]))
  {
    a[i], a[j] := a[j], a[i];
  }

  /**
   * `rollAbilityScore`: four six-sided dice sorted in descending order, the first three summed.
   * The score is the four dice less one copy of their smallest, so it lies in [3, 18].
   */
  method RollAbilityScore(us: seq<Draw>) returns (score: int)
    requires 4 <= |us|
    ensures score == DropLowest(Rolls(6, us[..4]))
    ensures 3 <= score <= 18
  {
    var rolls := RollDice(4, 6, us);
    var a := new int[4](i requires 0 <= i < 4 => rolls[i]);
    assert a[..] == rolls;
    SortDescending(a);
    score := a[0] + a[1] + a[2];
    DropLowestOfSorted(a[..], rolls);
    var top := a[..][..3];
    assert top == [a[0], a[1], a[2]];
    assert top[1..] == [a[1], a[2]] && top[1..][1..] == [a[2]] && top[1..][1..][1..] == [];
    assert Sum([a[2]]) == a[2];
    assert Sum([a[1], a[2]]) == a[1] + a[2];
    assert Sum(top) == a[0] + a[1] + a[2];
    forall k | 0 <= k < 4 ensures 1 <= a[k] <= 6 {
      assert a[k] in multiset(rolls);
    }
  }

  /** The four draws that make the score of the k-th ability, in the order the six are rolled. */
  function ScoreDraws(us: seq<Draw>, k: nat): seq<Draw>
    requires 4 * k + 4 <= |us|
  {
    us[4 * k..4 * k + 4]
  }

  /** `getRandomElement(xs)`: `xs[Math.floor(Math.random() * xs.length)]`, `undefined` for an empty list. */
  function RandomElement<T>(xs: seq<T>, u: Draw): (r: Option<T>)
    ensures r.Some? <==> |xs| > 0
    ensures r.Some? ==> r.value in xs
  {
    if |xs| == 0 then None else Some(xs[Scaled(u, |xs|)])
  }
}
