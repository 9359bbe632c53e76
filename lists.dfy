/** List helpers shared by the screens and the form. */
module Lists {
  /**
   * `xs.filter((_, i) => i !== index)`, written as the filter walks the list: position by
   * position, keeping every element whose position is not `index`.
   */
  function RemoveAt<T>(xs: seq<T>, index: int): (r: seq<T>)
    ensures 0 <= index < |xs| ==> r == xs[..index] + xs[index + 1..]
    ensures !(0 <= index < |xs|) ==> r == xs
  {
    if xs == [] then []
    else (if index == 0 then [] else [xs[0]]) + RemoveAt(xs[1..], index - 1)
  }

  /** Removal drops exactly the entry at the index and keeps the others in their order. */
  lemma RemoveAtElements<T>(xs: seq<T>, index: int)
    requires 0 <= index < |xs|
    ensures |RemoveAt(xs, index)| == |xs| - 1
    ensures forall j :: 0 <= j < index ==> RemoveAt(xs, index)[j] == xs[j]
    ensures forall j :: index <= j < |xs| - 1 ==> RemoveAt(xs, index)[j] == xs[j + 1]
  {
  }

  /** `const copy = [...xs]; copy[index] = f(copy[index])` for an index inside the list. */
  predicate ReplacedAt<T(==)>(xs: seq<T>, r: seq<T>, index: nat, x: T) {
    |r| == |xs| && index < |xs| && r[index] == x
    && forall j :: 0 <= j < |xs| && j != index ==> r[j] == xs[j]
  }

  /** `xs` is `ys` with some entries taken out and the rest in their order. */
  predicate IsSubsequence<T(==)>(xs: seq<T>, ys: seq<T>) {
    xs == [] || (ys != [] && if xs[0] == ys[0] then IsSubsequence(xs[1..], ys[1..]) else IsSubsequence(xs, ys[1..]))
  }

  /** A subsequence of the tail is a subsequence of the whole list. */
  lemma {:induction false} SubsequenceOfTail<T>(xs: seq<T>, ys: seq<T>)
    requires ys != [] && IsSubsequence(xs, ys[1..])
    ensures IsSubsequence(xs, ys)
    decreases |xs| + |ys|
  {
    if xs != [] && xs[0] == ys[0] {
      SubsequenceDropHead(xs, ys[1..]);
    }
  }

  /** Dropping the first entry of a subsequence leaves a subsequence. */
  lemma {:induction false} SubsequenceDropHead<T>(xs: seq<T>, ys: seq<T>)
    requires xs != [] && IsSubsequence(xs, ys)
    ensures IsSubsequence(xs[1..], ys)
    decreases |xs| + |ys|
  {
    if xs[0] == ys[0] {
      if xs[1..] != [] {
        SubsequenceOfTail(xs[1..], ys);
      }
    } else {
      SubsequenceDropHead(xs, ys[1..]);
      SubsequenceOfTail(xs[1..], ys);
    }
  }
}
