/** Sequence vocabulary shared by every part of the model. */
module Seqs {

  datatype Option<+T> = None | Some(value: T)

  lemma {:induction false} Regroup<T>(a: seq<T>, b: seq<T>, c: seq<T>)
    ensures (a + b) + c == a + (b + c)
  {
  }

  lemma {:induction false} Unsnoc<T>(s: seq<T>)
    requires s != []
    ensures s == s[..|s| - 1] + [s[|s| - 1]]
  {
  }

  /** The position of the first occurrence of `x`, if there is one. */
  function Position<T(==)>(s: seq<T>, x: T): (r: Option<nat>)
    ensures r.Some? ==> r.value < |s| && s[r.value] == x
    ensures r.Some? ==> forall i :: 0 <= i < r.value ==> s[i] != x
    ensures r.None? <==> x !in s
  {
    if s == [] then None
    else if s[0] == x then Some(0)
    else
      match Position(s[1..], x)
      case None => None
      case Some(i) => Some(i + 1)
  }

  /** Keeps the first occurrence of every element, in order: what a caller sees
      of a stream filtered through `HashSet::insert`. */
  function Dedup<T(==,!new)>(xs: seq<T>): (r: seq<T>)
    ensures forall x :: x in r <==> x in xs
    ensures forall i, j :: 0 <= i < j < |r| ==> r[i] != r[j]
  {
    if xs == [] then []
    else
      var last := |xs| - 1;
      assert xs == xs[..last] + [xs[last]];
      if xs[last] in xs[..last] then Dedup(xs[..last]) else Dedup(xs[..last]) + [xs[last]]
  }

  lemma {:induction false} DedupSnoc<T(!new)>(xs: seq<T>, x: T)
    ensures Dedup(xs + [x]) == if x in xs then Dedup(xs) else Dedup(xs) + [x]
  {
    assert (xs + [x])[..|xs|] == xs;
  }

  /** A longer stream only ever extends the deduplicated one. */
  lemma {:induction false} DedupPrefix<T(!new)>(xs: seq<T>, n: nat)
    requires n <= |xs|
    ensures Dedup(xs[..n]) <= Dedup(xs)
  {
    if n == |xs| {
      assert xs[..n] == xs;
    } else {
      var ys := xs[..|xs| - 1];
      DedupPrefix(ys, n);
      assert ys[..n] == xs[..n];
    }
  }

  /** Elements are kept in the order in which they first occurred. */
  lemma {:induction false} DedupOrder<T(!new)>(xs: seq<T>, i: nat, j: nat)
    requires i < j < |Dedup(xs)|
    ensures Position(xs, Dedup(xs)[i]).Some? && Position(xs, Dedup(xs)[j]).Some?
    ensures Position(xs, Dedup(xs)[i]).value < Position(xs, Dedup(xs)[j]).value
  {
    var r := Dedup(xs);
    var last := |xs| - 1;
    var ys := xs[..last];
    assert r[i] in Dedup(ys);
    if r[j] in ys {
      DedupOrder(ys, i, j);
      FirstPositionInPrefix(xs, last, r[i]);
      FirstPositionInPrefix(xs, last, r[j]);
    } else {
      FirstPositionInPrefix(xs, last, r[i]);
      assert forall k :: 0 <= k < last ==> xs[k] == ys[k];
    }
  }

  lemma {:induction false} FirstPositionInPrefix<T>(xs: seq<T>, n: nat, x: T)
    requires n <= |xs| && x in xs[..n]
    ensures Position(xs, x) == Position(xs[..n], x)
  {
    assert xs[Position(xs[..n], x).value] == x;
  }
}
