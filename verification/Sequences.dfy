/**
 Gathering lists out of lists.
 */
module Sequences {

  /** What `f` makes of each element, in order. */
  function Collect<A, B>(f: A -> seq<B>, xs: seq<A>): seq<B> {
    if xs == [] then [] else Collect(f, xs[..|xs| - 1]) + f(xs[|xs| - 1])
  }

  lemma {:induction false} CollectMore<A, B>(f: A -> seq<B>, xs: seq<A>, x: A)
    ensures Collect(f, xs + [x]) == Collect(f, xs) + f(x)
  {
    assert (xs + [x])[..|xs|] == xs;
  }

  lemma {:induction false} CollectOne<A, B>(f: A -> seq<B>, x: A)
    ensures Collect(f, [x]) == f(x)
  {
    CollectMore(f, [], x);
    assert [] + [x] == [x];
    assert [] + f(x) == f(x);
  }

  lemma {:induction false} CollectOfConcat<A, B>(f: A -> seq<B>, xs: seq<A>, ys: seq<A>)
    ensures Collect(f, xs + ys) == Collect(f, xs) + Collect(f, ys)
  {
    if ys == [] {
      assert xs + ys == xs;
      assert Collect(f, xs) + [] == Collect(f, xs);
    } else {
      var front, y := ys[..|ys| - 1], ys[|ys| - 1];
      CollectOfConcat(f, xs, front);
      CollectMore(f, xs + front, y);
      assert xs + front + [y] == xs + ys;
      assert Collect(f, xs) + Collect(f, front) + f(y) == Collect(f, xs) + (Collect(f, front) + f(y));
    }
  }

  lemma {:induction false} CollectFirst<A, B>(f: A -> seq<B>, xs: seq<A>)
    requires xs != []
    ensures Collect(f, xs) == f(xs[0]) + Collect(f, xs[1..])
  {
    assert xs == [xs[0]] + xs[1..];
    CollectOfConcat(f, [xs[0]], xs[1..]);
    CollectOne(f, xs[0]);
  }

  lemma {:induction false} CollectNothing<A, B>(f: A -> seq<B>, xs: seq<A>)
    requires forall x :: x in xs ==> f(x) == []
    ensures Collect(f, xs) == []
  {
    if xs != [] {
      CollectNothing(f, xs[..|xs| - 1]);
      assert xs[|xs| - 1] in xs;
    }
  }

  /** The lists from position `i` on, one after the other. */
  function FlatFrom<T>(parts: seq<seq<T>>, i: nat): seq<T>
    requires i <= |parts|
    decreases |parts| - i
  {
    if i == |parts| then [] else parts[i] + FlatFrom(parts, i + 1)
  }

  /** Gathering out of joined lists is joining what is gathered out of each. */
  lemma {:induction false} CollectOfFlat<A, B>(f: A -> seq<B>, parts: seq<seq<A>>, gathered: seq<seq<B>>, i: nat)
    requires |gathered| == |parts| && i <= |parts|
    requires forall k :: 0 <= k < |parts| ==> gathered[k] == Collect(f, parts[k])
    ensures Collect(f, FlatFrom(parts, i)) == FlatFrom(gathered, i)
    decreases |parts| - i
  {
    if i < |parts| {
      CollectOfFlat(f, parts, gathered, i + 1);
      CollectOfConcat(f, parts[i], FlatFrom(parts, i + 1));
    }
  }

  lemma {:induction false} FlatSnoc<T>(parts: seq<seq<T>>, last: seq<T>, i: nat)
    requires i <= |parts|
    ensures FlatFrom(parts + [last], i) == FlatFrom(parts, i) + last
    decreases |parts| - i
  {
    var all := parts + [last];
    if i < |parts| {
      FlatSnoc(parts, last, i + 1);
      assert all[i] == parts[i];
      assert parts[i] + (FlatFrom(parts, i + 1) + last) == parts[i] + FlatFrom(parts, i + 1) + last;
    } else {
      assert all[i] == last && FlatFrom(all, i + 1) == [];
      assert last + [] == [] + last;
    }
  }
}
