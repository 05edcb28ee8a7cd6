/** Sequences filtered by a condition, and sequences whose elements have ids. */
module Identified {

  function Keep<T(!new)>(xs: seq<T>, wanted: T -> bool): (r: seq<T>)
    ensures forall x :: x in r <==> x in xs && wanted(x)
    ensures |r| <= |xs|
  {
    if xs == [] then [] else (if wanted(xs[0]) then [xs[0]] else []) + Keep(xs[1..], wanted)
  }

  lemma KeepCons<T(!new)>(head: T, tail: seq<T>, wanted: T -> bool)
    ensures Keep([head] + tail, wanted) == (if wanted(head) then [head] else []) + Keep(tail, wanted)
  {
    assert ([head] + tail)[1..] == tail;
  }

  lemma {:induction false} KeepAppend<T(!new)>(xs: seq<T>, x: T, wanted: T -> bool)
    ensures Keep(xs + [x], wanted) == Keep(xs, wanted) + if wanted(x) then [x] else []
  {
    if xs == [] {
      assert xs + [x] == [x] && [x][1..] == [];
    } else {
      assert (xs + [x])[1..] == xs[1..] + [x];
      KeepAppend(xs[1..], x, wanted);
    }
  }

  lemma {:induction false} KeepAll<T(!new)>(xs: seq<T>, wanted: T -> bool)
    requires forall x <- xs :: wanted(x)
    ensures Keep(xs, wanted) == xs
  {
    if xs != [] {
      KeepAll(xs[1..], wanted);
    }
  }

  predicate Distinct<T>(xs: seq<T>, idOf: T -> string) {
    forall i, j :: 0 <= i < j < |xs| ==> idOf(xs[i]) != idOf(xs[j])
  }

  lemma AppendDistinct<T>(xs: seq<T>, x: T, idOf: T -> string)
    requires Distinct(xs, idOf) && forall y <- xs :: idOf(y) != idOf(x)
    ensures Distinct(xs + [x], idOf)
  {
    assert forall k :: 0 <= k < |xs| ==> xs[k] in xs;
  }

  function NotId<T>(idOf: T -> string, id: string): T -> bool {
    (x: T) => idOf(x) != id
  }

  // The elements but those with an id.
  function Without<T(!new)>(xs: seq<T>, idOf: T -> string, id: string): seq<T> {
    Keep(xs, NotId(idOf, id))
  }

  lemma {:induction false} KeepDistinct<T(!new)>(xs: seq<T>, wanted: T -> bool, idOf: T -> string)
    requires Distinct(xs, idOf)
    ensures Distinct(Keep(xs, wanted), idOf)
  {
    if xs != [] {
      KeepDistinct(xs[1..], wanted, idOf);
      var rest := Keep(xs[1..], wanted);
      assert forall y <- xs[1..] :: idOf(y) != idOf(xs[0]);
      assert forall k :: 0 <= k < |rest| ==> rest[k] in rest;
    }
  }

  lemma WithoutFirst<T(!new)>(xs: seq<T>, idOf: T -> string)
    requires Distinct(xs, idOf) && xs != []
    ensures Without(xs, idOf, idOf(xs[0])) == xs[1..]
  {
    assert forall y <- xs[1..] :: idOf(y) != idOf(xs[0]);
    KeepAll(xs[1..], NotId(idOf, idOf(xs[0])));
  }

  lemma WithoutLater<T(!new)>(xs: seq<T>, x: T, idOf: T -> string)
    requires Distinct(xs, idOf) && xs != [] && x in xs[1..]
    ensures Without(xs, idOf, idOf(x)) == [xs[0]] + Without(xs[1..], idOf, idOf(x))
  {
  }

  // Deleting one element takes it from its own class and leaves every other one, in order.
  lemma {:induction false} DeleteOne<T(!new)>(xs: seq<T>, x: T, wanted: T -> bool, idOf: T -> string)
    requires Distinct(xs, idOf) && x in xs
    ensures !wanted(x) ==> Keep(Without(xs, idOf, idOf(x)), wanted) == Keep(xs, wanted)
    ensures wanted(x) ==> |Keep(Without(xs, idOf, idOf(x)), wanted)| == |Keep(xs, wanted)| - 1
  {
    var head, tail := xs[0], xs[1..];
    assert xs == [head] + tail;
    KeepCons(head, tail, wanted);
    if head == x {
      WithoutFirst(xs, idOf);
    } else {
      DeleteOne(tail, x, wanted, idOf);
      WithoutLater(xs, x, idOf);
      KeepCons(head, Without(tail, idOf, idOf(x)), wanted);
    }
  }
}
