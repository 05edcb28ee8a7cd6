/** Array.prototype.sort: a stable sort by a comparison. */
module StableSort {

  ghost predicate TotalPreorder<T(!new)>(le: (T, T) -> bool) {
    && (forall a, b :: le(a, b) || le(b, a))
    && (forall a, b, c :: le(a, b) && le(b, c) ==> le(a, c))
  }

  ghost predicate Sorted<T>(le: (T, T) -> bool, xs: seq<T>) {
    forall i, j :: 0 <= i < j < |xs| ==> le(xs[i], xs[j])
  }

  // Before the first element it may precede, so behind none of its equals.
  function Insert<T>(le: (T, T) -> bool, x: T, xs: seq<T>): (r: seq<T>)
    ensures multiset(r) == multiset(xs) + multiset{x}
  {
    if xs == [] || le(x, xs[0]) then [x] + xs
    else
      assert xs == [xs[0]] + xs[1..];
      [xs[0]] + Insert(le, x, xs[1..])
  }

  function Sort<T>(le: (T, T) -> bool, xs: seq<T>): (r: seq<T>)
    ensures multiset(r) == multiset(xs)
    ensures |r| == |xs|
  {
    if xs == [] then []
    else
      assert xs == [xs[0]] + xs[1..];
      var r := Insert(le, xs[0], Sort(le, xs[1..]));
      assert |multiset(r)| == |multiset(xs)|;
      r
  }

  lemma SameElements<T>(xs: seq<T>, ys: seq<T>)
    requires multiset(xs) == multiset(ys)
    ensures forall x :: x in xs <==> x in ys
    ensures |xs| == |ys|
  {
    assert |multiset(xs)| == |multiset(ys)|;
    forall x
      ensures x in xs <==> x in ys
    {
      assert x in xs <==> x in multiset(xs);
      assert x in ys <==> x in multiset(ys);
    }
  }

  lemma {:induction false} InsertSorted<T(!new)>(le: (T, T) -> bool, x: T, xs: seq<T>)
    requires TotalPreorder(le) && Sorted(le, xs)
    ensures Sorted(le, Insert(le, x, xs))
  {
    if xs != [] && !le(x, xs[0]) {
      InsertSorted(le, x, xs[1..]);
      var rest := Insert(le, x, xs[1..]);
      forall j | 0 <= j < |rest|
        ensures le(xs[0], rest[j])
      {
        assert rest[j] in multiset(rest);
        assert rest[j] == x || rest[j] in xs[1..];
      }
    }
  }

  lemma {:induction false} SortSorts<T(!new)>(le: (T, T) -> bool, xs: seq<T>)
    requires TotalPreorder(le)
    ensures Sorted(le, Sort(le, xs))
  {
    if xs != [] {
      SortSorts(le, xs[1..]);
      InsertSorted(le, xs[0], Sort(le, xs[1..]));
    }
  }

  lemma {:induction false} SortOfSorted<T>(le: (T, T) -> bool, xs: seq<T>)
    requires Sorted(le, xs)
    ensures Sort(le, xs) == xs
  {
    if xs != [] {
      SortOfSorted(le, xs[1..]);
      assert xs == [xs[0]] + xs[1..];
      if |xs| > 1 {
        assert le(xs[0], xs[1]);
      }
    }
  }

  lemma SortedHead<T(!new)>(le: (T, T) -> bool, xs: seq<T>, x: T)
    requires TotalPreorder(le) && Sorted(le, xs) && x in xs
    ensures le(xs[0], x)
  {
    var i :| 0 <= i < |xs| && xs[i] == x;
    assert le(xs[0], xs[0]);
  }

  // No two different elements stand level.
  ghost predicate Strict<T(!new)>(le: (T, T) -> bool, xs: seq<T>) {
    forall a, b :: a in xs && b in xs && le(a, b) && le(b, a) ==> a == b
  }

  lemma SortedHeadsAgree<T(!new)>(le: (T, T) -> bool, xs: seq<T>, ys: seq<T>)
    requires TotalPreorder(le) && xs != [] && ys != []
    requires multiset(xs) == multiset(ys) && Sorted(le, xs) && Sorted(le, ys) && Strict(le, xs)
    ensures xs[0] == ys[0]
    ensures multiset(xs[1..]) == multiset(ys[1..])
  {
    SameElements(xs, ys);
    SortedHead(le, xs, ys[0]);
    SortedHead(le, ys, xs[0]);
    TailElements(xs);
    TailElements(ys);
  }

  lemma TailElements<T>(xs: seq<T>)
    requires xs != []
    ensures multiset(xs[1..]) == multiset(xs) - multiset{xs[0]}
  {
    assert xs == [xs[0]] + xs[1..];
  }

  lemma TailStrict<T(!new)>(le: (T, T) -> bool, xs: seq<T>)
    requires xs != [] && Strict(le, xs)
    ensures Strict(le, xs[1..])
  {
    assert forall a :: a in xs[1..] ==> a in xs;
  }

  // Under a strict order two sorted arrangements of the same elements agree.
  lemma {:induction false} SortedUnique<T(!new)>(le: (T, T) -> bool, xs: seq<T>, ys: seq<T>)
    requires TotalPreorder(le)
    requires multiset(xs) == multiset(ys) && Sorted(le, xs) && Sorted(le, ys) && Strict(le, xs)
    ensures xs == ys
    decreases |xs|
  {
    SameElements(xs, ys);
    if xs != [] {
      SortedHeadsAgree(le, xs, ys);
      TailStrict(le, xs);
      SortedUnique(le, xs[1..], ys[1..]);
      assert xs == [xs[0]] + xs[1..] && ys == [ys[0]] + ys[1..];
    }
  }

  lemma {:induction false} InsertCommutes<T(!new)>(le: (T, T) -> bool, x: T, y: T, xs: seq<T>)
    requires TotalPreorder(le) && le(x, y) && !le(y, x)
    ensures Insert(le, x, Insert(le, y, xs)) == Insert(le, y, Insert(le, x, xs))
    decreases |xs|
  {
    if xs != [] && !le(y, xs[0]) {
      assert Insert(le, y, xs)[1..] == Insert(le, y, xs[1..]);
      if le(x, xs[0]) {
        assert ([x] + xs)[1..] == xs;
      } else {
        InsertCommutes(le, x, y, xs[1..]);
        assert Insert(le, x, xs)[1..] == Insert(le, x, xs[1..]);
      }
    } else {
      assert Insert(le, x, xs) == [x] + xs;
      assert ([x] + xs)[1..] == xs;
    }
  }

  // Elements level in the finer order are level in the coarser one.
  ghost predicate Refines<T(!new)>(fine: (T, T) -> bool, coarse: (T, T) -> bool) {
    forall a, b :: fine(a, b) && fine(b, a) ==> coarse(a, b) && coarse(b, a)
  }

  lemma {:induction false} SortAfterInsert<T(!new)>(fine: (T, T) -> bool, coarse: (T, T) -> bool, x: T, xs: seq<T>)
    requires TotalPreorder(fine) && TotalPreorder(coarse) && Refines(fine, coarse)
    ensures Sort(fine, Insert(coarse, x, xs)) == Insert(fine, x, Sort(fine, xs))
    decreases |xs|
  {
    if xs == [] || coarse(x, xs[0]) {
      assert ([x] + xs)[1..] == xs;
    } else {
      var rest := Insert(coarse, x, xs[1..]);
      assert ([xs[0]] + rest)[1..] == rest;
      SortAfterInsert(fine, coarse, x, xs[1..]);
      if fine(x, xs[0]) {
        InsertCommutes(fine, x, xs[0], Sort(fine, xs[1..]));
      } else {
        InsertCommutes(fine, xs[0], x, Sort(fine, xs[1..]));
      }
    }
  }

  // Sorting by a coarser order first makes no difference to a stable sort.
  lemma {:induction false} SortAfterSort<T(!new)>(fine: (T, T) -> bool, coarse: (T, T) -> bool, xs: seq<T>)
    requires TotalPreorder(fine) && TotalPreorder(coarse) && Refines(fine, coarse)
    ensures Sort(fine, Sort(coarse, xs)) == Sort(fine, xs)
  {
    if xs != [] {
      SortAfterSort(fine, coarse, xs[1..]);
      SortAfterInsert(fine, coarse, xs[0], Sort(coarse, xs[1..]));
    }
  }

  function RemoveAt<T>(xs: seq<T>, i: nat): seq<T>
    requires i < |xs|
  {
    xs[..i] + xs[i + 1..]
  }

  // Where the head of one arrangement sits in another.
  lemma HeadIn<T>(xs: seq<T>, ys: seq<T>) returns (i: nat)
    requires xs != [] && multiset(xs) == multiset(ys)
    ensures i < |ys| && ys[i] == xs[0]
    ensures multiset(xs[1..]) == multiset(RemoveAt(ys, i))
  {
    SameElements(xs, ys);
    assert xs == [xs[0]] + xs[1..];
    assert xs[0] in ys;
    i :| 0 <= i < |ys| && ys[i] == xs[0];
    assert ys == ys[..i] + [ys[i]] + ys[i + 1..];
    assert multiset(RemoveAt(ys, i)) == multiset(ys) - multiset{xs[0]};
  }
}
