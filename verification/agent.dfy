/**
 * The agent's rotating choice of nodes to sample (usage_stats.go).
 */
module AgentSelection {
  import opened LockKeys
  import opened StableSort

  datatype Node = Node(id: string, usage: bool)

  const BATCH := 20

  function Eligible(nodes: seq<Node>): (r: seq<Node>)
    ensures forall n :: n in r <==> n in nodes && n.usage
  {
    if nodes == [] then []
    else (if nodes[0].usage then [nodes[0]] else []) + Eligible(nodes[1..])
  }

  lemma {:induction false} EligibleAppend(nodes: seq<Node>, n: Node)
    ensures Eligible(nodes + [n]) == Eligible(nodes) + if n.usage then [n] else []
  {
    if nodes == [] {
      assert nodes + [n] == [n] && [n][1..] == [];
    } else {
      assert (nodes + [n])[1..] == nodes[1..] + [n];
      EligibleAppend(nodes[1..], n);
    }
  }

  function ById(): (Node, Node) -> bool {
    (a: Node, b: Node) => a.id == b.id || Less(a.id, b.id)
  }

  ghost predicate DistinctIds(nodes: seq<Node>) {
    forall i, j :: 0 <= i < j < |nodes| ==> nodes[i].id != nodes[j].id
  }

  lemma ByIdOrders()
    ensures TotalPreorder(ById())
  {
    forall a: Node, b: Node
      ensures ById()(a, b) || ById()(b, a)
    {
      LessTotal(a.id, b.id);
    }
    forall a: Node, b: Node, c: Node | ById()(a, b) && ById()(b, c)
      ensures ById()(a, c)
    {
      if a.id != b.id && b.id != c.id {
        LessTransitive(a.id, b.id, c.id);
      }
    }
  }

  // The window of a batch on the sorted list.
  ghost predicate Window(sorted: seq<Node>, cursor: nat, selected: seq<Node>)
    requires sorted != []
  {
    |selected| == BATCH && forall i :: 0 <= i < BATCH ==> selected[i] == sorted[(cursor + i) % |sorted|]
  }

  method SelectUsageNodes(nodes: seq<Node>, cursor: nat) returns (selected: seq<Node>, next: nat)
    ensures |Eligible(nodes)| <= BATCH ==> selected == Eligible(nodes) && next == 0
    ensures |Eligible(nodes)| > BATCH ==>
      Window(Sort(ById(), Eligible(nodes)), cursor, selected) && next == (cursor + BATCH) % |Eligible(nodes)|
  {
    var eligible: seq<Node> := [];
    for i := 0 to |nodes|
      invariant eligible == Eligible(nodes[..i])
    {
      assert nodes[..i + 1] == nodes[..i] + [nodes[i]];
      EligibleAppend(nodes[..i], nodes[i]);
      if nodes[i].usage {
        eligible := eligible + [nodes[i]];
      }
    }
    assert nodes[..|nodes|] == nodes;
    if |eligible| <= BATCH {
      return eligible, 0;
    }
    eligible := Sort(ById(), eligible);
    selected := [];
    for i := 0 to BATCH
      invariant |selected| == i
      invariant forall k :: 0 <= k < i ==> selected[k] == eligible[(cursor + k) % |eligible|]
    {
      selected := selected + [eligible[(cursor + i) % |eligible|]];
    }
    next := (cursor + |selected|) % |eligible|;
  }

  // ── Rotation ─────────────────────────────────────────────────────────────

  lemma {:induction false} ModOfMultiple(q: nat, n: nat, r: nat)
    requires r < n
    ensures (q * n + r) % n == r
  {
    if q > 0 {
      ModOfMultiple(q - 1, n, r);
      ModStep((q - 1) * n + r, n);
      assert q * n + r == (q - 1) * n + r + n;
    }
  }

  lemma ModStep(a: nat, n: nat)
    requires n > 0
    ensures (a + n) % n == a % n
  {
    var q, r := a / n, a % n;
    assert a + n == (q + 1) * n + r;
    assert ((a + n) / n - (q + 1)) * n == r - (a + n) % n;
    ModUnique((a + n) / n - (q + 1), n, r - (a + n) % n);
  }

  lemma AtLeast(k: nat, n: nat)
    ensures k > 0 ==> k * n >= n
  {
    if k > 0 {
      assert (k - 1) * n >= 0;
    }
  }

  lemma ModUnique(k: int, n: nat, d: int)
    requires n > 0 && k * n == d && 0 - n < d < n
    ensures k == 0 && d == 0
  {
    AtLeast(if k < 0 then -k else k, n);
    assert (-k) * n == -d;
  }

  lemma ModAdd(a: nat, b: nat, n: nat)
    requires n > 0
    ensures (a % n + b) % n == (a + b) % n
  {
    var q, s := a / n, (a % n + b) / n;
    var r := (a % n + b) % n;
    Distribute(q, s, n);
    assert a + b == (q + s) * n + r;
    ModOfMultiple(q + s, n, r);
  }

  lemma Distribute(q: nat, s: nat, n: nat)
    ensures (q + s) * n == q * n + s * n
  {
  }

  // Cursors of consecutive calls.
  function CursorAt(cursor: nat, k: nat, n: nat): nat
    requires n > 0
  {
    if k == 0 then cursor else (CursorAt(cursor, k - 1, n) + BATCH) % n
  }

  lemma {:induction false} CursorIs(cursor: nat, k: nat, n: nat)
    requires n > 0
    ensures CursorAt(cursor, k, n) % n == (cursor + BATCH * k) % n
  {
    if k > 0 {
      CursorIs(cursor, k - 1, n);
      var c := CursorAt(cursor, k - 1, n);
      ModAdd(c, BATCH, n);
      ModAdd(cursor + BATCH * (k - 1), BATCH, n);
      ModSmall((c + BATCH) % n, n);
    }
  }

  lemma ModSmall(a: nat, n: nat)
    requires a < n
    ensures a % n == a
  {
  }

  // Two places of one window less than a round apart are different.
  lemma WindowApart(cursor: nat, i: nat, j: nat, n: nat)
    requires i < j < i + n
    ensures (cursor + i) % n != (cursor + j) % n
  {
    if (cursor + i) % n == (cursor + j) % n {
      var p, q := (cursor + i) / n, (cursor + j) / n;
      assert (q - p) * n == j - i;
      ModUnique(q - p, n, j - i);
    }
  }

  // Some call's window holds the place.
  lemma PlaceVisited(cursor: nat, n: nat, place: nat) returns (k: nat, i: nat)
    requires n > BATCH && place < n
    ensures k < (n + BATCH - 1) / BATCH && i < BATCH
    ensures (CursorAt(cursor, k, n) + i) % n == place
  {
    var d := (place + n - cursor % n) % n;
    k, i := d / BATCH, d % BATCH;
    CursorIs(cursor, k, n);
    var c := CursorAt(cursor, k, n);
    ModAdd(c, i, n);
    ModAdd(cursor + BATCH * k, i, n);
    assert (c + i) % n == (cursor + d) % n;
    ModAdd(cursor, d, n);
    ModAdd(place + n - cursor % n, cursor % n, n);
    ModStep(place, n);
    ModSmall(place, n);
  }

  // ── Any run of calls over the same eligible nodes ────────────────────────

  // Calls see the nodes in any order, with any ineligible ones between.
  ghost predicate Calls(lists: seq<seq<Node>>, cursors: seq<nat>, selections: seq<seq<Node>>, stable: seq<Node>)
    requires |stable| > BATCH
  {
    && |selections| == |lists| && |cursors| == |lists| + 1
    && (forall k :: 0 <= k < |lists| ==> multiset(Eligible(lists[k])) == multiset(stable))
    && (forall k :: 0 <= k < |lists| ==> Called(lists[k], cursors[k], selections[k], cursors[k + 1]))
  }

  // What SelectUsageNodes promises for more than one batch.
  ghost predicate Called(nodes: seq<Node>, cursor: nat, selected: seq<Node>, next: nat) {
    && |Eligible(nodes)| > BATCH
    && Window(Sort(ById(), Eligible(nodes)), cursor, selected) && next == (cursor + BATCH) % |Eligible(nodes)|
  }

  lemma SameSorted(nodes: seq<Node>, stable: seq<Node>)
    requires multiset(Eligible(nodes)) == multiset(stable) && DistinctIds(stable)
    ensures Sort(ById(), Eligible(nodes)) == Sort(ById(), stable)
    ensures |Eligible(nodes)| == |stable|
  {
    var sorted := Sort(ById(), stable);
    ByIdOrders();
    SortSorts(ById(), stable);
    SortSorts(ById(), Eligible(nodes));
    SameElements(Eligible(nodes), stable);
    SortedIdsDiffer(stable);
    SortedUnique(ById(), sorted, Sort(ById(), Eligible(nodes)));
  }

  lemma SortedIdsDiffer(stable: seq<Node>)
    requires DistinctIds(stable)
    ensures DistinctIds(Sort(ById(), stable)) && Strict(ById(), Sort(ById(), stable))
  {
    ByIdOrders();
    SortSorts(ById(), stable);
    PermutedIdsDiffer(stable, Sort(ById(), stable));
    StrictById(Sort(ById(), stable));
  }

  lemma StrictById(sorted: seq<Node>)
    requires DistinctIds(sorted) && Sorted(ById(), sorted)
    ensures Strict(ById(), sorted)
  {
    forall i, j | 0 <= i < j < |sorted|
      ensures ById()(sorted[i], sorted[j]) && !ById()(sorted[j], sorted[i])
    {
      assert ById()(sorted[i], sorted[j]);
      LessTotal(sorted[i].id, sorted[j].id);
    }
  }

  lemma {:induction false} PermutedIdsDiffer(xs: seq<Node>, ys: seq<Node>)
    requires DistinctIds(xs) && multiset(xs) == multiset(ys)
    ensures DistinctIds(ys)
    decreases |ys|
  {
    if ys != [] {
      var i := HeadIn(ys, xs);
      var rest := RemoveAt(xs, i);
      RemovedIdsDiffer(xs, i);
      PermutedIdsDiffer(rest, ys[1..]);
      SameElements(rest, ys[1..]);
      forall j | 0 < j < |ys|
        ensures ys[j].id != ys[0].id
      {
        assert ys[j] == ys[1..][j - 1] && ys[j] in rest;
      }
      forall j, k | 0 < j < k < |ys|
        ensures ys[j].id != ys[k].id
      {
        assert ys[j] == ys[1..][j - 1] && ys[k] == ys[1..][k - 1];
      }
    }
  }

  lemma {:induction false} RemovedIdsDiffer(xs: seq<Node>, i: nat)
    requires DistinctIds(xs) && i < |xs|
    ensures DistinctIds(RemoveAt(xs, i)) && forall n <- RemoveAt(xs, i) :: n in xs && n.id != xs[i].id
  {
    HeadIdDiffers(xs);
    if i == 0 {
      assert RemoveAt(xs, i) == xs[1..];
    } else {
      RemovedIdsDiffer(xs[1..], i - 1);
      ConsIdsDiffer(xs[0], RemoveAt(xs[1..], i - 1));
      assert RemoveAt(xs, i) == [xs[0]] + RemoveAt(xs[1..], i - 1);
      assert xs[i] in xs[1..];
    }
  }

  lemma HeadIdDiffers(xs: seq<Node>)
    requires DistinctIds(xs) && xs != []
    ensures DistinctIds(xs[1..]) && forall n <- xs[1..] :: n in xs && n.id != xs[0].id
  {
  }

  lemma ConsIdsDiffer(x: Node, xs: seq<Node>)
    requires DistinctIds(xs) && forall n <- xs :: n.id != x.id
    ensures DistinctIds([x] + xs)
  {
    assert forall k :: 0 <= k < |xs| ==> xs[k] in xs;
  }

  // Every call takes its window of one and the same list.
  ghost predicate Rotates(sorted: seq<Node>, cursors: seq<nat>, selections: seq<seq<Node>>)
    requires sorted != []
  {
    && |cursors| == |selections| + 1
    && forall k :: 0 <= k < |selections| ==> Turn(sorted, cursors[k], selections[k], cursors[k + 1])
  }

  ghost predicate Turn(sorted: seq<Node>, cursor: nat, selected: seq<Node>, next: nat)
    requires sorted != []
  {
    Window(sorted, cursor, selected) && next == (cursor + BATCH) % |sorted|
  }

  lemma CallsRotate(lists: seq<seq<Node>>, cursors: seq<nat>, selections: seq<seq<Node>>, stable: seq<Node>)
    requires |stable| > BATCH && DistinctIds(stable) && Calls(lists, cursors, selections, stable)
    ensures Rotates(Sort(ById(), stable), cursors, selections)
  {
    forall k | 0 <= k < |selections|
      ensures Turn(Sort(ById(), stable), cursors[k], selections[k], cursors[k + 1])
    {
      CalledOnStable(lists[k], cursors[k], selections[k], cursors[k + 1], stable);
    }
  }

  lemma CalledOnStable(nodes: seq<Node>, cursor: nat, selected: seq<Node>, next: nat, stable: seq<Node>)
    requires |stable| > BATCH && DistinctIds(stable) && multiset(Eligible(nodes)) == multiset(stable)
    requires Called(nodes, cursor, selected, next)
    ensures Turn(Sort(ById(), stable), cursor, selected, next)
  {
    SameSorted(nodes, stable);
  }

  lemma {:induction false} CursorsFollow(sorted: seq<Node>, cursors: seq<nat>, selections: seq<seq<Node>>, k: nat)
    requires sorted != [] && Rotates(sorted, cursors, selections) && k <= |selections|
    ensures cursors[k] == CursorAt(cursors[0], k, |sorted|)
  {
    if k > 0 {
      CursorsFollow(sorted, cursors, selections, k - 1);
      assert Turn(sorted, cursors[k - 1], selections[k - 1], cursors[k - 1 + 1]);
    }
  }

  lemma SelectedAt(sorted: seq<Node>, cursors: seq<nat>, selections: seq<seq<Node>>, k: nat, i: nat)
    requires sorted != [] && Rotates(sorted, cursors, selections) && k < |selections| && i < BATCH
    ensures sorted[(CursorAt(cursors[0], k, |sorted|) + i) % |sorted|] in selections[k]
  {
    CursorsFollow(sorted, cursors, selections, k);
    assert Turn(sorted, cursors[k], selections[k], cursors[k + 1]);
    assert selections[k][i] in selections[k];
  }

  function Round(n: nat): nat {
    (n + BATCH - 1) / BATCH
  }

  // From any cursor, one round of calls selects every node.
  lemma EveryNodeIsSelected(lists: seq<seq<Node>>, cursors: seq<nat>, selections: seq<seq<Node>>, stable: seq<Node>,
                            n: Node)
    requires |stable| > BATCH && DistinctIds(stable) && Calls(lists, cursors, selections, stable) && n in stable
    requires |lists| >= Round(|stable|)
    ensures exists k :: 0 <= k < Round(|stable|) && n in selections[k]
  {
    var place := PlaceOf(stable, n);
    var k, i := PlaceVisited(cursors[0], |stable|, place);
    CallsRotate(lists, cursors, selections, stable);
    SelectedAt(Sort(ById(), stable), cursors, selections, k, i);
  }

  lemma PlaceOf(stable: seq<Node>, n: Node) returns (place: nat)
    requires n in stable
    ensures place < |stable| && Sort(ById(), stable)[place] == n
  {
    var sorted := Sort(ById(), stable);
    SameElements(stable, sorted);
    place :| 0 <= place < |sorted| && sorted[place] == n;
  }

  // One call never selects a node twice.
  lemma NoNodeTwice(nodes: seq<Node>, cursor: nat, selected: seq<Node>, next: nat)
    requires DistinctIds(Eligible(nodes)) && Called(nodes, cursor, selected, next)
    ensures DistinctIds(selected) && forall n <- selected :: n in nodes && n.usage
  {
    var sorted := Sort(ById(), Eligible(nodes));
    SortedIdsDiffer(Eligible(nodes));
    SameElements(Eligible(nodes), sorted);
    forall i, j | 0 <= i < j < |selected|
      ensures selected[i].id != selected[j].id
    {
      WindowApart(cursor, i, j, |sorted|);
      var a, b := (cursor + i) % |sorted|, (cursor + j) % |sorted|;
      assert if a < b then sorted[a].id != sorted[b].id else sorted[b].id != sorted[a].id;
    }
    forall i | 0 <= i < |selected|
      ensures selected[i] in Eligible(nodes)
    {
      assert sorted[(cursor + i) % |sorted|] in sorted;
    }
  }
}
