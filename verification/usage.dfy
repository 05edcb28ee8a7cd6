/**
 * Traffic accounting from counter samples (usage.service.ts, usage.util.ts):
 * samples arrive lost, duplicated or late, across core restarts and pauses.
 */
module UsageAccounting {
  import opened Common

  type Id = string

  datatype Bytes = Bytes(up: nat, down: nat)

  // live: installed and not removed. sampledAt is in milliseconds; last holds the counters then.
  datatype Row = Row(sub: Id, live: bool, sampledAt: Option<int>, last: Bytes, buckets: map<Hour, Bytes>)

  datatype Node = Node(server: Id, prepared: bool, sampledAt: Option<int>, sampleId: Option<Id>, uptime: Option<nat>,
    rows: map<Id, Row>)

  datatype Sample = Sample(node: Id, id: Id, at: int, uptime: nat, failed: bool, users: seq<(string, Bytes)>)

  // A bucket begins with an hour.
  datatype Hour = Hour(start: int)

  const FRESH := 90000
  const HOUR_MS := 3600000
  const NONE := Bytes(0, 0)

  function UsageEmail(id: Id): string {
    "np-usage-" + id
  }

  // ── One sample ───────────────────────────────────────────────────────────

  function Distance(a: int, b: int): nat {
    if a < b then b - a else a - b
  }

  predicate DistinctEmails(users: seq<(string, Bytes)>) {
    forall i, j :: 0 <= i < j < |users| ==> users[i].0 != users[j].0
  }

  function StatOf(users: seq<(string, Bytes)>, email: string): Bytes {
    if users == [] then NONE else if users[0].0 == email then users[0].1 else StatOf(users[1..], email)
  }

  // counterDelta, in bytes.
  function CounterDelta(current: nat, previous: nat, elapsed: int, baseline: bool): nat {
    if baseline || elapsed <= 0 || elapsed > FRESH || current < previous then 0 else current - previous
  }

  // The core restarted, or its clock and the agent's disagree.
  predicate Reset(n: Node, s: Sample) {
    || n.uptime.None? || s.uptime < n.uptime.value
    || Distance((s.uptime - n.uptime.value) * 1000, Elapsed(n, s)) > 3000
  }

  function Elapsed(n: Node, s: Sample): int {
    if n.sampledAt.Some? then s.at - n.sampledAt.value else 0
  }

  predicate Usable(server: Id, n: Node, s: Sample) {
    && n.server == server && n.prepared && n.sampleId != Some(s.id)
    && (n.sampledAt.Some? ==> n.sampledAt.value < s.at)
    && !s.failed && DistinctEmails(s.users)
  }

  function AddTo(buckets: map<Hour, Bytes>, hour: Hour, b: Bytes): map<Hour, Bytes> {
    if b == NONE then buckets
    else if hour in buckets then buckets[hour := Bytes(buckets[hour].up + b.up, buckets[hour].down + b.down)]
    else buckets[hour := b]
  }

  function Gain(n: Node, row: Row, s: Sample, stat: Bytes): Bytes {
    var baseline := Reset(n, s) || row.sampledAt.None? || row.sampledAt != n.sampledAt;
    Bytes(CounterDelta(stat.up, row.last.up, Elapsed(n, s), baseline),
      CounterDelta(stat.down, row.last.down, Elapsed(n, s), baseline))
  }

  function HourOf(at: int): Hour {
    Hour(at / HOUR_MS * HOUR_MS)
  }

  function RowAfter(n: Node, row: Row, s: Sample, stat: Bytes): Row {
    row.(sampledAt := Some(s.at), last := stat, buckets := AddTo(row.buckets, HourOf(s.at), Gain(n, row, s, stat)))
  }

  predicate Counted(row: Row, enabled: set<Id>) {
    row.live && row.sub in enabled
  }

  function Accept(n: Node, s: Sample, enabled: set<Id>): Node {
    n.(sampledAt := Some(s.at), sampleId := Some(s.id), uptime := Some(s.uptime),
       rows := map c | c in n.rows :: RowIn(n, c, s, enabled))
  }

  function RowIn(n: Node, c: Id, s: Sample, enabled: set<Id>): Row
    requires c in n.rows
  {
    if Counted(n.rows[c], enabled) then RowAfter(n, n.rows[c], s, StatOf(s.users, UsageEmail(c))) else n.rows[c]
  }

  predicate Fresh(now: int, s: Sample) {
    Distance(now, s.at) <= FRESH
  }

  // What one sample does to the nodes.
  function Take(nodes: map<Id, Node>, enabled: set<Id>, server: Id, now: int, s: Sample): map<Id, Node> {
    if Fresh(now, s) && s.node in nodes && Usable(server, nodes[s.node], s) then
      nodes[s.node := Accept(nodes[s.node], s, enabled)]
    else nodes
  }

  // What a pause or its end does to the rows of a subscription.
  function Paused(n: Node, sub: Id): Node {
    n.(rows := map c | c in n.rows :: if n.rows[c].sub == sub then n.rows[c].(sampledAt := None) else n.rows[c])
  }

  // ── Totals ───────────────────────────────────────────────────────────────

  ghost function Any(hours: set<Hour>): (h: Hour)
    requires hours != {}
    ensures h in hours
  {
    assert |hours| != 0;
    var h :| h in hours;
    h
  }

  ghost function SumUp(b: map<Hour, Bytes>): nat {
    if b == map[] then 0 else var h := Any(b.Keys); b[h].up + SumUp(b - {h})
  }

  ghost function SumDown(b: map<Hour, Bytes>): nat {
    if b == map[] then 0 else var h := Any(b.Keys); b[h].down + SumDown(b - {h})
  }

  lemma {:induction false} SumUpWithout(b: map<Hour, Bytes>, h: Hour)
    requires h in b
    ensures SumUp(b) == b[h].up + SumUp(b - {h})
    decreases |b|
  {
    var g := Any(b.Keys);
    if g != h {
      SumUpWithout(b - {g}, h);
      SumUpWithout(b - {h}, g);
      assert b - {g} - {h} == b - {h} - {g};
    }
  }

  lemma {:induction false} SumDownWithout(b: map<Hour, Bytes>, h: Hour)
    requires h in b
    ensures SumDown(b) == b[h].down + SumDown(b - {h})
    decreases |b|
  {
    var g := Any(b.Keys);
    if g != h {
      SumDownWithout(b - {g}, h);
      SumDownWithout(b - {h}, g);
      assert b - {g} - {h} == b - {h} - {g};
    }
  }

  // A bucket takes what it is given, once.
  lemma AddToAdds(b: map<Hour, Bytes>, hour: Hour, g: Bytes)
    ensures SumUp(AddTo(b, hour, g)) == SumUp(b) + g.up
    ensures SumDown(AddTo(b, hour, g)) == SumDown(b) + g.down
  {
    var r := AddTo(b, hour, g);
    if g != NONE {
      SumUpWithout(r, hour);
      SumDownWithout(r, hour);
      if hour in b {
        SumUpWithout(b, hour);
        SumDownWithout(b, hour);
        assert r - {hour} == b - {hour};
      } else {
        assert r - {hour} == b;
      }
    }
  }

  // ── What really happened ─────────────────────────────────────────────────

  // carried(n, c, t): bytes that credential c of node n carried up to time t.
  // start(n, t): when the core that runs at t was started.
  datatype World = World(carried: (Id, Id, int) -> Bytes, start: (Id, int) -> int)

  ghost predicate Grows(w: World) {
    forall n: Id, c: Id, t: int, u: int :: t <= u ==>
      w.carried(n, c, t).up <= w.carried(n, c, u).up && w.carried(n, c, t).down <= w.carried(n, c, u).down
  }

  ghost predicate Starts(w: World) {
    && (forall n: Id, t: int :: w.start(n, t) <= t)
    && (forall n: Id, t: int, u: int :: w.start(n, u) <= t <= u ==> w.start(n, t) == w.start(n, u))
  }

  ghost predicate Lawful(w: World) {
    Grows(w) && Starts(w)
  }

  // A counter begins at zero with its core.
  ghost predicate CounterIs(w: World, n: Id, c: Id, t: int, b: Bytes) {
    var base, total := w.carried(n, c, w.start(n, t)), w.carried(n, c, t);
    b.up == total.up - base.up && b.down == total.down - base.down
  }

  // A sample that did not fail shows every counter of its instant.
  ghost predicate Faithful(w: World, s: Sample) {
    !s.failed ==> forall c: Id :: CounterIs(w, s.node, c, s.at, StatOf(s.users, UsageEmail(c)))
  }

  // ── Never more than the truth ────────────────────────────────────────────

  ghost predicate RowOk(w: World, n: Id, at: Option<int>, c: Id, row: Row) {
    && (at.Some? ==>
       SumUp(row.buckets) <= w.carried(n, c, at.value).up && SumDown(row.buckets) <= w.carried(n, c, at.value).down)
    && (at.None? ==> row.buckets == map[] && row.sampledAt.None?)
    && (at.Some? && row.sampledAt.Some? ==> row.sampledAt.value <= at.value)
    && (at.Some? && row.sampledAt == at ==> CounterIs(w, n, c, at.value, row.last))
  }

  ghost predicate NodeOk(w: World, id: Id, n: Node) {
    forall c <- n.rows :: RowOk(w, id, n.sampledAt, c, n.rows[c])
  }

  ghost predicate Ok(w: World, nodes: map<Id, Node>) {
    forall id <- nodes :: NodeOk(w, id, nodes[id])
  }

  // Whether or not the core restarted in between, the counters grew by no more
  // than was carried.
  lemma CounterGrowth(w: World, n: Id, c: Id, t: int, u: int, x: Bytes, y: Bytes)
    requires Lawful(w) && t <= u && CounterIs(w, n, c, t, x) && CounterIs(w, n, c, u, y)
    ensures y.up - x.up <= w.carried(n, c, u).up - w.carried(n, c, t).up
    ensures y.down - x.down <= w.carried(n, c, u).down - w.carried(n, c, t).down
    ensures w.start(n, t) == w.start(n, u) ==>
      (y.up - x.up == w.carried(n, c, u).up - w.carried(n, c, t).up
       && y.down - x.down == w.carried(n, c, u).down - w.carried(n, c, t).down)
  {
    var s := w.start(n, u);
    if s <= t {
      assert w.start(n, t) == s;
    } else {
      assert w.carried(n, c, t).up <= w.carried(n, c, s).up && w.carried(n, c, t).down <= w.carried(n, c, s).down;
    }
  }

  lemma RowStaysOk(w: World, id: Id, n: Node, s: Sample, c: Id, stat: Bytes)
    requires Lawful(w) && s.node == id && c in n.rows && RowOk(w, id, n.sampledAt, c, n.rows[c])
    requires n.sampledAt.Some? ==> n.sampledAt.value < s.at
    requires CounterIs(w, id, c, s.at, stat)
    ensures RowOk(w, id, Some(s.at), c, RowAfter(n, n.rows[c], s, stat))
  {
    var row := n.rows[c];
    AddToAdds(row.buckets, HourOf(s.at), Gain(n, row, s, stat));
    if n.sampledAt.Some? {
      var t := n.sampledAt.value;
      assert w.carried(id, c, t).up <= w.carried(id, c, s.at).up
        && w.carried(id, c, t).down <= w.carried(id, c, s.at).down;
      if row.sampledAt == n.sampledAt {
        CounterGrowth(w, id, c, t, s.at, row.last, stat);
      }
    }
  }

  lemma RowLeftOk(w: World, id: Id, n: Node, at: int, c: Id)
    requires Lawful(w) && c in n.rows && RowOk(w, id, n.sampledAt, c, n.rows[c])
    requires n.sampledAt.Some? ==> n.sampledAt.value < at
    ensures RowOk(w, id, Some(at), c, n.rows[c])
  {
    if n.sampledAt.Some? {
      var t := n.sampledAt.value;
      assert w.carried(id, c, t).up <= w.carried(id, c, at).up && w.carried(id, c, t).down <= w.carried(id, c, at).down;
    }
  }

  lemma AcceptKeepsOk(w: World, id: Id, n: Node, s: Sample, enabled: set<Id>)
    requires Lawful(w) && Faithful(w, s) && s.node == id && NodeOk(w, id, n) && !s.failed
    requires n.sampledAt.Some? ==> n.sampledAt.value < s.at
    ensures NodeOk(w, id, Accept(n, s, enabled))
  {
    var t := Accept(n, s, enabled);
    forall c <- t.rows
      ensures RowOk(w, id, t.sampledAt, c, t.rows[c])
    {
      assert RowOk(w, id, n.sampledAt, c, n.rows[c]);
      if Counted(n.rows[c], enabled) {
        RowStaysOk(w, id, n, s, c, StatOf(s.users, UsageEmail(c)));
      } else {
        RowLeftOk(w, id, n, s.at, c);
      }
    }
  }

  lemma TakeKeepsOk(w: World, nodes: map<Id, Node>, enabled: set<Id>, server: Id, now: int, s: Sample)
    requires Lawful(w) && Faithful(w, s) && Ok(w, nodes)
    ensures Ok(w, Take(nodes, enabled, server, now, s))
  {
    if s.node in nodes && Usable(server, nodes[s.node], s) {
      AcceptKeepsOk(w, s.node, nodes[s.node], s, enabled);
    }
  }

  lemma PauseKeepsOk(w: World, id: Id, n: Node, sub: Id)
    requires NodeOk(w, id, n)
    ensures NodeOk(w, id, Paused(n, sub))
  {
    forall c <- n.rows
      ensures RowOk(w, id, n.sampledAt, c, Paused(n, sub).rows[c])
    {
      assert RowOk(w, id, n.sampledAt, c, n.rows[c]);
    }
  }

  // ── Any run ──────────────────────────────────────────────────────────────

  datatype State = State(nodes: map<Id, Node>, enabled: set<Id>)

  datatype Event =
    | Deliver(server: Id, now: int, sample: Sample)
    | SetEnabled(sub: Id, on: bool)
    | AddNode(node: Id, server: Id)
    | SetPrepared(node: Id, prepared: bool)
    | AddRow(node: Id, credential: Id, sub: Id)
    | SetLive(node: Id, credential: Id, live: bool)

  function Apply(s: State, e: Event): State {
    match e
    case Deliver(server, now, sample) => s.(nodes := Take(s.nodes, s.enabled, server, now, sample))
    case SetEnabled(sub, on) => Enable(s, sub, on)
    case AddNode(id, server) => if id in s.nodes then s
      else s.(nodes := s.nodes[id := Node(server, false, None, None, None, map[])])
    case SetPrepared(id, prepared) =>
      if id in s.nodes then s.(nodes := s.nodes[id := s.nodes[id].(prepared := prepared)]) else s
    case AddRow(id, c, sub) =>
      if id in s.nodes && c !in s.nodes[id].rows then PutRow(s, id, c, Row(sub, false, None, NONE, map[])) else s
    case SetLive(id, c, live) =>
      if id in s.nodes && c in s.nodes[id].rows then PutRow(s, id, c, s.nodes[id].rows[c].(live := live)) else s
  }

  function PutRow(s: State, id: Id, c: Id, row: Row): State
    requires id in s.nodes
  {
    s.(nodes := s.nodes[id := s.nodes[id].(rows := s.nodes[id].rows[c := row])])
  }

  // A queued sample cannot bring back the baseline of before the change.
  function Enable(s: State, sub: Id, on: bool): State {
    State(if (sub in s.enabled) == on then s.nodes else map id | id in s.nodes :: Paused(s.nodes[id], sub),
          if on then s.enabled + {sub} else s.enabled - {sub})
  }

  function Play(s: State, events: seq<Event>): State {
    if events == [] then s else Apply(Play(s, events[..|events| - 1]), events[|events| - 1])
  }

  ghost predicate AllFaithful(w: World, events: seq<Event>) {
    forall e <- events :: e.Deliver? ==> Faithful(w, e.sample)
  }

  lemma ApplyKeepsOk(w: World, s: State, e: Event)
    requires Lawful(w) && Ok(w, s.nodes) && (e.Deliver? ==> Faithful(w, e.sample))
    ensures Ok(w, Apply(s, e).nodes)
  {
    match e
    case Deliver(server, now, sample) => TakeKeepsOk(w, s.nodes, s.enabled, server, now, sample);
    case SetEnabled(sub, on) =>
      forall id <- s.nodes
        ensures NodeOk(w, id, Paused(s.nodes[id], sub))
      {
        PauseKeepsOk(w, id, s.nodes[id], sub);
      }
    case AddNode(_, _) =>
    case SetPrepared(id, _) => assert id in s.nodes ==> NodeOk(w, id, s.nodes[id]);
    case AddRow(id, c, sub) => NewRowOk(w, s, id, c, sub);
    case SetLive(id, c, live) => assert id in s.nodes ==> NodeOk(w, id, s.nodes[id]);
  }

  lemma NewRowOk(w: World, s: State, id: Id, c: Id, sub: Id)
    requires Ok(w, s.nodes)
    ensures Ok(w, Apply(s, AddRow(id, c, sub)).nodes)
  {
    assert id in s.nodes ==> NodeOk(w, id, s.nodes[id]);
  }

  lemma {:induction false} PlayKeepsOk(w: World, events: seq<Event>)
    requires Lawful(w) && AllFaithful(w, events)
    ensures Ok(w, Play(State(map[], {}), events).nodes)
  {
    if events != [] {
      PlayKeepsOk(w, events[..|events| - 1]);
      ApplyKeepsOk(w, Play(State(map[], {}), events[..|events| - 1]), events[|events| - 1]);
    }
  }

  // Whatever is lost, repeated, late, restarted or paused, the buckets of a
  // credential never hold more than it carried.
  lemma NeverOvercounts(w: World, events: seq<Event>, n: Id, c: Id, now: int)
    requires Lawful(w) && AllFaithful(w, events)
    requires var nodes := Play(State(map[], {}), events).nodes;
      n in nodes && c in nodes[n].rows && (nodes[n].sampledAt.Some? ==> nodes[n].sampledAt.value <= now)
    ensures var row := Play(State(map[], {}), events).nodes[n].rows[c];
      SumUp(row.buckets) <= w.carried(n, c, now).up && SumDown(row.buckets) <= w.carried(n, c, now).down
  {
    PlayKeepsOk(w, events);
    var node := Play(State(map[], {}), events).nodes[n];
    assert NodeOk(w, n, node);
    assert RowOk(w, n, node.sampledAt, c, node.rows[c]);
    if node.sampledAt.Some? {
      assert w.carried(n, c, node.sampledAt.value).up <= w.carried(n, c, now).up;
    }
  }

  // ── Exactly the truth over an unbroken stretch ───────────────────────────

  // The credential counts, and its baseline is the sample of this instant.
  ghost predicate Tracked(w: World, s: State, n: Id, c: Id, at: int) {
    && n in s.nodes && c in s.nodes[n].rows && s.nodes[n].prepared && Counted(s.nodes[n].rows[c], s.enabled)
    && s.nodes[n].sampledAt == Some(at) && s.nodes[n].rows[c].sampledAt == Some(at)
    && s.nodes[n].uptime.Some? && CounterIs(w, n, c, at, s.nodes[n].rows[c].last)
  }

  // The next sample of the same core, in time, its uptime in step.
  ghost predicate Continues(w: World, s: State, e: Event, n: Id, at: int) {
    && e.Deliver? && e.sample.node == n && n in s.nodes && Fresh(e.now, e.sample)
      && Usable(e.server, s.nodes[n], e.sample)
    && Faithful(w, e.sample) && at < e.sample.at <= at + FRESH && w.start(n, at) == w.start(n, e.sample.at)
    && !Reset(s.nodes[n], e.sample)
  }

  // A repeated, late, failed or foreign sample, or one of another node.
  ghost predicate Ignored(s: State, e: Event, n: Id) {
    && e.Deliver?
    && (e.sample.node == n ==> n !in s.nodes || !Fresh(e.now, e.sample) || !Usable(e.server, s.nodes[n], e.sample))
  }

  ghost predicate Stretch(w: World, s: State, events: seq<Event>, n: Id, at: int, last: int)
    decreases |events|
  {
    if events == [] then at == last
    else if Ignored(s, events[0], n) then Stretch(w, Apply(s, events[0]), events[1..], n, at, last)
    else Continues(w, s, events[0], n, at) && Stretch(w, Apply(s, events[0]), events[1..], n, events[0].sample.at, last)
  }

  function PlayFrom(s: State, events: seq<Event>): State
    decreases |events|
  {
    if events == [] then s else PlayFrom(Apply(s, events[0]), events[1..])
  }

  lemma ContinueIsExact(w: World, s: State, e: Event, n: Id, c: Id, at: int)
    requires Lawful(w) && Tracked(w, s, n, c, at) && Continues(w, s, e, n, at)
    ensures Tracked(w, Apply(s, e), n, c, e.sample.at)
    ensures var b, b' := s.nodes[n].rows[c].buckets, Apply(s, e).nodes[n].rows[c].buckets;
      && SumUp(b') - SumUp(b) == w.carried(n, c, e.sample.at).up - w.carried(n, c, at).up
      && SumDown(b') - SumDown(b) == w.carried(n, c, e.sample.at).down - w.carried(n, c, at).down
  {
    var node, row := s.nodes[n], s.nodes[n].rows[c];
    var stat := StatOf(e.sample.users, UsageEmail(c));
    assert CounterIs(w, n, c, e.sample.at, stat);
    CounterGrowth(w, n, c, at, e.sample.at, row.last, stat);
    assert w.carried(n, c, at).up <= w.carried(n, c, e.sample.at).up
      && w.carried(n, c, at).down <= w.carried(n, c, e.sample.at).down;
    AddToAdds(row.buckets, HourOf(e.sample.at), Gain(node, row, e.sample, stat));
    assert Apply(s, e).nodes[n] == Accept(node, e.sample, s.enabled);
  }

  // The buckets grow by exactly what was carried from the first sample to the last.
  lemma {:induction false} StretchIsExact(w: World, s: State, events: seq<Event>, n: Id, c: Id, at: int, last: int)
    requires Lawful(w) && Tracked(w, s, n, c, at) && Stretch(w, s, events, n, at, last)
    ensures Tracked(w, PlayFrom(s, events), n, c, last)
    ensures var b, b' := s.nodes[n].rows[c].buckets, PlayFrom(s, events).nodes[n].rows[c].buckets;
      && SumUp(b') - SumUp(b) == w.carried(n, c, last).up - w.carried(n, c, at).up
      && SumDown(b') - SumDown(b) == w.carried(n, c, last).down - w.carried(n, c, at).down
    decreases |events|
  {
    if events != [] {
      var e := events[0];
      if Ignored(s, e, n) {
        assert Apply(s, e).nodes[n] == s.nodes[n];
        StretchIsExact(w, Apply(s, e), events[1..], n, c, at, last);
      } else {
        ContinueIsExact(w, s, e, n, c, at);
        StretchIsExact(w, Apply(s, e), events[1..], n, c, e.sample.at, last);
      }
    }
  }

  // A sample after a gap, a restart or a pause only sets the next baseline.
  lemma BaselineAddsNothing(s: State, e: Event, n: Id, c: Id)
    requires e.Deliver? && e.sample.node == n && n in s.nodes && c in s.nodes[n].rows
    requires Reset(s.nodes[n], e.sample) || Elapsed(s.nodes[n], e.sample) > FRESH
      || s.nodes[n].rows[c].sampledAt != s.nodes[n].sampledAt
    ensures Apply(s, e).nodes[n].rows[c].buckets == s.nodes[n].rows[c].buckets
  {
  }

  // ── The service ──────────────────────────────────────────────────────────

  // new Map(users): its size tells whether an email repeats.
  method ReadStats(users: seq<(string, Bytes)>) returns (stats: map<string, Bytes>, distinct: bool)
    ensures distinct <==> DistinctEmails(users)
    ensures distinct ==> forall email: string :: (if email in stats then stats[email] else NONE) == StatOf(users, email)
  {
    stats := map[];
    distinct := true;
    for i := 0 to |users|
      invariant distinct <==> DistinctEmails(users[..i])
      invariant stats.Keys == set j | 0 <= j < i :: users[j].0
      invariant distinct ==>
        forall email: string :: (if email in stats then stats[email] else NONE) == StatOf(users[..i], email)
    {
      assert users[..i + 1] == users[..i] + [users[i]];
      StatAppend(users[..i], users[i]);
      if users[i].0 in stats {
        var j :| 0 <= j < i && users[j].0 == users[i].0;
        assert users[..i + 1][j].0 == users[..i + 1][i].0;
        distinct := false;
      }
      stats := stats[users[i].0 := users[i].1];
    }
    assert users[..|users|] == users;
  }

  lemma {:induction false} StatAppend(users: seq<(string, Bytes)>, u: (string, Bytes))
    ensures forall email: string ::
      StatOf(users + [u], email) == if email != u.0 || (exists v <- users :: v.0 == email) then StatOf(users, email)
        else u.1
  {
    if users == [] {
      assert users + [u] == [u];
    } else {
      assert (users + [u])[1..] == users[1..] + [u];
      StatAppend(users[1..], u);
    }
  }

  method UpdateRows(n: Node, sample: Sample, stats: map<string, Bytes>, enabled: set<Id>) returns (rows: map<Id, Row>)
    requires forall email: string :: (if email in stats then stats[email] else NONE) == StatOf(sample.users, email)
    ensures rows == Accept(n, sample, enabled).rows
  {
    rows := n.rows;
    var left := n.rows.Keys;
    while left != {}
      invariant left <= n.rows.Keys == rows.Keys
      invariant forall c <- rows :: rows[c] == if c in left then n.rows[c] else RowIn(n, c, sample, enabled)
      decreases |left|
    {
      var c :| c in left;
      var row := n.rows[c];
      if row.live && row.sub in enabled {
        var email := UsageEmail(c);
        var stat := if email in stats then stats[email] else NONE;
        assert stat == StatOf(sample.users, email);
        rows := rows[c := RowAfter(n, row, sample, stat)];
      }
      assert rows[c] == RowIn(n, c, sample, enabled);
      left := left - {c};
    }
  }

  class UsageService {
    var s: State

    constructor ()
      ensures s == State(map[], {})
    {
      s := State(map[], {});
    }

    method SetEnabled(sub: Id, on: bool)
      modifies this
      ensures s == Apply(old(s), Event.SetEnabled(sub, on))
    {
      var nodes := s.nodes;
      if (sub in s.enabled) != on {
        nodes := map id | id in s.nodes :: Paused(s.nodes[id], sub);
      }
      s := State(nodes, if on then s.enabled + {sub} else s.enabled - {sub});
    }

    // The transaction of one sample.
    method AcceptSample(sample: Sample, stats: map<string, Bytes>)
      requires sample.node in s.nodes
      requires forall email: string :: (if email in stats then stats[email] else NONE) == StatOf(sample.users, email)
      modifies this
      ensures s == old(s).(nodes := old(s.nodes)[sample.node := Accept(old(s.nodes)[sample.node], sample,
        old(s.enabled))])
    {
      var n := s.nodes[sample.node];
      var rows := UpdateRows(n, sample, stats, s.enabled);
      s := s.(nodes := s.nodes[sample.node := n.(sampledAt := Some(sample.at), sampleId := Some(sample.id),
        uptime := Some(sample.uptime), rows := rows)]);
    }

    // A batch from one server, taken in order.
    method Ingest(server: Id, samples: seq<Sample>, now: int)
      modifies this
      ensures s == PlayFrom(old(s), Deliveries(server, samples, now))
    {
      for i := 0 to |samples|
        invariant PlayFrom(s, Deliveries(server, samples[i..], now)) == PlayFrom(old(s),
          Deliveries(server, samples, now))
      {
        var sample := samples[i];
        assert samples[i..][1..] == samples[i + 1..];
        assert Deliveries(server, samples[i..], now)[1..] == Deliveries(server, samples[i + 1..], now);
        if !Fresh(now, sample) || sample.node !in s.nodes {
          continue;
        }
        var n := s.nodes[sample.node];
        var stats, distinct := ReadStats(sample.users);
        if n.server != server || !n.prepared || n.sampleId == Some(sample.id)
          || (n.sampledAt.Some? && sample.at <= n.sampledAt.value)
           || sample.failed || !distinct {
          continue;
        }
        AcceptSample(sample, stats);
      }
    }
  }

  function Deliveries(server: Id, samples: seq<Sample>, now: int): seq<Event> {
    seq(|samples|, i requires 0 <= i < |samples| => Deliver(server, now, samples[i]))
  }
}
