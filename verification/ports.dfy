/**
 * Listen, stats and exit ports of the nodes on a server (nodes.service.ts), the
 * stats port a deployment stores (node-deploy.service.ts) and the ports that
 * unfinished cleanup still holds (resource-lifecycle.service.ts).
 */
module PortAllocation {
  import opened Common

  type Id = string

  datatype Core = XRAY | V2RAY | SING_BOX

  datatype Node = Node(host: Id, listen: int, stats: Option<int>, core: Core, exit: Option<Id>, exitPort: Option<int>)

  datatype Refusal = NotFound | Deleting | Misconfigured | Occupied(port: int) | Exhausted

  predicate IsPort(p: int) {
    1 <= p <= 65535
  }

  // ── The two stats formulas ───────────────────────────────────────────────

  function LastFour(n: int): int {
    n % 10000
  }

  // What node creation reserves.
  function DerivedStatsPort(listen: int, core: Core): Option<int> {
    if core != XRAY && core != V2RAY then None
    else if listen + 20000 <= 65535 then Some(listen + 20000)
    else if listen - 20000 >= 1 then Some(listen - 20000)
    else Some(40000 + LastFour(listen))
  }

  // What the deployment configures and stores.
  function ComputeStatsPort(listen: int): int {
    if listen + 20000 <= 65535 then listen + 20000
    else if listen - 20000 >= 1 then listen - 20000
    else 40000 + LastFour(listen)
  }

  function DeployedStats(listen: int, core: Core): Option<int> {
    if core == XRAY || core == V2RAY then Some(ComputeStatsPort(listen)) else None
  }

  // They agree, stay in range, never meet the listen port, and never need the
  // third formula.
  lemma StatsFormulas(listen: int, core: Core)
    requires IsPort(listen)
    ensures DeployedStats(listen, core) == DerivedStatsPort(listen, core)
    ensures DerivedStatsPort(listen, core).Some? ==>
      var p := DerivedStatsPort(listen, core).value;
        IsPort(p) && p != listen && (p == listen + 20000 || p == listen - 20000)
    ensures core != SING_BOX <==> DerivedStatsPort(listen, core).Some?
  {
  }

  // ── Claims ───────────────────────────────────────────────────────────────

  function Ports(p: Option<int>): set<int> {
    if p.Some? then {p.value} else {}
  }

  // What a node takes on a server: a stored stats port stands before the derived one.
  function Claims(n: Node, server: Id): set<int> {
    (if n.host == server then {n.listen} + Ports(if n.stats.Some? then n.stats else DerivedStatsPort(n.listen, n.core))
       else {})
    + (if n.exit == Some(server) then Ports(n.exitPort) else {})
  }

  type Rows = map<Id, Node>

  ghost predicate Taken(rows: Rows, server: Id, except: Option<Id>, p: int) {
    exists n <- rows :: Some(n) != except && p in Claims(rows[n], server)
  }

  // The first number of a list that passes.
  ghost predicate IsFirst(from: int, count: int, core: Core, used: set<int>, p: int) {
    from <= p < from + count && Fits(p, core, used) && forall q :: from <= q < p ==> !Fits(q, core, used)
  }

  // Neither the port nor its stats port is used.
  predicate Fits(p: int, core: Core, used: set<int>) {
    p !in used && Ports(DerivedStatsPort(p, core)) !! used
  }

  // ── The loops ────────────────────────────────────────────────────────────

  method CollectServerPorts(nodes: seq<Node>, server: Id) returns (ports: set<int>)
    ensures forall p :: p in ports <==> exists n <- nodes :: p in Claims(n, server)
  {
    ports := {};
    for i := 0 to |nodes|
      invariant forall p <- ports :: exists n <- nodes[..i] :: p in Claims(n, server)
      invariant forall n <- nodes[..i], p <- Claims(n, server) :: p in ports
    {
      var node := nodes[i];
      ghost var before := ports;
      if node.host == server {
        ports := ports + {node.listen};
        var statsPort := if node.stats.Some? then node.stats else DerivedStatsPort(node.listen, node.core);
        if statsPort.Some? {
          ports := ports + {statsPort.value};
        }
      }
      if node.exit == Some(server) && node.exitPort.Some? {
        ports := ports + {node.exitPort.value};
      }
      assert ports == before + Claims(node, server);
      assert nodes[..i + 1] == nodes[..i] + [node];
    }
    assert nodes[..|nodes|] == nodes;
  }

  method FirstFit(from: int, count: nat, core: Core, used: set<int>) returns (r: Option<int>)
    ensures r.Some? ==> IsFirst(from, count, core, used, r.value)
    ensures r.None? ==> forall q :: from <= q < from + count ==> !Fits(q, core, used)
  {
    for i := 0 to count
      invariant forall q :: from <= q < from + i ==> !Fits(q, core, used)
    {
      var stats := DerivedStatsPort(from + i, core);
      if from + i !in used && (stats == None || stats.value !in used) {
        return Some(from + i);
      }
    }
    return None;
  }

  // What pickPort answers for the ports in use.
  ghost predicate Picks(fixedPort: Option<int>, portBase: Option<int>, core: Core, mapping: bool, used: set<int>,
                        r: Result<int, Refusal>) {
    match (fixedPort, portBase)
    case (None, None) => r == Err(Misconfigured)
    case (Some(port), _) =>
      if Fits(port, core, used) then r == Ok(port)
      else if !mapping then r.Err? && r.error.Occupied? && r.error.port in used
      else if Fits(8443, core, used) then r == Ok(8443)
      else if r.Ok? then IsFirst(18000, 1000, core, used, r.value)
      else forall q :: 18000 <= q < 19000 ==> !Fits(q, core, used)
    case (None, Some(base)) =>
      if r.Ok? then IsFirst(base, 1000, core, used, r.value)
      else forall q :: base <= q < base + 1000 ==> !Fits(q, core, used)
  }

  method PickFrom(fixedPort: Option<int>, portBase: Option<int>, core: Core, mapping: bool, used: set<int>)
    returns (r: Result<int, Refusal>)
    ensures Picks(fixedPort, portBase, core, mapping, used, r)
  {
    if fixedPort == None && portBase == None {
      return Err(Misconfigured);
    }
    if fixedPort.Some? {
      var stats := DerivedStatsPort(fixedPort.value, core);
      var conflicting :=
        if fixedPort.value in used then fixedPort else if stats.Some? && stats.value in used then stats else None;
      if conflicting.Some? {
        if mapping {
          var first := FirstFit(8443, 1, core, used);
          if first.Some? {
            return Ok(first.value);
          }
          var p := FirstFit(18000, 1000, core, used);
          return if p.Some? then Ok(p.value) else Err(Exhausted);
        }
        return Err(Occupied(conflicting.value));
      }
      return Ok(fixedPort.value);
    }
    var p := FirstFit(portBase.value, 1000, core, used);
    r := if p.Some? then Ok(p.value) else Err(Exhausted);
  }

  // ── The panel ────────────────────────────────────────────────────────────

  // pending: ports that unfinished cleanup tasks of a server name.
  datatype State = State(rows: Rows, pending: set<(Id, int)>)

  datatype Ending = Deployed | Restored | Abandoned | Async

  datatype Step =
    | Create(id: Id, node: Node)
    | Update(id: Id, listen: int, core: Core, ending: Ending)
    | Deploy(id: Id)
    | Retire(id: Id)
    | Release(server: Id, port: int)

  ghost predicate Available(s: State, server: Id, except: Option<Id>, p: int) {
    !Taken(s.rows, server, except, p) && (server, p) !in s.pending
  }

  ghost predicate Enabled(s: State, step: Step) {
    match step
    case Create(id, node) =>
      && id !in s.rows && node.stats == None && IsPort(node.listen) && node.exit != Some(node.host)
      && (forall p <- {node.listen}
         + Ports(DerivedStatsPort(node.listen, node.core)) :: Available(s, node.host, None, p))
      && (forall p <- Ports(node.exitPort) :: node.exit.Some? ==> Available(s, node.exit.value, None, p))
    case Update(id, listen, core, _) =>
      && id in s.rows && IsPort(listen)
      && forall p <- {listen} + Ports(DerivedStatsPort(listen, core)) :: Available(s, s.rows[id].host, Some(id), p)
    case Deploy(id) => id in s.rows
    case Retire(id) => id in s.rows
    case Release(_, _) => true
  }

  function Pending(n: Node): set<(Id, int)> {
    {(n.host, n.listen)}
    + (if n.stats.Some? then {(n.host, n.stats.value)} else {})
    + (if n.exit.Some? && n.exitPort.Some? then {(n.exit.value, n.exitPort.value)} else {})
  }

  // finalize after a successful deployment.
  function Settle(n: Node): Node {
    n.(stats := DeployedStats(n.listen, n.core))
  }

  function Apply(s: State, step: Step): State
    requires (step.Update? || step.Deploy? || step.Retire?) ==> step.id in s.rows
  {
    match step
    case Create(id, node) => s.(rows := s.rows[id := node])
    case Update(id, listen, core, ending) =>
      var edited := s.rows[id].(listen := listen, core := core);
      (match ending
       case Deployed => s.(rows := s.rows[id := Settle(edited)])
       case Restored => s
       case Abandoned => s.(rows := s.rows[id := edited])
       case Async => s.(rows := s.rows[id := edited]))
    case Deploy(id) => s.(rows := s.rows[id := Settle(s.rows[id])])
    case Retire(id) => State(s.rows - {id}, s.pending + Pending(s.rows[id]))
    case Release(server, port) => s.(pending := s.pending - {(server, port)})
  }

  // No two nodes claim the same port of a server.
  ghost predicate Disjoint(rows: Rows) {
    forall m <- rows, n <- rows, server: Id :: m != n ==> Claims(rows[m], server) !! Claims(rows[n], server)
  }

  // The stored stats port is the one that a deployment would use.
  predicate Settled(n: Node) {
    n.stats.Some? ==> n.stats == DerivedStatsPort(n.listen, n.core)
  }

  predicate GoodNode(n: Node) {
    IsPort(n.listen) && n.exit != Some(n.host)
  }

  ghost predicate Inv(s: State) {
    Disjoint(s.rows) && forall n <- s.rows :: GoodNode(s.rows[n]) && Settled(s.rows[n])
  }

  // Edits that end with the node deployed or restored.
  predicate Transactional(step: Step) {
    step.Update? ==> step.ending == Deployed || step.ending == Restored
  }

  lemma SettleKeepsClaims(n: Node, server: Id)
    requires Settled(n) && IsPort(n.listen)
    ensures Claims(Settle(n), server) == Claims(n, server) && Settled(Settle(n))
  {
    StatsFormulas(n.listen, n.core);
  }

  // Replacing one row by another keeps the claims apart if the new claims are free.
  lemma ReplaceKeepsDisjoint(rows: Rows, id: Id, node: Node)
    requires Disjoint(rows)
    requires forall n <- rows, server: Id :: n != id ==> Claims(node, server) !! Claims(rows[n], server)
    ensures Disjoint(rows[id := node])
  {
  }

  lemma CreateKeeps(s: State, id: Id, node: Node)
    requires Inv(s) && Enabled(s, Create(id, node))
    ensures Inv(Apply(s, Create(id, node)))
  {
    forall n <- s.rows, server: Id
      ensures Claims(node, server) !! Claims(s.rows[n], server)
    {
      forall p | p in Claims(node, server)
        ensures p !in Claims(s.rows[n], server)
      {
        assert Available(s, server, None, p);
      }
    }
    ReplaceKeepsDisjoint(s.rows, id, node);
  }

  lemma UpdateKeeps(s: State, id: Id, listen: int, core: Core)
    requires Inv(s) && Enabled(s, Update(id, listen, core, Deployed))
    ensures Inv(Apply(s, Update(id, listen, core, Deployed)))
  {
    var node := Settle(s.rows[id].(listen := listen, core := core));
    StatsFormulas(listen, core);
    forall n <- s.rows, server: Id | n != id
      ensures Claims(node, server) !! Claims(s.rows[n], server)
    {
      assert Claims(s.rows[id], server) !! Claims(s.rows[n], server);
      forall p | p in Claims(node, server)
        ensures p !in Claims(s.rows[n], server)
      {
        assert p in Claims(s.rows[id], server) || Available(s, server, Some(id), p);
      }
    }
    ReplaceKeepsDisjoint(s.rows, id, node);
  }

  lemma DeployKeeps(s: State, id: Id)
    requires Inv(s) && id in s.rows
    ensures Inv(Apply(s, Deploy(id)))
  {
    var node := Settle(s.rows[id]);
    forall n <- s.rows, server: Id | n != id
      ensures Claims(node, server) !! Claims(s.rows[n], server)
    {
      SettleKeepsClaims(s.rows[id], server);
    }
    SettleKeepsClaims(s.rows[id], s.rows[id].host);
    ReplaceKeepsDisjoint(s.rows, id, node);
  }

  lemma StepKeepsInv(s: State, step: Step)
    requires Inv(s) && Enabled(s, step) && Transactional(step)
    ensures Inv(Apply(s, step))
  {
    match step
    case Create(id, node) => CreateKeeps(s, id, node);
    case Update(id, listen, core, ending) => if ending == Deployed { UpdateKeeps(s, id, listen, core); }
    case Deploy(id) => DeployKeeps(s, id);
    case Retire(_) =>
    case Release(_, _) =>
  }

  ghost predicate Run(states: seq<State>, steps: seq<Step>) {
    && |states| == |steps| + 1
    && forall i :: 0 <= i < |steps| ==> Enabled(states[i], steps[i]) && states[i + 1] == Apply(states[i], steps[i])
  }

  lemma {:induction false} RunKeepsInv(states: seq<State>, steps: seq<Step>, i: nat)
    requires Run(states, steps) && Inv(states[0]) && i <= |steps|
    requires forall step <- steps :: Transactional(step)
    ensures Inv(states[i])
  {
    if i > 0 {
      RunKeepsInv(states, steps, i - 1);
      StepKeepsInv(states[i - 1], steps[i - 1]);
    }
  }

  // One server, one claimant: over any transactional run no port is claimed twice,
  // by different nodes or by one node for two purposes.
  lemma PortsStayApart(states: seq<State>, steps: seq<Step>, i: nat, m: Id, n: Id, server: Id, p: int)
    requires Run(states, steps) && states[0] == State(map[], {}) && i <= |steps|
    requires forall step <- steps :: Transactional(step)
    requires m in states[i].rows && n in states[i].rows
    requires p in Claims(states[i].rows[m], server) && p in Claims(states[i].rows[n], server)
    ensures m == n
    ensures states[i].rows[m].stats != Some(states[i].rows[m].listen)
  {
    RunKeepsInv(states, steps, i);
    StatsFormulas(states[i].rows[m].listen, states[i].rows[m].core);
  }

  // A new claim is never a port that cleanup still holds.
  lemma NewClaimsNotPending(s: State, step: Step, server: Id, p: int)
    requires Enabled(s, step) && (step.Create? || (step.Update? && step.ending == Deployed))
    requires step.id in s.rows ==> GoodNode(s.rows[step.id])
    requires p in Claims(Apply(s, step).rows[step.id], server)
    requires step.id in s.rows ==> p !in Claims(s.rows[step.id], server)
    ensures (server, p) !in s.pending
  {
    if step.Update? {
      StatsFormulas(step.listen, step.core);
      assert p in {step.listen} + Ports(DerivedStatsPort(step.listen, step.core));
      assert Available(s, server, Some(step.id), p);
    } else {
      assert Available(s, server, None, p);
    }
  }

  // ── The stored stats port can lag ────────────────────────────────────────

  // Whatever was edited before, a deployment keeps the claims apart exactly when
  // no other node claims the port that it stores.
  lemma DeployKeepsIff(s: State, id: Id)
    requires Disjoint(s.rows) && id in s.rows && IsPort(s.rows[id].listen)
    ensures Disjoint(Apply(s, Deploy(id)).rows) <==>
      forall p <- Ports(DeployedStats(s.rows[id].listen, s.rows[id].core)) ::
        !Taken(s.rows, s.rows[id].host, Some(id), p)
  {
    var row, t := s.rows[id], Apply(s, Deploy(id));
    var stats := DeployedStats(row.listen, row.core);
    if forall p <- Ports(stats) :: !Taken(s.rows, row.host, Some(id), p) {
      forall n <- s.rows, server: Id | n != id
        ensures Claims(Settle(row), server) !! Claims(s.rows[n], server)
      {
        assert Claims(row, server) !! Claims(s.rows[n], server);
        StatsFormulas(row.listen, row.core);
      }
      ReplaceKeepsDisjoint(s.rows, id, Settle(row));
    } else {
      var p :| p in Ports(stats) && Taken(s.rows, row.host, Some(id), p);
      var n :| n in s.rows && Some(n) != Some(id) && p in Claims(s.rows[n], row.host);
      assert p in Claims(t.rows[id], row.host) && t.rows[n] == s.rows[n];
      assert !(Claims(t.rows[id], row.host) !! Claims(t.rows[n], row.host));
    }
  }

  // The rows after each step of the run below.
  function LagRows(host: Id, a: Id, b: Id, i: nat): Rows {
    var first, second := Node(host, 10000, None, XRAY, None, None), Node(host, 31000, None, SING_BOX, None, None);
    match i
    case 0 => map[]
    case 1 => map[a := first]
    case 2 => map[a := first.(stats := Some(30000))]
    case 3 => map[a := first.(listen := 11000, stats := Some(30000))]
    case 4 => map[a := first.(listen := 11000, stats := Some(30000)), b := second]
    case _ => map[a := first.(listen := 11000, stats := Some(31000)), b := second]
  }

  function LagStep(host: Id, a: Id, b: Id, i: nat): Step {
    match i
    case 0 => Create(a, Node(host, 10000, None, XRAY, None, None))
    case 1 => Deploy(a)
    case 2 => Update(a, 11000, XRAY, Async)
    case 3 => Create(b, Node(host, 31000, None, SING_BOX, None, None))
    case _ => Deploy(a)
  }

  lemma LagSteps(host: Id, a: Id, b: Id, i: nat)
    requires a != b && i < 5
    ensures Enabled(State(LagRows(host, a, b, i), {}), LagStep(host, a, b, i))
    ensures State(LagRows(host, a, b, i + 1), {}) == Apply(State(LagRows(host, a, b, i), {}), LagStep(host, a, b, i))
  {
    if i == 3 {
      assert Claims(LagRows(host, a, b, 3)[a], host) == {11000, 30000};
    }
  }

  // An asynchronous or abandoned edit leaves the old stats port in the row, so the
  // new one may be given away before the node is deployed again.
  lemma LaggingStatsCollide(host: Id, a: Id, b: Id) returns (states: seq<State>, steps: seq<Step>)
    requires a != b
    ensures Run(states, steps) && states[0] == State(map[], {}) && |steps| == 5
    ensures Disjoint(states[4].rows) && !Disjoint(states[5].rows)
  {
    states := seq(6, i requires 0 <= i < 6 => State(LagRows(host, a, b, i), {}));
    steps := seq(5, i requires 0 <= i < 5 => LagStep(host, a, b, i));
    forall i | 0 <= i < 5
      ensures Enabled(states[i], steps[i]) && states[i + 1] == Apply(states[i], steps[i])
    {
      LagSteps(host, a, b, i);
    }
    assert Claims(LagRows(host, a, b, 4)[a], host) == {11000, 30000}
      && Claims(LagRows(host, a, b, 4)[b], host) == {31000};
    assert Claims(LagRows(host, a, b, 5)[a], host) == {11000, 31000}
      && Claims(LagRows(host, a, b, 5)[b], host) == {31000};
  }

  // ── The operations ───────────────────────────────────────────────────────

  // findMany: the rows on a server, but for one, in some order.
  method FindNodes(rows: Rows, server: Id, except: Option<Id>) returns (nodes: seq<Node>)
    ensures forall p :: (exists n <- nodes :: p in Claims(n, server)) <==> Taken(rows, server, except, p)
  {
    nodes := [];
    var left := rows;
    while left != map[]
      invariant left.Keys <= rows.Keys && forall n <- left :: left[n] == rows[n]
      invariant forall n <- nodes, p <- Claims(n, server) :: Taken(rows, server, except, p)
      invariant forall n <- rows :: n in left || Some(n) == except || Claims(rows[n], server) == {} || rows[n] in nodes
      decreases |left|
    {
      var n :| n in left;
      if Some(n) != except && (left[n].host == server || left[n].exit == Some(server)) {
        nodes := nodes + [left[n]];
      }
      left := left - {n};
    }
  }

  function PendingOn(pending: set<(Id, int)>, server: Id): set<int> {
    set e | e in pending && e.0 == server :: e.1
  }

  lemma PendingOnIs(pending: set<(Id, int)>, server: Id, p: int)
    ensures p in PendingOn(pending, server) <==> (server, p) in pending
  {
    if (server, p) in pending {
      assert (server, p).1 in PendingOn(pending, server);
    }
  }

  // Claimed, held by cleanup, or listened on.
  ghost function UsedOn(s: State, server: Id, sockets: set<int>): set<int> {
    (set n, p | n in s.rows && p in Claims(s.rows[n], server) :: p) + PendingOn(s.pending, server) + sockets
  }

  lemma UsedOnIs(s: State, server: Id, sockets: set<int>, p: int)
    ensures p in UsedOn(s, server, sockets) <==> p in sockets || !Available(s, server, None, p)
  {
    PendingOnIs(s.pending, server, p);
  }

  class Panel {
    var s: State
    // Whether a server is being deleted.
    var servers: map<Id, bool>

    constructor ()
      ensures s == State(map[], {}) && servers == map[]
    {
      s, servers := State(map[], {}), map[];
    }

    predicate Open(server: Id)
      reads this
    {
      server in servers && !servers[server]
    }

    // Ports that listen on the server, and ports that its unfinished cleanup names.
    method UnavailablePorts(server: Id, sockets: set<int>) returns (r: Result<set<int>, Refusal>)
      ensures r.Ok? <==> Open(server)
      ensures r.Ok? ==> r.value == sockets + PendingOn(s.pending, server)
    {
      if server !in servers {
        return Err(NotFound);
      }
      if servers[server] {
        return Err(Deleting);
      }
      r := Ok(sockets + PendingOn(s.pending, server));
    }

    method UsedPorts(server: Id, sockets: set<int>) returns (r: Result<set<int>, Refusal>)
      ensures r.Ok? <==> Open(server)
      ensures r.Ok? ==> r.value == UsedOn(s, server, sockets)
    {
      var nodes := FindNodes(s.rows, server, None);
      var used := CollectServerPorts(nodes, server);
      var remote := UnavailablePorts(server, sockets);
      if remote.Err? {
        return remote;
      }
      forall p
        ensures p in used + remote.value <==> p in UsedOn(s, server, sockets)
      {
        assert p in used <==> Taken(s.rows, server, None, p);
      }
      r := Ok(used + remote.value);
    }

    method PickPort(server: Id, fixedPort: Option<int>, portBase: Option<int>, core: Core, mapping: bool,
                    sockets: set<int>)
      returns (r: Result<int, Refusal>)
      ensures r.Ok? ==> Open(server)
      ensures Open(server) ==> Picks(fixedPort, portBase, core, mapping, UsedOn(s, server, sockets), r)
    {
      if fixedPort == None && portBase == None {
        return Err(Misconfigured);
      }
      var used := UsedPorts(server, sockets);
      if used.Err? {
        return Err(used.error);
      }
      r := PickFrom(fixedPort, portBase, core, mapping, used.value);
    }

    method PickChainExitPort(exit: Id, sockets: set<int>) returns (r: Result<int, Refusal>)
      ensures r.Ok? ==> Open(exit)
      ensures Open(exit) ==> Picks(None, Some(15000), SING_BOX, false, UsedOn(s, exit, sockets), r)
    {
      var used := UsedPorts(exit, sockets);
      if used.Err? {
        return Err(used.error);
      }
      r := PickFrom(None, Some(15000), SING_BOX, false, used.value);
    }

    // The listen port and its stats port are claimed by no other node, held by no
    // cleanup and listened on by no one else.
    ghost predicate PortAvailable(server: Id, listen: int, core: Core, except: Option<Id>, sockets: set<int>)
      reads this
    {
      Open(server) && forall p <- {listen} + Ports(DerivedStatsPort(listen, core)) ::
        Available(s, server, except, p) && p !in sockets
    }

    method AssertPortAvailable(server: Id, listen: int, core: Core, except: Option<Id>, sockets: set<int>)
      returns (r: Option<Refusal>)
      ensures r.None? <==> PortAvailable(server, listen, core, except, sockets)
    {
      var nodes := FindNodes(s.rows, server, except);
      var candidates := {listen} + Ports(DerivedStatsPort(listen, core));
      for i := 0 to |nodes|
        invariant forall n <- nodes[..i] :: Claims(n, server) !! candidates
      {
        var occupied := CollectServerPorts([nodes[i]], server);
        assert forall p :: p in occupied <==> p in Claims([nodes[i]][0], server);
        var conflict := occupied * candidates;
        if conflict != {} {
          var p :| p in conflict;
          assert Taken(s.rows, server, except, p) by {
            assert nodes[i] in nodes && p in Claims(nodes[i], server);
          }
          return Some(Occupied(p));
        }
        assert nodes[..i + 1] == nodes[..i] + [nodes[i]];
      }
      assert nodes[..|nodes|] == nodes;
      assert forall p <- candidates :: !Taken(s.rows, server, except, p);
      var remote := UnavailablePorts(server, sockets);
      if remote.Err? {
        return Some(remote.error);
      }
      forall p
        ensures p in remote.value <==> p in sockets || (server, p) in s.pending
      {
        PendingOnIs(s.pending, server, p);
      }
      var blocked := candidates * remote.value;
      if blocked != {} {
        var p :| p in blocked;
        return Some(Occupied(p));
      }
      return None;
    }

    // Manual creation with a port of the user's choice.
    method CreateNode(id: Id, host: Id, listen: int, core: Core, sockets: set<int>) returns (r: Option<Refusal>)
      requires id !in s.rows && IsPort(listen)
      modifies this`s
      ensures var step := Create(id, Node(host, listen, None, core, None, None));
        if r.None? then old(Open(host)) && Enabled(old(s), step) && s == Apply(old(s), step) else s == old(s)
      ensures r.None? <==> old(PortAvailable(host, listen, core, None, sockets))
    {
      r := AssertPortAvailable(host, listen, core, None, sockets);
      if r.None? {
        s := Apply(s, Create(id, Node(host, listen, None, core, None, None)));
      }
    }

    // Creation from a preset, with an exit on another server when there is one.
    method CreateFromPreset(id: Id, host: Id, exit: Option<Id>, fixedPort: Option<int>, portBase: Option<int>,
                            core: Core, mapping: bool, hostSockets: set<int>, exitSockets: set<int>) returns (r: Option<Refusal>)
      requires id !in s.rows && exit != Some(host)
      requires (fixedPort.Some? ==> IsPort(fixedPort.value)) && (portBase.Some? ==> 1 <= portBase.value <= 64536)
      modifies this`s
      ensures r.Some? ==> s == old(s)
      ensures r.None? ==>
        && id in s.rows && s.rows[id].host == host && s.rows[id].exit == exit && s.rows[id].stats == None
          && s.rows[id].core == core
        && Enabled(old(s), Create(id, s.rows[id])) && s == Apply(old(s), Create(id, s.rows[id]))
        && Picks(fixedPort, portBase, core, mapping, UsedOn(old(s), host, hostSockets), Ok(s.rows[id].listen))
        && (exit.Some? ==>
            (s.rows[id].exitPort.Some?
             && Picks(None, Some(15000), SING_BOX, false, UsedOn(old(s), exit.value, exitSockets),
               Ok(s.rows[id].exitPort.value))))
    {
      var listen := PickPort(host, fixedPort, portBase, core, mapping, hostSockets);
      if listen.Err? {
        return Some(listen.error);
      }
      var exitPort: Option<int> := None;
      if exit.Some? {
        var p := PickChainExitPort(exit.value, exitSockets);
        if p.Err? {
          return Some(p.error);
        }
        exitPort := Some(p.value);
        FitsIsAvailable(s, exit.value, exitSockets, p.value, SING_BOX);
      }
      FitsIsAvailable(s, host, hostSockets, listen.value, core);
      s := Apply(s, Create(id, Node(host, listen.value, None, core, exit, exitPort)));
      r := None;
    }

    // The port side of an update: refused, or done up to the ending of its deployment.
    method UpdateNode(id: Id, listen: int, core: Core, sockets: set<int>, ending: Ending) returns (r: Option<Refusal>)
      requires IsPort(listen)
      modifies this`s
      ensures r.None? <==> id in old(s.rows) && old(PortAvailable(s.rows[id].host, listen, core, Some(id), sockets))
      ensures var step := Update(id, listen, core, ending);
        if r.None? then Enabled(old(s), step) && s == Apply(old(s), step) else s == old(s)
    {
      if id !in s.rows {
        return Some(NotFound);
      }
      r := AssertPortAvailable(s.rows[id].host, listen, core, Some(id), sockets);
      if r.None? {
        s := Apply(s, Update(id, listen, core, ending));
      }
    }
  }

  lemma FitsIsAvailable(s: State, server: Id, sockets: set<int>, listen: int, core: Core)
    requires Fits(listen, core, UsedOn(s, server, sockets))
    ensures forall p <- {listen} + Ports(DerivedStatsPort(listen, core)) ::
      Available(s, server, None, p) && p !in sockets
  {
    forall p <- {listen} + Ports(DerivedStatsPort(listen, core))
      ensures Available(s, server, None, p) && p !in sockets
    {
      UsedOnIs(s, server, sockets, p);
    }
  }
}
