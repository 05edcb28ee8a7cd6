/**
 * Durable deletion of servers: nodes become cleanup tasks, workers retry them
 * under leases, and a sweep drops the server row (resource-lifecycle.service.ts,
 * resource-cleanup.scheduler.ts), next to node creation, deployment and removal.
 */
module NodeCleanup {
  import opened Common

  type Id = string

  datatype Role = ENTRY | EXIT | DNS | ORIGIN

  // A resource on a host, and the unique key of its task.
  datatype Key = Key(host: Id, node: Id, role: Role)

  datatype Status = PENDING | RUNNING | BLOCKED | DONE
  datatype Task = Task(cause: Id, status: Status, attempts: nat, nextAt: int)
  datatype Server = Server(deleting: bool)

  // mapped: the public port goes through a managed origin, which owns its own record.
  datatype Node = Node(host: Id, exit: Option<Id>, mapped: bool, dns: bool, origin: bool)

  datatype Lock = Core(server: Id) | Ports(server: Id) | OfNode(node: Id) | OfTask(key: Key)

  // A request or worker in flight.
  datatype Op =
    | Creating(row: Node)
    | Deploying(node: Id, host: Id, exit: Option<Id>)
    | Removing(node: Id, cleaned: set<Role>)
    | Planning(server: Id, graph: set<Id>, hosts: set<Id>)
    | Deleting(server: Id, graph: set<Id>, hosts: set<Id>, rows: Option<map<Id, Node>>)
    | Working(key: Key, attempts: nat, clean: bool, written: bool)
    | Sweeping(server: Id)

  // resources: what exists outside the database and some row or task answers for;
  // leaked: what exists besides; provisioned: nodes whose one record was created;
  // reopened: tasks that were taken out of DONE by the worker that had finished them.
  datatype State = State(
    now: int, servers: map<Id, Server>, nodes: map<Id, Node>, tasks: map<Key, Task>,
    ids: set<Id>, resources: set<Key>, leaked: set<Key>, rolledBack: set<Id>, provisioned: set<Id>, reopened: set<Key>,
    ops: map<nat, Op>, lost: set<nat>)

  datatype Outcome = Finished | Refused | Failed

  datatype Step =
    | Wait(time: nat)
    | AddServer(server: Id)
    | StartCreate(o: nat, row: Node)
    | FinishCreate(o: nat, node: Id)
    | Provision(node: Id, host: Id)
    | RollbackCreated(node: Id)
    | StartDeploy(o: nat, node: Id)
    | Install(o: nat, role: Role)
    | Uninstall(o: nat, role: Role)
    | StartRemove(o: nat, node: Id)
    | RemoveOne(o: nat, role: Role)
    | CommitRemove(o: nat)
    | Plan(o: nat, server: Id)
    | TakeLocks(o: nat)
    | Read(o: nat)
    | CommitDelete(o: nat)
    | StartWork(o: nat, key: Key)
    | Clean(o: nat)
    | Unanswered(o: nat)
    | Report(o: nat, outcome: Outcome)
    | Retry(key: Key)
    | StartSweep(o: nat, server: Id)
    | CommitSweep(o: nat)
    | Stop(o: nat)
    | Lose(o: nat)

  const LEASE := 300000
  const MAX_BACKOFF := 3600000

  function Power(n: nat): (r: nat)
    ensures r >= 1
  {
    if n == 0 then 1 else 2 * Power(n - 1)
  }

  // Delay after the failure of an attempt that began with this many attempts made.
  function Backoff(attempts: nat): (r: nat)
    ensures 30000 <= r <= MAX_BACKOFF
  {
    var delay := 30000 * Power(if attempts < 7 then attempts else 7);
    if delay < MAX_BACKOFF then delay else MAX_BACKOFF
  }

  lemma {:induction false} BackoffGrows(m: nat, n: nat)
    requires m <= n
    ensures Backoff(m) <= Backoff(n)
    ensures n >= 7 ==> Backoff(n) == MAX_BACKOFF
  {
    assert Power(1) == 2 && Power(2) == 4 && Power(3) == 8 && Power(4) == 16;
    assert Power(5) == 32 && Power(6) == 64 && Power(7) == 128;
  }

  // ── Rows ─────────────────────────────────────────────────────────────────

  predicate Touches(row: Node, server: Id) {
    row.host == server || row.exit == Some(server)
  }

  function HostOf(host: Id, exit: Option<Id>, role: Role): Id {
    if role == EXIT then exit.GetOr(host) else host
  }

  // What a node's row answers for.
  predicate Answers(n: Id, row: Node, k: Key) {
    && k.node == n && k.host == HostOf(row.host, row.exit, k.role)
    && match k.role
       case ENTRY => true
       case EXIT => row.exit.Some?
       case ORIGIN => row.origin
       case DNS => row.dns && !row.origin
  }

  predicate Unfinished(tasks: map<Key, Task>, k: Key) {
    k in tasks && tasks[k].status != DONE
  }

  // ── Locks ────────────────────────────────────────────────────────────────

  // The keys that a call takes.
  function Locks(op: Op): set<Lock> {
    match op
    case Creating(row) => {Ports(row.host)} + if row.exit.Some? then {Ports(row.exit.value)} else {}
    case Deploying(n, host, exit) => {OfNode(n), Core(host)} + if exit.Some? then {Core(exit.value)} else {}
    case Removing(n, _) => {OfNode(n)}
    case Planning(_, _, _) => {}
    case Deleting(_, graph, hosts, _) =>
      (set h | h in hosts :: Core(h)) + (set h | h in hosts :: Ports(h)) + (set n | n in graph :: OfNode(n))
    case Working(k, _, _, _) => {OfTask(k), OfNode(k.node), Core(k.host), Ports(k.host)}
    case Sweeping(server) => {Core(server), Ports(server)}
  }

  predicate Apart(a: Op, b: Op) {
    Locks(a) !! Locks(b)
  }

  // No call that still holds its locks excludes this one.
  predicate Free(s: State, op: Op) {
    forall p <- s.ops :: p in s.lost || Apart(s.ops[p], op)
  }

  predicate FreshOp(s: State, o: nat, op: Op) {
    o !in s.ops && o !in s.lost && Free(s, op)
  }

  // ── Steps ────────────────────────────────────────────────────────────────

  predicate Open(s: State, server: Id) {
    server in s.servers && !s.servers[server].deleting
  }

  predicate OpenFor(s: State, row: Node) {
    Open(s, row.host) && (row.exit.Some? ==> Open(s, row.exit.value))
  }

  function Graph(s: State, server: Id): set<Id> {
    set n | n in s.nodes && Touches(s.nodes[n], server)
  }

  function Hosts(s: State, server: Id): set<Id> {
    {server}
    + (set n | n in s.nodes && Touches(s.nodes[n], server) :: s.nodes[n].host)
    + (set n | n in s.nodes && Touches(s.nodes[n], server) && s.nodes[n].exit.Some? :: s.nodes[n].exit.value)
  }

  function Rows(s: State, server: Id): map<Id, Node> {
    map n | n in s.nodes && Touches(s.nodes[n], server) :: s.nodes[n]
  }

  predicate Named(tasks: map<Key, Task>, server: Id) {
    exists k <- tasks :: Unfinished(tasks, k) && (k.host == server || tasks[k].cause == server)
  }

  // The same but for the cause of a task that was reopened.
  ghost predicate Needed(s: State, server: Id) {
    exists k <- s.tasks ::
      Unfinished(s.tasks, k) && (k.host == server || (s.tasks[k].cause == server && k !in s.reopened))
  }

  predicate Deployable(role: Role, row: Node) {
    match role
    case ENTRY => true
    case EXIT => row.exit.Some?
    case ORIGIN => row.mapped
    case DNS => false
  }

  predicate Enabled(s: State, step: Step) {
    match step
    case Wait(_) => true
    case AddServer(server) => server !in s.servers
    case StartCreate(o, row) => OpenFor(s, row) && row.exit != Some(row.host) && !row.dns && !row.origin
      && FreshOp(s, o, Creating(row))
    case FinishCreate(o, n) => o in s.ops && s.ops[o].Creating? && n !in s.ids
    case Provision(n, _) => n in s.ids && n !in s.provisioned && (n in s.nodes ==> !s.nodes[n].mapped)
    case RollbackCreated(n) => n in s.nodes
    case StartDeploy(o, n) =>
      n in s.nodes && OpenFor(s, s.nodes[n]) && FreshOp(s, o, Deploying(n, s.nodes[n].host, s.nodes[n].exit))
    case Install(o, role) =>
      && o in s.ops && s.ops[o].Deploying?
      && (if s.ops[o].node in s.nodes then Deployable(role, s.nodes[s.ops[o].node])
          else role == ENTRY || (role == EXIT && s.ops[o].exit.Some?))
    case Uninstall(o, role) => o in s.ops && s.ops[o].Deploying?
    case StartRemove(o, n) => n in s.nodes && FreshOp(s, o, Removing(n, {}))
    case RemoveOne(o, role) => o in s.ops && s.ops[o].Removing?
    case CommitRemove(o) =>
      o in s.ops && s.ops[o].Removing? && s.ops[o].node in s.nodes && {ENTRY, EXIT, ORIGIN} <= s.ops[o].cleaned
    case Plan(o, server) => o !in s.ops && o !in s.lost
    case TakeLocks(o) => o in s.ops && s.ops[o].Planning? && Free(s, Locked(s.ops[o]))
    case Read(o) =>
      && o in s.ops && s.ops[o].Deleting? && s.ops[o].rows.None?
      && s.ops[o].server in s.servers && Rows(s, s.ops[o].server).Keys <= s.ops[o].graph
    case CommitDelete(o) => o in s.ops && s.ops[o].Deleting? && s.ops[o].rows.Some? && s.ops[o].server in s.servers
    case StartWork(o, k) =>
      && k in s.tasks && s.tasks[k].status in {PENDING, RUNNING} && s.tasks[k].nextAt <= s.now
      && FreshOp(s, o, Working(k, s.tasks[k].attempts, false, false))
    case Clean(o) => o in s.ops && s.ops[o].Working? && s.ops[o].key.node !in s.nodes
    case Unanswered(o) => o in s.ops && s.ops[o].Working? && s.ops[o].key in s.tasks && s.ops[o].clean
      && !s.ops[o].written
    case Report(o, outcome) =>
      && o in s.ops && s.ops[o].Working? && s.ops[o].key in s.tasks
      && (outcome.Finished? ==> s.ops[o].clean) && (s.ops[o].written ==> outcome.Failed?)
    case Retry(k) => k in s.tasks && s.tasks[k].status in {PENDING, BLOCKED}
    case StartSweep(o, server) =>
      && server in s.servers && s.servers[server].deleting && FreshOp(s, o, Sweeping(server))
      && !Named(s.tasks, server) && Graph(s, server) == {}
    case CommitSweep(o) =>
      o in s.ops && s.ops[o].Sweeping? && s.ops[o].server in s.servers && s.servers[s.ops[o].server].deleting
    case Stop(o) => o in s.ops
    case Lose(o) => o in s.ops
  }

  function Locked(op: Op): Op
    requires op.Planning?
  {
    Deleting(op.server, op.graph, op.hosts, None)
  }

  const ROLES: set<Role> := {ENTRY, EXIT, DNS, ORIGIN}

  function Target(n: Id, row: Node, role: Role): Key {
    Key(HostOf(row.host, row.exit, role), n, role)
  }

  // Everything that the rows answer for.
  function Targets(rows: map<Id, Node>): (r: set<Key>)
    ensures forall k :: k in r <==> k.node in rows && Answers(k.node, rows[k.node], k)
  {
    set n, role | n in rows && role in ROLES && Answers(n, rows[n], Target(n, rows[n], role)) ::
      Target(n, rows[n], role)
  }

  // The tasks pushed for the rows that were read.
  function Pushed(rows: map<Id, Node>, cause: Id, now: int): map<Key, Task> {
    map k | k in Targets(rows) :: Task(cause, PENDING, 0, now)
  }

  function Drop(s: State, o: nat): State {
    s.(ops := s.ops - {o}, lost := s.lost - {o})
  }

  function Put(s: State, o: nat, op: Op): State {
    s.(ops := s.ops[o := op])
  }

  function OfThe(n: Id, keys: set<Key>): set<Key> {
    set k | k in keys && k.node == n
  }

  // The row goes; whatever it answered for is left to no one.
  function Forget(s: State, n: Id): State {
    s.(nodes := s.nodes - {n}, resources := s.resources - OfThe(n, s.resources), leaked := s.leaked
       + OfThe(n, s.resources))
  }

  function Outcomes(t: Task, outcome: Outcome, attempts: nat, now: int): Task {
    match outcome
    case Finished => t.(status := DONE)
    case Refused => t.(status := BLOCKED, nextAt := now + Backoff(attempts))
    case Failed => t.(status := PENDING, nextAt := now + Backoff(attempts))
  }

  function Apply(s: State, step: Step): State
    requires Enabled(s, step)
  {
    match step
    case Wait(time) => s.(now := s.now + time)
    case AddServer(server) => s.(servers := s.servers[server := Server(false)])
    case StartCreate(o, row) => Put(s, o, Creating(row))
    case FinishCreate(o, n) => Drop(s, o).(nodes := s.nodes[n := s.ops[o].row], ids := s.ids + {n})
    case Provision(n, host) => Provisioned(s, n, host)
    case RollbackCreated(n) => Forget(s, n).(rolledBack := s.rolledBack + {n})
    case StartDeploy(o, n) => Put(s, o, Deploying(n, s.nodes[n].host, s.nodes[n].exit))
    case Install(o, role) => Installed(s, s.ops[o], role)
    case Uninstall(o, role) => s.(resources := s.resources - {KeyFor(s.ops[o], role)})
    case StartRemove(o, n) => Put(s, o, Removing(n, {}))
    case RemoveOne(o, role) =>
      Put(Cleared(s, s.ops[o].node, role), o, s.ops[o].(cleaned := s.ops[o].cleaned + {role}))
    case CommitRemove(o) => Forget(Drop(s, o), s.ops[o].node)
    case Plan(o, server) => Put(s, o, Planning(server, Graph(s, server), Hosts(s, server)))
    case TakeLocks(o) => Put(s, o, Locked(s.ops[o]))
    case Read(o) => Put(s, o, s.ops[o].(rows := Some(Rows(s, s.ops[o].server))))
    case CommitDelete(o) => Deleted(Drop(s, o), s.ops[o].server, s.ops[o].rows.value)
    case StartWork(o, k) =>
      Put(s, o, Working(k, s.tasks[k].attempts, false, false))
      .(tasks := s.tasks[k := s.tasks[k].(status := RUNNING, attempts := s.tasks[k].attempts + 1,
        nextAt := s.now + LEASE)])
    case Clean(o) => Put(s, o, s.ops[o].(clean := true)).(resources := s.resources - {s.ops[o].key})
    case Unanswered(o) =>
      Put(MarkedDone(s, s.ops[o].key), o, s.ops[o].(written := true))
    case Report(o, outcome) =>
      Drop(s, o).(tasks := s.tasks[s.ops[o].key := Outcomes(s.tasks[s.ops[o].key], outcome, s.ops[o].attempts, s.now)],
                  reopened := s.reopened + if s.ops[o].written then {s.ops[o].key} else {})
    case Retry(k) => s.(tasks := s.tasks[k := s.tasks[k].(status := PENDING, nextAt := s.now)])
    case StartSweep(o, server) => Put(s, o, Sweeping(server))
    case CommitSweep(o) => Drop(s, o).(servers := s.servers - {s.ops[o].server})
    case Stop(o) => Drop(s, o)
    case Lose(o) => s.(lost := s.lost + {o})
  }

  // The record is created first and then stored; when the row is gone by then, the
  // record is deleted again, unless that fails, which this step is about.
  function Provisioned(s: State, n: Id, host: Id): State {
    var t := s.(provisioned := s.provisioned + {n});
    if n in s.nodes then
      t.(nodes := s.nodes[n := s.nodes[n].(dns := true)], resources := s.resources + {Key(s.nodes[n].host, n, DNS)})
    else t.(leaked := s.leaked + {Key(host, n, DNS)})
  }

  function Cleared(s: State, n: Id, role: Role): State {
    s.(resources := set k | k in s.resources && !(k.node == n && k.role == role))
  }

  function KeyFor(op: Op, role: Role): Key
    requires op.Deploying?
  {
    Key(HostOf(op.host, op.exit, role), op.node, role)
  }

  // The intent to map the origin is stored before the first cloud write.
  function Installed(s: State, op: Op, role: Role): State
    requires op.Deploying?
  {
    if op.node !in s.nodes then s.(leaked := s.leaked + {KeyFor(op, role)})
    else
      var t := s.(resources := s.resources + {KeyFor(op, role)});
      if role == ORIGIN then t.(nodes := s.nodes[op.node := s.nodes[op.node].(origin := true)]) else t
  }

  // What the rows to be deleted have by now, and had not when they were read.
  function Missed(s: State, rows: map<Id, Node>): set<Key> {
    set k | k in s.resources && k.node in rows && k.node in s.nodes && k !in Targets(rows)
  }

  // What was left behind by a row that went after it was read.
  function Found(s: State, rows: map<Id, Node>): set<Key> {
    s.leaked * Targets(rows)
  }

  // One transaction: tasks that are missing, rows, status.
  function Deleted(s: State, server: Id, rows: map<Id, Node>): State {
    s.(tasks := Pushed(rows, server, s.now) + s.tasks, nodes := s.nodes - rows.Keys,
       servers := s.servers[server := Server(true)],
       resources := s.resources - Missed(s, rows) + Found(s, rows),
       leaked := s.leaked - Found(s, rows) + Missed(s, rows))
  }

  // ── Invariant ────────────────────────────────────────────────────────────

  // No node is attached to a server that is missing or being deleted.
  ghost predicate NodesOk(s: State) {
    && s.nodes.Keys <= s.ids && s.provisioned <= s.ids && s.rolledBack <= s.ids && s.rolledBack !! s.nodes.Keys
    && forall n <- s.nodes ::
      && OpenFor(s, s.nodes[n]) && (s.nodes[n].origin ==> s.nodes[n].mapped)
      && (s.nodes[n].dns ==> !s.nodes[n].mapped && n in s.provisioned)
  }

  // Unfinished tasks keep their host and their cause; tasks are of removed nodes.
  ghost predicate TasksOk(s: State) {
    forall k <- s.tasks :: TaskOk(s, k)
  }

  ghost predicate TaskOk(s: State, k: Key)
    requires k in s.tasks
  {
    && k.node in s.ids && k.node !in s.nodes && (k.role == DNS ==> k.node in s.provisioned)
    && (s.tasks[k].status != DONE ==>
        k.host in s.servers && (s.tasks[k].cause in s.servers || k in s.reopened)
          && s.tasks[k].nextAt <= s.now + MAX_BACKOFF)
  }

  ghost predicate Covered(s: State, k: Key) {
    (k.node in s.nodes && Answers(k.node, s.nodes[k.node], k)) || Unfinished(s.tasks, k)
  }

  // Every resource has a row or an unfinished task.
  ghost predicate ResourcesOk(s: State) {
    forall k <- s.resources :: Covered(s, k)
  }

  // Whatever else exists has neither a row nor a task of any status.
  ghost predicate LeaksOk(s: State) {
    forall k <- s.leaked :: LeakOk(s, k)
  }

  ghost predicate LeakOk(s: State, k: Key) {
    k.node in s.ids && k.node !in s.nodes && k !in s.tasks && (k.role == DNS || k.node in s.rolledBack)
  }

  ghost predicate LocksOk(s: State) {
    s.lost == {} && forall p <- s.ops, q <- s.ops :: p != q ==> Apart(s.ops[p], s.ops[q])
  }

  ghost predicate HostsLocked(s: State, n: Id, hosts: set<Id>) {
    n in s.nodes ==> s.nodes[n].host in hosts && (s.nodes[n].exit.Some? ==> s.nodes[n].exit.value in hosts)
  }

  // What a deletion has read is still so, but for a record added since.
  ghost predicate ReadOk(s: State, server: Id, graph: set<Id>, hosts: set<Id>, rows: map<Id, Node>) {
    && rows.Keys <= graph
    && (forall n <- s.nodes :: Touches(s.nodes[n], server) ==> n in rows)
    && (forall k <- Targets(rows) :: k.host in hosts && k.host in s.servers)
    && (forall n <- rows :: (n in s.nodes || n in s.rolledBack) && (rows[n].dns ==> n in s.provisioned))
    && (forall k <- s.resources :: k.node in rows && k.node in s.nodes ==>
       k in Targets(rows) || (k.role == DNS && !rows[k.node].dns))
  }

  ghost predicate OpOk(s: State, op: Op) {
    match op
    case Creating(row) => OpenFor(s, row) && !row.dns && !row.origin
    case Deploying(n, host, exit) =>
      && ((n in s.nodes && s.nodes[n].host == host && s.nodes[n].exit == exit) || (n !in s.nodes && n in s.rolledBack))
      && forall k <- s.tasks :: k.node != n
    case Removing(n, cleaned) => forall k <- s.resources :: k.node == n && k.role != DNS ==> k.role !in cleaned
    case Planning(server, graph, hosts) => server in hosts && graph <= s.ids && forall n <- graph ::
      HostsLocked(s, n, hosts)
    case Deleting(server, graph, hosts, rows) =>
      && server in hosts && graph <= s.ids && (forall n <- graph :: HostsLocked(s, n, hosts))
      && (rows.Some? ==> server in s.servers && ReadOk(s, server, graph, hosts, rows.value))
    case Working(k, _, clean, written) =>
      && k in s.tasks && k.host in s.servers && (clean ==> k !in s.resources)
      && (if written then clean && s.tasks[k].status == DONE else s.tasks[k].status == RUNNING)
    case Sweeping(server) =>
      server in s.servers && s.servers[server].deleting && !Needed(s, server) && Graph(s, server) == {}
  }

  ghost predicate OpsOk(s: State) {
    forall p <- s.ops :: OpOk(s, s.ops[p])
  }

  ghost predicate Inv(s: State) {
    NodesOk(s) && TasksOk(s) && ResourcesOk(s) && LeaksOk(s) && LocksOk(s) && OpsOk(s)
  }

  // ── Sessions ─────────────────────────────────────────────────────────────

  // op is in flight beside the calls of s and excludes them.
  ghost predicate Beside(s: State, op: Op) {
    OpOk(s, op) && forall p <- s.ops :: Apart(s.ops[p], op)
  }

  ghost predicate SameDb(s: State, t: State) {
    t == s.(ops := t.ops, lost := t.lost)
  }

  lemma SameOpOk(s: State, t: State, op: Op)
    requires SameDb(s, t)
    ensures OpOk(s, op) <==> OpOk(t, op)
  {
    match op
    case Deleting(server, graph, hosts, rows) =>
      assert rows.Some? ==>
        (ReadOk(s, server, graph, hosts, rows.value) <==> ReadOk(t, server, graph, hosts, rows.value));
    case _ =>
  }

  lemma Dropped(s: State, o: nat)
    requires Inv(s) && o in s.ops
    ensures Inv(Drop(s, o)) && Beside(Drop(s, o), s.ops[o])
    ensures o !in Drop(s, o).ops && o !in Drop(s, o).lost
  {
    var t := Drop(s, o);
    SameOpOk(s, t, s.ops[o]);
    forall p <- t.ops
      ensures OpOk(t, t.ops[p])
    {
      assert OpOk(s, s.ops[p]);
      SameOpOk(s, t, s.ops[p]);
    }
    DbKept(s, t);
  }

  lemma DbKept(s: State, t: State)
    requires NodesOk(s) && TasksOk(s) && ResourcesOk(s) && LeaksOk(s) && SameDb(s, t)
    ensures NodesOk(t) && TasksOk(t) && ResourcesOk(t) && LeaksOk(t)
  {
    forall k <- t.resources
      ensures Covered(t, k)
    {
      assert Covered(s, k);
    }
  }

  lemma Added(s: State, o: nat, op: Op)
    requires Inv(s) && Beside(s, op) && o !in s.ops
    ensures Inv(Put(s, o, op))
  {
    var t := Put(s, o, op);
    forall p <- t.ops
      ensures OpOk(t, t.ops[p])
    {
      assert p != o ==> OpOk(s, s.ops[p]);
      SameOpOk(s, t, t.ops[p]);
    }
    DbKept(s, t);
  }

  lemma PutBack(s: State, o: nat, op: Op)
    requires o in s.ops && s.lost == {}
    ensures Put(Drop(s, o), o, op) == Put(s, o, op)
  {
  }

  lemma FewerLocks(s: State, op: Op, next: Op)
    requires Beside(s, op) && OpOk(s, next) && Locks(next) <= Locks(op)
    ensures Beside(s, next)
  {
    forall p <- s.ops
      ensures Apart(s.ops[p], next)
    {
      assert Apart(s.ops[p], op);
    }
  }

  // A call that goes on with other data and no further locks.
  lemma Replaced(s: State, o: nat, op: Op)
    requires Inv(s) && o in s.ops && OpOk(s, op) && Locks(op) <= Locks(s.ops[o])
    ensures Inv(Put(s, o, op))
  {
    Dropped(s, o);
    SameOpOk(s, Drop(s, o), op);
    FewerLocks(Drop(s, o), s.ops[o], op);
    Added(Drop(s, o), o, op);
    PutBack(s, o, op);
  }

  // ── Every step keeps the invariant, while no lock is lost ────────────────

  lemma Waited(s: State, time: nat)
    requires Inv(s)
    ensures Inv(s.(now := s.now + time))
  {
    var t := s.(now := s.now + time);
    forall p <- t.ops
      ensures OpOk(t, t.ops[p])
    {
      assert OpOk(s, s.ops[p]);
      WaitedOp(s, time, s.ops[p]);
    }
    assert forall k <- t.resources :: Covered(s, k) ==> Covered(t, k);
  }

  lemma WaitedOp(s: State, time: nat, op: Op)
    requires OpOk(s, op)
    ensures OpOk(s.(now := s.now + time), op)
  {
  }

  lemma ServerAdded(s: State, server: Id)
    requires Inv(s) && server !in s.servers
    ensures Inv(s.(servers := s.servers[server := Server(false)]))
  {
    var t := s.(servers := s.servers[server := Server(false)]);
    forall p <- t.ops
      ensures OpOk(t, t.ops[p])
    {
      assert OpOk(s, s.ops[p]);
      ServerAddedOp(s, server, s.ops[p]);
    }
    assert forall k <- t.resources :: Covered(s, k) ==> Covered(t, k);
  }

  lemma ServerAddedOp(s: State, server: Id, op: Op)
    requires OpOk(s, op) && server !in s.servers
    ensures OpOk(s.(servers := s.servers[server := Server(false)]), op)
  {
  }

  lemma Shrunk(s: State, r: set<Key>)
    requires Inv(s) && r <= s.resources
    ensures Inv(s.(resources := r))
  {
    var t := s.(resources := r);
    forall p <- t.ops
      ensures OpOk(t, t.ops[p])
    {
      assert OpOk(s, s.ops[p]);
      ShrunkOp(s, r, s.ops[p]);
    }
    assert forall k <- t.resources :: Covered(s, k) ==> Covered(t, k);
  }

  lemma ShrunkOp(s: State, r: set<Key>, op: Op)
    requires OpOk(s, op) && r <= s.resources
    ensures OpOk(s.(resources := r), op)
  {
  }

  lemma Created(s: State, op: Op, n: Id)
    requires Inv(s) && Beside(s, op) && op.Creating? && n !in s.ids
    ensures Inv(s.(nodes := s.nodes[n := op.row], ids := s.ids + {n}))
  {
    var t := s.(nodes := s.nodes[n := op.row], ids := s.ids + {n});
    forall p <- t.ops
      ensures OpOk(t, t.ops[p])
    {
      assert OpOk(s, s.ops[p]);
      CreatedOp(s, op, n, s.ops[p]);
    }
    assert forall k <- t.resources :: Covered(s, k) ==> Covered(t, k);
  }

  lemma CreatedOp(s: State, op: Op, n: Id, other: Op)
    requires NodesOk(s) && OpOk(s, other) && op.Creating? && n !in s.ids && Apart(other, op)
    ensures OpOk(s.(nodes := s.nodes[n := op.row], ids := s.ids + {n}), other)
  {
    match other
    case Deleting(server, _, _, _) => assert Ports(server) !in Locks(op);
    case Sweeping(server) =>
      assert Ports(server) !in Locks(op);
      assert forall m <- s.nodes :: m !in Graph(s, server);
    case _ =>
  }

  lemma TaskChanged(s: State, op: Op, k: Key, task: Task)
    requires Inv(s) && k in s.tasks && forall p <- s.ops :: s.ops[p].Working? ==> s.ops[p].key != k
    requires task.cause == s.tasks[k].cause && s.tasks[k].status != DONE && task.nextAt <= s.now + MAX_BACKOFF
    requires task.status == DONE ==> k !in s.resources
    ensures Inv(s.(tasks := s.tasks[k := task]))
  {
    var t := s.(tasks := s.tasks[k := task]);
    forall p <- t.ops
      ensures OpOk(t, t.ops[p])
    {
      assert OpOk(s, s.ops[p]);
      TaskChangedOp(s, k, task, s.ops[p]);
    }
    assert forall j <- t.resources :: Covered(s, j) ==> Covered(t, j);
  }

  lemma TaskChangedOp(s: State, k: Key, task: Task, op: Op)
    requires OpOk(s, op) && k in s.tasks && (op.Working? ==> op.key != k)
    requires task.cause == s.tasks[k].cause && s.tasks[k].status != DONE
    ensures OpOk(s.(tasks := s.tasks[k := task]), op)
  {
    match op
    case Sweeping(server) =>
      assert !Needed(s, server);
      assert Unfinished(s.tasks, k);
    case _ =>
  }

  lemma Swept(s: State, op: Op)
    requires Inv(s) && Beside(s, op) && op.Sweeping?
    ensures Inv(s.(servers := s.servers - {op.server}))
  {
    var t := s.(servers := s.servers - {op.server});
    forall n <- s.nodes
      ensures OpenFor(t, t.nodes[n])
    {
      assert n !in Graph(s, op.server);
      assert OpenFor(s, s.nodes[n]);
    }
    forall k <- s.tasks | s.tasks[k].status != DONE
      ensures k.host in t.servers && (s.tasks[k].cause in t.servers || k in s.reopened)
    {
      assert Unfinished(s.tasks, k);
    }
    forall p <- t.ops
      ensures OpOk(t, t.ops[p])
    {
      assert OpOk(s, s.ops[p]);
      SweptOp(s, op, s.ops[p]);
    }
    assert forall k <- t.resources :: Covered(s, k) ==> Covered(t, k);
  }

  lemma SweptOp(s: State, op: Op, other: Op)
    requires OpOk(s, other) && op.Sweeping? && Apart(other, op)
    ensures OpOk(s.(servers := s.servers - {op.server}), other)
  {
    var lock := Ports(op.server);
    assert lock in Locks(op) && lock !in Locks(other);
  }

  lemma Lost(s: State, n: Id, late: bool)
    requires Inv(s) && n in s.nodes
    requires !late ==> forall p <- s.ops :: OfNode(n) !in Locks(s.ops[p])
    requires !late ==> forall k <- s.resources :: k.node == n ==> k.role == DNS
    ensures Inv(Forget(s, n).(rolledBack := s.rolledBack + if late then {n} else {}))
  {
    var t := Forget(s, n).(rolledBack := s.rolledBack + if late then {n} else {});
    forall p <- t.ops
      ensures OpOk(t, t.ops[p])
    {
      assert OpOk(s, s.ops[p]);
      LostOp(s, n, late, s.ops[p]);
    }
    assert forall k <- t.resources :: Covered(s, k) ==> Covered(t, k);
  }

  lemma LostOp(s: State, n: Id, late: bool, op: Op)
    requires NodesOk(s) && OpOk(s, op) && n in s.nodes && (late || OfNode(n) !in Locks(op))
    ensures OpOk(Forget(s, n).(rolledBack := s.rolledBack + if late then {n} else {}), op)
  {
    match op
    case Sweeping(server) => assert forall m <- s.nodes :: m !in Graph(s, server);
    case _ =>
  }

  lemma RecordAdded(s: State, n: Id, host: Id)
    requires Inv(s) && Enabled(s, Provision(n, host))
    ensures Inv(Provisioned(s, n, host))
  {
    var t := Provisioned(s, n, host);
    forall p <- t.ops
      ensures OpOk(t, t.ops[p])
    {
      assert OpOk(s, s.ops[p]);
      RecordAddedOp(s, n, host, s.ops[p]);
    }
    RecordAddedDb(s, n, host);
    assert LocksOk(t);
  }

  lemma RecordAddedDb(s: State, n: Id, host: Id)
    requires NodesOk(s) && TasksOk(s) && ResourcesOk(s) && LeaksOk(s) && Enabled(s, Provision(n, host))
    ensures var t := Provisioned(s, n, host); NodesOk(t) && TasksOk(t) && ResourcesOk(t) && LeaksOk(t)
  {
    var t := Provisioned(s, n, host);
    forall k <- t.resources
      ensures Covered(t, k)
    {
      assert k in s.resources ==> Covered(s, k);
    }
    forall k <- t.tasks
      ensures TaskOk(t, k)
    {
      assert TaskOk(s, k);
    }
    forall k <- t.leaked
      ensures LeakOk(t, k)
    {
      assert k in s.leaked ==> LeakOk(s, k);
      assert k !in s.leaked && k in s.tasks ==> TaskOk(s, k);
    }
  }

  lemma RecordAddedOp(s: State, n: Id, host: Id, op: Op)
    requires NodesOk(s) && TasksOk(s) && OpOk(s, op) && Enabled(s, Provision(n, host))
    ensures OpOk(Provisioned(s, n, host), op)
  {
    match op
    case Deleting(server, graph, hosts, rows) =>
      if rows.Some? {
        RecordAddedRead(s, n, host, server, graph, hosts, rows.value);
      }
    case Sweeping(server) => assert forall m <- s.nodes :: m !in Graph(s, server);
    case _ =>
  }

  lemma RecordAddedRead(s: State, n: Id, host: Id, server: Id, graph: set<Id>, hosts: set<Id>, rows: map<Id, Node>)
    requires ReadOk(s, server, graph, hosts, rows) && Enabled(s, Provision(n, host))
    ensures ReadOk(Provisioned(s, n, host), server, graph, hosts, rows)
  {
  }

  lemma InstallKept(s: State, o: nat, role: Role)
    requires Inv(s) && Enabled(s, Install(o, role))
    ensures Inv(Installed(s, s.ops[o], role))
  {
    var t := Installed(s, s.ops[o], role);
    assert OpOk(s, s.ops[o]);
    forall p <- t.ops
      ensures OpOk(t, t.ops[p])
    {
      assert OpOk(s, s.ops[p]);
      if p == o {
        InstallKeptSelf(s, s.ops[o], role);
      } else {
        InstallKeptOp(s, s.ops[o], role, s.ops[p]);
      }
    }
    InstallKeptDb(s, s.ops[o], role);
  }

  lemma InstallKeptSelf(s: State, op: Op, role: Role)
    requires op.Deploying? && OpOk(s, op)
    ensures OpOk(Installed(s, op, role), op)
  {
  }

  lemma InstallKeptDb(s: State, op: Op, role: Role)
    requires NodesOk(s) && TasksOk(s) && ResourcesOk(s) && LeaksOk(s) && op.Deploying? && OpOk(s, op)
    requires op.node in s.nodes ==> Deployable(role, s.nodes[op.node])
    ensures var t := Installed(s, op, role); NodesOk(t) && TasksOk(t) && ResourcesOk(t) && LeaksOk(t)
  {
    var t := Installed(s, op, role);
    forall k <- t.resources
      ensures Covered(t, k)
    {
      assert k in s.resources ==> Covered(s, k);
    }
  }

  lemma InstallKeptOp(s: State, op: Op, role: Role, other: Op)
    requires NodesOk(s) && TasksOk(s) && OpOk(s, other) && op.Deploying? && OpOk(s, op) && Apart(other, op)
    ensures OpOk(Installed(s, op, role), other)
  {
    var lock := OfNode(op.node);
    assert lock in Locks(op) && lock !in Locks(other);
    if op.node !in s.nodes {
      LateInstallOp(s, KeyFor(op, role), other);
    } else {
      InstallKeptIn(s, op, role, other);
    }
  }

  lemma InstallKeptIn(s: State, op: Op, role: Role, other: Op)
    requires OpOk(s, other) && op.Deploying? && op.node in s.nodes && OfNode(op.node) !in Locks(other)
    requires forall k <- s.tasks :: k.node != op.node
    ensures OpOk(Installed(s, op, role), other)
  {
    match other
    case Deleting(server, graph, hosts, rows) =>
      if rows.Some? {
        InstallKeptRead(s, op, role, server, graph, hosts, rows.value);
      }
    case Sweeping(server) => assert forall m <- s.nodes :: m !in Graph(s, server);
    case _ =>
  }

  lemma LateInstallOp(s: State, k: Key, op: Op)
    requires OpOk(s, op)
    ensures OpOk(s.(leaked := s.leaked + {k}), op)
  {
  }

  lemma InstallKeptRead(s: State, op: Op, role: Role, server: Id, graph: set<Id>, hosts: set<Id>, rows: map<Id, Node>)
    requires ReadOk(s, server, graph, hosts, rows) && op.Deploying? && op.node !in graph
    ensures ReadOk(Installed(s, op, role), server, graph, hosts, rows)
  {
  }

  lemma DeletedKept(s: State, op: Op)
    requires Inv(s) && Beside(s, op) && op.Deleting? && op.rows.Some?
    ensures Inv(Deleted(s, op.server, op.rows.value))
  {
    var t := Deleted(s, op.server, op.rows.value);
    forall p <- t.ops
      ensures OpOk(t, t.ops[p])
    {
      assert OpOk(s, s.ops[p]);
      DeletedKeptOp(s, op, s.ops[p]);
    }
    DeletedNodes(s, op.server, op.rows.value);
    DeletedTasks(s, op);
    DeletedResources(s, op);
    DeletedLeaks(s, op);
  }

  ghost predicate ReadyToDelete(s: State, op: Op) {
    op.Deleting? && op.rows.Some? && OpOk(s, op) && NodesOk(s) && TasksOk(s) && LeaksOk(s)
  }

  lemma DeletedNodes(s: State, server: Id, rows: map<Id, Node>)
    requires NodesOk(s) && forall n <- s.nodes :: Touches(s.nodes[n], server) ==> n in rows
    ensures NodesOk(Deleted(s, server, rows))
  {
    var t := Deleted(s, server, rows);
    forall n <- t.nodes
      ensures OpenFor(t, t.nodes[n])
    {
      assert OpenFor(s, s.nodes[n]) && !Touches(s.nodes[n], server);
    }
  }

  lemma DeletedTasks(s: State, op: Op)
    requires ReadyToDelete(s, op)
    ensures TasksOk(Deleted(s, op.server, op.rows.value))
  {
    var t := Deleted(s, op.server, op.rows.value);
    forall k <- t.tasks
      ensures TaskOk(t, k)
    {
      if k !in s.tasks {
        assert k in Targets(op.rows.value);
        PushedTask(s, op, k);
      } else {
        assert TaskOk(s, k);
      }
    }
  }

  lemma PushedTask(s: State, op: Op, k: Key)
    requires ReadyToDelete(s, op) && k in Targets(op.rows.value)
    ensures k.node in op.rows.value && k.node in s.ids && (k.role == DNS ==> k.node in s.provisioned)
      && k.host in s.servers
  {
    assert Answers(k.node, op.rows.value[k.node], k);
  }

  lemma DeletedResources(s: State, op: Op)
    requires ReadyToDelete(s, op) && ResourcesOk(s)
    ensures ResourcesOk(Deleted(s, op.server, op.rows.value))
  {
    var t := Deleted(s, op.server, op.rows.value);
    forall k <- t.resources
      ensures Covered(t, k)
    {
      if k in Found(s, op.rows.value) {
        assert k in Targets(op.rows.value) && k !in s.tasks;
      } else {
        assert Covered(s, k);
        if k.node in s.nodes && k.node in op.rows.value {
          assert k in Targets(op.rows.value) && k !in s.tasks;
        }
      }
    }
  }

  lemma DeletedLeaks(s: State, op: Op)
    requires ReadyToDelete(s, op)
    ensures LeaksOk(Deleted(s, op.server, op.rows.value))
  {
    var t := Deleted(s, op.server, op.rows.value);
    forall k <- t.leaked
      ensures LeakOk(t, k)
    {
      if k in Missed(s, op.rows.value) {
        MissedIsOk(s, op, k);
      } else {
        assert LeakOk(s, k) && k !in Targets(op.rows.value);
      }
    }
  }

  lemma MissedIsOk(s: State, op: Op, k: Key)
    requires ReadyToDelete(s, op) && k in Missed(s, op.rows.value)
    ensures LeakOk(Deleted(s, op.server, op.rows.value), k)
  {
    assert k !in s.tasks;
    ReadAnswers(s, op, k);
  }

  lemma DeletedKeptOp(s: State, op: Op, other: Op)
    requires ReadyToDelete(s, op) && OpOk(s, other) && Apart(other, op)
    ensures OpOk(Deleted(s, op.server, op.rows.value), other)
  {
    var rows := op.rows.value;
    assert Ports(op.server) in Locks(op) && Ports(op.server) !in Locks(other);
    match other
    case Creating(_) =>
    case Deploying(n, _, _) => assert OfNode(n) in Locks(other) && OfNode(n) !in Locks(op);
    case Removing(n, _) => assert OfNode(n) in Locks(other) && OfNode(n) !in Locks(op);
    case Planning(server, graph, hosts) => DeletedPlan(s, op, graph, hosts);
    case Deleting(server, graph, hosts, read) =>
      DeletedPlan(s, op, graph, hosts);
      if read.Some? {
        forall n <- graph
          ensures n !in op.graph
        {
          assert OfNode(n) in Locks(other) && OfNode(n) !in Locks(op);
        }
        DeletedRead(s, op, server, graph, hosts, read.value);
      }
    case Working(_, _, _, _) =>
    case Sweeping(server) => DeletedSweep(s, op, server);
  }

  lemma DeletedPlan(s: State, op: Op, graph: set<Id>, hosts: set<Id>)
    requires ReadyToDelete(s, op) && forall n <- graph :: HostsLocked(s, n, hosts)
    ensures forall n <- graph :: HostsLocked(Deleted(s, op.server, op.rows.value), n, hosts)
  {
  }

  lemma DeletedRead(s: State, op: Op, server: Id, graph: set<Id>, hosts: set<Id>, read: map<Id, Node>)
    requires op.Deleting? && op.rows.Some? && op.rows.value.Keys <= op.graph && LeaksOk(s)
    requires ReadOk(s, server, graph, hosts, read) && graph !! op.graph
    ensures ReadOk(Deleted(s, op.server, op.rows.value), server, graph, hosts, read)
  {
    var t := Deleted(s, op.server, op.rows.value);
    forall k <- t.resources | k.node in read && k.node in t.nodes
      ensures k in Targets(read) || (k.role == DNS && !read[k.node].dns)
    {
      assert k in s.resources;
    }
  }

  lemma DeletedSweep(s: State, op: Op, server: Id)
    requires ReadyToDelete(s, op) && OpOk(s, Sweeping(server)) && Apart(Sweeping(server), op)
    ensures OpOk(Deleted(s, op.server, op.rows.value), Sweeping(server))
  {
    assert Core(server) in Locks(Sweeping(server)) && Core(server) !in Locks(op);
    assert server !in op.hosts;
    PushedElsewhere(s, op.server, op.rows.value, server);
    assert forall m <- s.nodes :: m !in Graph(s, server);
  }

  lemma PushedElsewhere(s: State, cause: Id, rows: map<Id, Node>, server: Id)
    requires !Needed(s, server) && cause != server && forall k <- Targets(rows) :: k.host != server
    ensures !Needed(Deleted(s, cause, rows), server)
  {
    var t := Deleted(s, cause, rows);
    forall k <- t.tasks
      ensures !(Unfinished(t.tasks, k) && (k.host == server || (t.tasks[k].cause == server && k !in t.reopened)))
    {
      assert k in s.tasks ==> (Unfinished(t.tasks, k) <==> Unfinished(s.tasks, k));
    }
  }

  // ── The whole invariant ──────────────────────────────────────────────────

  lemma CallStarts(s: State, o: nat, op: Op)
    requires Inv(s) && FreshOp(s, o, op) && OpOk(s, op)
    ensures Inv(Put(s, o, op))
  {
    Added(s, o, op);
  }

  lemma StepKeepsInv(s: State, step: Step)
    requires Inv(s) && Enabled(s, step) && !step.Lose?
    ensures Inv(Apply(s, step))
  {
    if StartsCall(step) || EndsCall(step) {
      EdgeStep(s, step);
    } else if step.Provision? || step.RollbackCreated? || step.AddServer? {
      RowStep(s, step);
    } else {
      OtherStep(s, step);
    }
  }

  lemma EdgeStep(s: State, step: Step)
    requires Inv(s) && Enabled(s, step) && (StartsCall(step) || EndsCall(step))
    ensures Inv(Apply(s, step))
  {
    if StartsCall(step) {
      CallStep(s, step);
    } else {
      LastStep(s, step);
    }
  }

  lemma RowStep(s: State, step: Step)
    requires Inv(s) && Enabled(s, step) && (step.Provision? || step.RollbackCreated? || step.AddServer?)
    ensures Inv(Apply(s, step))
  {
    if step.Provision? {
      RecordAdded(s, step.node, step.host);
    } else if step.RollbackCreated? {
      RollbackStep(s, step.node);
    } else {
      ServerAdded(s, step.server);
    }
  }

  lemma OtherStep(s: State, step: Step)
    requires Inv(s) && Enabled(s, step) && !step.Lose? && !StartsCall(step) && !EndsCall(step)
    requires !step.Provision? && !step.RollbackCreated? && !step.AddServer?
    ensures Inv(Apply(s, step))
  {
    if step.Wait? {
      WaitStep(s, step.time);
    } else if step.Retry? {
      RetryStep(s, step.key);
    } else if OnHosts(step) {
      HostStep(s, step);
    } else {
      TaskStep(s, step);
    }
  }

  lemma WaitStep(s: State, time: nat)
    requires Inv(s)
    ensures Inv(Apply(s, Wait(time)))
  {
    var t := s.(now := s.now + time);
    Waited(s, time);
    assert Apply(s, Wait(time)) == t;
  }

  predicate StartsCall(step: Step) {
    step.StartDeploy? || step.StartCreate? || step.StartRemove? || step.StartSweep?
  }

  predicate EndsCall(step: Step) {
    step.FinishCreate? || step.CommitDelete? || step.CommitSweep? || step.Stop?
  }

  // The steps that change rows, or what exists on hosts.
  predicate OnRows(step: Step) {
    || OnHosts(step) || step.FinishCreate? || step.Provision? || step.RollbackCreated? || step.CommitDelete?
    || step.AddServer? || step.CommitSweep?
  }

  // All other steps leave them alone, but for what a worker cleans.
  lemma CallsKeepRows(s: State, step: Step)
    requires Enabled(s, step) && !OnRows(step)
    ensures var t := Apply(s, step);
      && t.nodes == s.nodes && t.servers == s.servers && t.leaked == s.leaked && t.resources <= s.resources
      && s.tasks.Keys <= t.tasks.Keys
  {
  }

  // Nor do those touch a task that is there, or the call of another.
  lemma RowsKeepCalls(s: State, step: Step)
    requires Enabled(s, step) && OnRows(step)
    ensures var t := Apply(s, step);
      && t.reopened == s.reopened && (forall k <- s.tasks :: k in t.tasks && t.tasks[k] == s.tasks[k])
      && (forall p <- s.ops :: Actor(step) != Some(p) ==> p in t.ops && t.ops[p] == s.ops[p])
      && (forall p <- t.ops :: p in s.ops && (t.ops[p].Working? ==> t.ops[p] == s.ops[p]))
  {
    RowsKeepTasks(s, step);
  }

  lemma RowsKeepTasks(s: State, step: Step)
    requires Enabled(s, step) && OnRows(step)
    ensures var t := Apply(s, step);
      t.reopened == s.reopened && forall k <- s.tasks :: k in t.tasks && t.tasks[k] == s.tasks[k]
  {
  }

  predicate OnHosts(step: Step) {
    step.Install? || step.Uninstall? || step.RemoveOne? || step.CommitRemove?
  }

  lemma RollbackStep(s: State, n: Id)
    requires Inv(s) && n in s.nodes
    ensures Inv(Apply(s, RollbackCreated(n)))
  {
    Lost(s, n, true);
  }

  lemma HostStep(s: State, step: Step)
    requires Inv(s) && Enabled(s, step) && OnHosts(step)
    ensures Inv(Apply(s, step))
  {
    match step
    case Install(o, role) => InstallKept(s, o, role);
    case Uninstall(o, role) => Shrunk(s, s.resources - {KeyFor(s.ops[o], role)});
    case RemoveOne(o, role) => RemoveStep(s, o, role);
    case CommitRemove(o) => CommitRemoveStep(s, o);
  }

  lemma TaskStep(s: State, step: Step)
    requires Inv(s) && Enabled(s, step) && !step.Lose? && !StartsCall(step) && !EndsCall(step) && !OnHosts(step)
    requires !step.Provision? && !step.RollbackCreated? && !step.Wait? && !step.AddServer? && !step.Retry?
    ensures Inv(Apply(s, step))
  {
    match step
    case Plan(o, server) => PlanStep(s, o, server);
    case TakeLocks(o) => TakeLocksStep(s, o);
    case Read(o) => ReadStep(s, o);
    case StartWork(o, k) => StartWorkStep(s, o, k);
    case Clean(o) => CleanStep(s, o);
    case Unanswered(o) => UnansweredStep(s, o);
    case Report(o, outcome) => ReportStep(s, o, outcome);
  }

  lemma CallStep(s: State, step: Step)
    requires Inv(s) && Enabled(s, step) && StartsCall(step)
    ensures Inv(Apply(s, step))
  {
    match step
    case StartDeploy(o, n) => CallStarts(s, o, Deploying(n, s.nodes[n].host, s.nodes[n].exit));
    case StartCreate(o, row) => CallStarts(s, o, Creating(row));
    case StartRemove(o, n) => CallStarts(s, o, Removing(n, {}));
    case StartSweep(o, server) => CallStarts(s, o, Sweeping(server));
  }

  // The steps that end a call.
  lemma LastStep(s: State, step: Step)
    requires Inv(s) && Enabled(s, step) && EndsCall(step)
    ensures Inv(Apply(s, step))
  {
    Dropped(s, step.o);
    match step
    case FinishCreate(o, n) => Created(Drop(s, o), s.ops[o], n);
    case CommitDelete(o) => DeletedKept(Drop(s, o), s.ops[o]);
    case CommitSweep(o) => Swept(Drop(s, o), s.ops[o]);
    case Stop(o) =>
  }

  lemma RemoveStep(s: State, o: nat, role: Role)
    requires Inv(s) && Enabled(s, RemoveOne(o, role))
    ensures Inv(Apply(s, RemoveOne(o, role)))
  {
    var op := s.ops[o];
    var t := Cleared(s, op.node, role);
    Shrunk(s, t.resources);
    assert OpOk(s, op);
    ClearedOk(s, op, role);
    Replaced(t, o, op.(cleaned := op.cleaned + {role}));
  }

  lemma ClearedOk(s: State, op: Op, role: Role)
    requires op.Removing? && OpOk(s, op)
    ensures OpOk(Cleared(s, op.node, role), op.(cleaned := op.cleaned + {role}))
  {
  }

  lemma CommitRemoveStep(s: State, o: nat)
    requires Inv(s) && Enabled(s, CommitRemove(o))
    ensures Inv(Apply(s, CommitRemove(o)))
  {
    var d, op := Drop(s, o), s.ops[o];
    Dropped(s, o);
    assert OfNode(op.node) in Locks(op);
    forall p <- d.ops
      ensures OfNode(op.node) !in Locks(d.ops[p])
    {
      assert Apart(d.ops[p], op);
    }
    Lost(d, op.node, false);
    assert d.rolledBack + {} == d.rolledBack;
  }

  lemma PlanStep(s: State, o: nat, server: Id)
    requires Inv(s) && Enabled(s, Plan(o, server))
    ensures Inv(Apply(s, Plan(o, server)))
  {
    Added(s, o, Planning(server, Graph(s, server), Hosts(s, server)));
  }

  lemma TakeLocksStep(s: State, o: nat)
    requires Inv(s) && Enabled(s, TakeLocks(o))
    ensures Inv(Apply(s, TakeLocks(o)))
  {
    var d, op := Drop(s, o), Locked(s.ops[o]);
    Dropped(s, o);
    PlanIsOk(d, s.ops[o]);
    assert Beside(d, op);
    Added(d, o, op);
    PutBack(s, o, op);
  }

  lemma PlanIsOk(s: State, op: Op)
    requires op.Planning? && OpOk(s, op)
    ensures OpOk(s, Locked(op))
  {
  }

  lemma ReadStep(s: State, o: nat)
    requires Inv(s) && Enabled(s, Read(o))
    ensures Inv(Apply(s, Read(o)))
  {
    var op := s.ops[o];
    assert OpOk(s, op);
    var rows := Rows(s, op.server);
    forall k <- Targets(rows)
      ensures k.host in op.hosts && k.host in s.servers
    {
      assert HostsLocked(s, k.node, op.hosts);
    }
    forall k <- s.resources | k.node in rows
      ensures k in Targets(rows)
    {
      assert Covered(s, k);
    }
    Replaced(s, o, op.(rows := Some(rows)));
  }

  lemma StartWorkStep(s: State, o: nat, k: Key)
    requires Inv(s) && Enabled(s, StartWork(o, k))
    ensures Inv(Apply(s, StartWork(o, k)))
  {
    var op := Working(k, s.tasks[k].attempts, false, false);
    var task := s.tasks[k].(status := RUNNING, attempts := s.tasks[k].attempts + 1, nextAt := s.now + LEASE);
    AloneOnTask(s, op);
    TaskChanged(s, op, k, task);
    var t := s.(tasks := s.tasks[k := task]);
    assert Beside(t, op);
    Added(t, o, op);
    assert Apply(s, StartWork(o, k)) == Put(t, o, op);
  }

  lemma AloneOnTask(s: State, op: Op)
    requires op.Working? && forall p <- s.ops :: Apart(s.ops[p], op)
    ensures forall p <- s.ops :: s.ops[p].Working? ==> s.ops[p].key != op.key
  {
    assert OfTask(op.key) in Locks(op);
    forall p <- s.ops | s.ops[p].Working?
      ensures s.ops[p].key != op.key
    {
      assert OfTask(op.key) !in Locks(s.ops[p]);
    }
  }

  lemma CleanStep(s: State, o: nat)
    requires Inv(s) && Enabled(s, Clean(o))
    ensures Inv(Apply(s, Clean(o)))
  {
    var t := s.(resources := s.resources - {s.ops[o].key});
    assert OpOk(s, s.ops[o]);
    Shrunk(s, t.resources);
    Replaced(t, o, s.ops[o].(clean := true));
  }

  lemma UnansweredStep(s: State, o: nat)
    requires Inv(s) && Enabled(s, Unanswered(o))
    ensures Inv(Apply(s, Unanswered(o)))
  {
    var d, op := Drop(s, o), s.ops[o];
    Dropped(s, o);
    Written(d, o, op);
    MarkedBack(s, o, op.key, op.(written := true));
  }

  lemma MarkedBack(s: State, o: nat, k: Key, op: Op)
    requires o in s.ops && s.lost == {} && k in s.tasks
    ensures Put(MarkedDone(Drop(s, o), k), o, op) == Put(MarkedDone(s, k), o, op)
  {
    assert s.ops - {o} + map[o := op] == s.ops[o := op];
  }

  function MarkedDone(s: State, k: Key): State
    requires k in s.tasks
  {
    s.(tasks := s.tasks[k := s.tasks[k].(status := DONE)])
  }

  lemma Written(s: State, o: nat, op: Op)
    requires Inv(s) && Beside(s, op) && o !in s.ops && op.Working? && op.clean && !op.written
    ensures Inv(Put(MarkedDone(s, op.key), o, op.(written := true)))
  {
    AloneOnTask(s, op);
    TaskChanged(s, op, op.key, s.tasks[op.key].(status := DONE));
    WrittenBeside(s, op);
    Added(MarkedDone(s, op.key), o, op.(written := true));
  }

  lemma WrittenBeside(s: State, op: Op)
    requires Beside(s, op) && op.Working? && op.clean && !op.written
    ensures Beside(MarkedDone(s, op.key), op.(written := true))
  {
    var t, next := MarkedDone(s, op.key), op.(written := true);
    assert OpOk(t, next) && Locks(next) == Locks(op);
    forall p <- t.ops
      ensures Apart(t.ops[p], next)
    {
      assert Apart(s.ops[p], op);
    }
  }

  lemma ReportStep(s: State, o: nat, outcome: Outcome)
    requires Inv(s) && Enabled(s, Report(o, outcome))
    ensures Inv(Apply(s, Report(o, outcome)))
  {
    var d, op := Drop(s, o), s.ops[o];
    Dropped(s, o);
    AloneOnTask(d, op);
    var task := Outcomes(d.tasks[op.key], outcome, op.attempts, d.now);
    if op.written {
      TaskReopened(d, op, task);
    } else {
      TaskChanged(d, op, op.key, task);
      assert s.reopened + {} == s.reopened;
    }
  }

  // Its cause may be gone by now, but not its host, which the worker locks.
  lemma TaskReopened(s: State, op: Op, task: Task)
    requires Inv(s) && Beside(s, op) && op.Working? && op.written
    requires forall p <- s.ops :: s.ops[p].Working? ==> s.ops[p].key != op.key
    requires task.cause == s.tasks[op.key].cause && task.status != DONE && task.nextAt <= s.now + MAX_BACKOFF
    ensures Inv(s.(tasks := s.tasks[op.key := task], reopened := s.reopened + {op.key}))
  {
    var t := s.(tasks := s.tasks[op.key := task], reopened := s.reopened + {op.key});
    forall p <- t.ops
      ensures OpOk(t, t.ops[p])
    {
      assert OpOk(s, s.ops[p]);
      TaskReopenedOp(s, op, task, s.ops[p]);
    }
    assert forall j <- t.resources :: Covered(s, j) ==> Covered(t, j);
  }

  lemma TaskReopenedOp(s: State, op: Op, task: Task, other: Op)
    requires OpOk(s, other) && OpOk(s, op) && op.Working? && Apart(other, op)
      && (other.Working? ==> other.key != op.key)
    requires task.cause == s.tasks[op.key].cause
    ensures OpOk(s.(tasks := s.tasks[op.key := task], reopened := s.reopened + {op.key}), other)
  {
    match other
    case Sweeping(server) => assert Core(op.key.host) in Locks(op) && Core(server) in Locks(other);
    case _ =>
  }

  lemma RetryStep(s: State, k: Key)
    requires Inv(s) && Enabled(s, Retry(k))
    ensures Inv(Apply(s, Retry(k)))
  {
    forall p <- s.ops | s.ops[p].Working?
      ensures s.ops[p].key != k
    {
      assert OpOk(s, s.ops[p]);
    }
    TaskChanged(s, Working(k, 0, false, false), k, s.tasks[k].(status := PENDING, nextAt := s.now));
  }

  // ── Whole runs ───────────────────────────────────────────────────────────

  function Empty(): State {
    State(0, map[], map[], map[], {}, {}, {}, {}, {}, {}, map[], {})
  }

  // Any steps of any calls, one after the other.
  ghost predicate Run(states: seq<State>, steps: seq<Step>) {
    && |states| == |steps| + 1
    && forall i :: 0 <= i < |steps| ==> Enabled(states[i], steps[i]) && states[i + 1] == Apply(states[i], steps[i])
  }

  // No call loses its locks before it ends.
  predicate Fenced(steps: seq<Step>) {
    forall step <- steps :: !step.Lose?
  }

  lemma {:induction false} RunKeepsInv(states: seq<State>, steps: seq<Step>, i: nat)
    requires Run(states, steps) && Fenced(steps) && Inv(states[0]) && i <= |steps|
    ensures Inv(states[i])
  {
    if i > 0 {
      RunKeepsInv(states, steps, i - 1);
      StepKeepsInv(states[i - 1], steps[i - 1]);
    }
  }

  lemma StartsWell()
    ensures Inv(Empty())
  {
  }

  // A step leaves a finished task only if it is the report of a worker on it that
  // does not know of its being finished.
  lemma LeavesDoneIff(s: State, step: Step, k: Key)
    requires Enabled(s, step) && k in s.tasks && s.tasks[k].status == DONE
    ensures k in Apply(s, step).tasks
    ensures Apply(s, step).tasks[k].status != DONE <==>
      step.Report? && s.ops[step.o].key == k && !step.outcome.Finished?
  {
    if OnRows(step) {
      RowsKeepCalls(s, step);
    } else {
      LeavesDoneIffOn(s, step, k);
    }
  }

  lemma LeavesDoneIffOn(s: State, step: Step, k: Key)
    requires Enabled(s, step) && k in s.tasks && s.tasks[k].status == DONE
    requires !OnRows(step)
    ensures k in Apply(s, step).tasks
    ensures Apply(s, step).tasks[k].status != DONE <==>
      step.Report? && s.ops[step.o].key == k && !step.outcome.Finished?
  {
    match step
    case CommitDelete(o) =>
    case StartWork(_, _) =>
    case Unanswered(_) =>
    case Report(_, _) =>
    case Retry(_) =>
    case _ =>
  }

  // Finished, and no worker is at it any more.
  predicate AtRest(s: State, k: Key) {
    k in s.tasks && s.tasks[k].status == DONE && forall p <- s.ops :: s.ops[p].Working? ==> s.ops[p].key != k
  }

  lemma StaysAtRest(s: State, step: Step, k: Key)
    requires Enabled(s, step) && AtRest(s, k)
    ensures AtRest(Apply(s, step), k)
  {
    LeavesDoneIff(s, step, k);
    match step
    case FinishCreate(_, _) =>
    case StartWork(_, _) =>
    case Clean(_) =>
    case Unanswered(_) =>
    case Report(_, _) =>
    case _ =>
  }

  lemma {:induction false} DoneIsTerminal(states: seq<State>, steps: seq<Step>, k: Key, i: nat, j: nat)
    requires Run(states, steps) && i <= j <= |steps| && AtRest(states[i], k)
    ensures AtRest(states[j], k)
  {
    if i < j {
      DoneIsTerminal(states, steps, k, i, j - 1);
      StaysAtRest(states[j - 1], steps[j - 1], k);
    }
  }

  ghost predicate Reopens(s: State, k: Key, states: seq<State>, steps: seq<Step>) {
    Run(states, steps) && Fenced(steps) && states[0] == s && k in states[|steps|].tasks
      && states[|steps|].tasks[k].status != DONE
  }

  // A finished task can be reopened, though no lock is lost, exactly if the worker
  // that finished it has not had the answer.
  lemma CanReopenIff(s: State, k: Key)
    requires Inv(s) && k in s.tasks && s.tasks[k].status == DONE
    ensures (exists states, steps :: Reopens(s, k, states, steps)) <==> !AtRest(s, k)
    ensures !AtRest(s, k) <==> exists p <- s.ops :: s.ops[p].Working? && s.ops[p].key == k && s.ops[p].written
  {
    if !AtRest(s, k) {
      var states, steps := ReopenedBy(s, k);
    }
    forall states, steps | AtRest(s, k) && Reopens(s, k, states, steps)
      ensures false
    {
      DoneIsTerminal(states, steps, k, 0, |steps|);
    }
  }

  lemma ReopenedBy(s: State, k: Key) returns (states: seq<State>, steps: seq<Step>)
    requires Inv(s) && k in s.tasks && s.tasks[k].status == DONE && !AtRest(s, k)
    ensures Reopens(s, k, states, steps)
    ensures exists p <- s.ops :: s.ops[p].Working? && s.ops[p].key == k && s.ops[p].written
  {
    var p :| p in s.ops && s.ops[p].Working? && s.ops[p].key == k;
    assert OpOk(s, s.ops[p]);
    LeavesDoneIff(s, Report(p, Failed), k);
    states, steps := Next([s], [], Report(p, Failed));
  }

  lemma StaysClean(s: State, step: Step, k: Key)
    requires Inv(s) && Enabled(s, step) && !step.Lose? && k in s.tasks && k !in s.resources
    ensures k in Apply(s, step).tasks && k !in Apply(s, step).resources
  {
    assert TaskOk(s, k);
    if step.CommitDelete? {
      DeletedStaysClean(Drop(s, step.o), s.ops[step.o].server, s.ops[step.o].rows.value, k);
    } else if OnRows(step) {
      assert step.Install? ==> OpOk(s, s.ops[step.o]);
      StaysCleanOn(s, step, k);
    } else {
      CallsKeepRows(s, step);
    }
  }

  lemma StaysCleanOn(s: State, step: Step, k: Key)
    requires Enabled(s, step) && OnRows(step) && !step.CommitDelete? && k in s.tasks && k !in s.resources
      && k.node !in s.nodes
    ensures k in Apply(s, step).tasks && k !in Apply(s, step).resources
  {
  }

  lemma DeletedStaysClean(s: State, server: Id, rows: map<Id, Node>, k: Key)
    requires LeaksOk(s) && k in s.tasks && k !in s.resources
    ensures k in Deleted(s, server, rows).tasks && k !in Deleted(s, server, rows).resources
  {
    assert k in s.leaked ==> LeakOk(s, k);
  }

  // Cleaning a finished task's resource is never needed again, reopened or not.
  lemma {:induction false} DoneStaysClean(states: seq<State>, steps: seq<Step>, k: Key, i: nat, j: nat)
    requires Run(states, steps) && Fenced(steps) && Inv(states[0]) && i <= j <= |steps|
    requires k in states[i].tasks && states[i].tasks[k].status == DONE
    ensures k in states[j].tasks && k !in states[j].resources
  {
    if i == j {
      RunKeepsInv(states, steps, i);
      assert k in states[i].resources ==> Covered(states[i], k);
    } else {
      DoneStaysClean(states, steps, k, i, j - 1);
      RunKeepsInv(states, steps, j - 1);
      StaysClean(states[j - 1], steps[j - 1], k);
    }
  }

  // Without an unanswered write nothing is reopened.
  lemma {:induction false} AnsweredReopensNone(states: seq<State>, steps: seq<Step>, i: nat)
    requires Run(states, steps) && states[0] == Empty() && i <= |steps| && forall step <- steps :: !step.Unanswered?
    ensures states[i].reopened == {} && forall p <- states[i].ops :: states[i].ops[p].Working? ==>
      !states[i].ops[p].written
  {
    if i > 0 {
      AnsweredReopensNone(states, steps, i - 1);
      ReopensNone(states[i - 1], steps[i - 1]);
    }
  }

  lemma ReopensNone(s: State, step: Step)
    requires Enabled(s, step) && !step.Unanswered?
    requires s.reopened == {} && forall p <- s.ops :: s.ops[p].Working? ==> !s.ops[p].written
    ensures Apply(s, step).reopened == {}
    ensures forall p <- Apply(s, step).ops :: Apply(s, step).ops[p].Working? ==> !Apply(s, step).ops[p].written
  {
    if OnRows(step) {
      RowsKeepCalls(s, step);
    } else {
      ReopensNoneOn(s, step);
    }
  }

  lemma ReopensNoneOn(s: State, step: Step)
    requires Enabled(s, step) && !step.Unanswered?
    requires s.reopened == {} && forall p <- s.ops :: s.ops[p].Working? ==> !s.ops[p].written
    requires !OnRows(step)
    ensures Apply(s, step).reopened == {}
    ensures forall p <- Apply(s, step).ops :: Apply(s, step).ops[p].Working? ==> !Apply(s, step).ops[p].written
  {
  }

  lemma RowLeaver(s: State, step: Step, n: Id)
    requires Enabled(s, step) && n in s.nodes && n !in Apply(s, step).nodes
    ensures step.CommitDelete? || step.CommitRemove? || step.RollbackCreated?
  {
    if OnRows(step) {
      RowLeaverOn(s, step, n);
    } else {
      CallsKeepRows(s, step);
    }
  }

  lemma RowLeaverOn(s: State, step: Step, n: Id)
    requires Enabled(s, step) && n in s.nodes && n !in Apply(s, step).nodes
    requires OnRows(step)
    ensures step.CommitDelete? || step.CommitRemove? || step.RollbackCreated?
  {
    match step
    case FinishCreate(_, _) =>
    case Provision(_, _) =>
    case RollbackCreated(_) =>
    case Install(_, _) =>
    case CommitRemove(_) =>
    case CommitDelete(_) =>
    case _ =>
  }

  // A row ends by a deletion, by the removal of that one node or by the rollback of
  // its creation. What exists for it then has a task exactly if a deletion had
  // read it; what a deletion has not read is a record stored since.
  lemma RowLeaves(s: State, step: Step, n: Id, k: Key)
    requires Inv(s) && Enabled(s, step) && !step.Lose?
    requires n in s.nodes && n !in Apply(s, step).nodes && k in s.resources && k.node == n
    ensures step.CommitDelete? || step.CommitRemove? || step.RollbackCreated?
    ensures step.CommitDelete? ==>
      n in ReadBy(s, step.o) && (Unfinished(Apply(s, step).tasks, k) <==> k.role == DNS ==> ReadBy(s, step.o)[n].dns)
    ensures step.CommitRemove? ==> k.role == DNS
    ensures !step.CommitDelete? ==> k !in Apply(s, step).tasks
    ensures k in Apply(s, step).leaked <==> !Unfinished(Apply(s, step).tasks, k)
  {
    RowLeaver(s, step, n);
    assert !step.RollbackCreated? ==> OpOk(s, s.ops[step.o]);
    if step.CommitDelete? {
      RowDeleted(s, step.o, n, k);
    }
  }

  lemma RowDeleted(s: State, o: nat, n: Id, k: Key)
    requires Inv(s) && Enabled(s, CommitDelete(o))
    requires n in s.nodes && n !in Apply(s, CommitDelete(o)).nodes && k in s.resources && k.node == n
    ensures n in ReadBy(s, o)
    ensures Unfinished(Apply(s, CommitDelete(o)).tasks, k) <==> k.role == DNS ==> ReadBy(s, o)[n].dns
    ensures k in Apply(s, CommitDelete(o)).leaked <==> !Unfinished(Apply(s, CommitDelete(o)).tasks, k)
  {
    var op := s.ops[o];
    assert OpOk(s, op) && k !in s.tasks && k !in s.leaked;
    assert n in op.rows.value;
    ReadAnswers(s, op, k);
    DeletedSplits(Drop(s, o), op.server, op.rows.value, k);
  }

  lemma DeletedSplits(s: State, server: Id, rows: map<Id, Node>, k: Key)
    requires k in s.resources && k.node in rows && k.node in s.nodes && k !in s.tasks && k !in s.leaked
    ensures Unfinished(Deleted(s, server, rows).tasks, k) <==> k in Targets(rows)
    ensures k in Deleted(s, server, rows).leaked <==> k !in Targets(rows)
  {
  }

  // What exists for a row that was read: all of it was there, but for a record.
  lemma ReadAnswers(s: State, op: Op, k: Key)
    requires op.Deleting? && op.rows.Some? && OpOk(s, op) && k in s.resources && k.node in op.rows.value
      && k.node in s.nodes
    ensures k in Targets(op.rows.value) <==> k.role == DNS ==> op.rows.value[k.node].dns
  {
  }

  // The rows that a deletion has read.
  function ReadBy(s: State, o: nat): map<Id, Node>
    requires o in s.ops
  {
    if s.ops[o].Deleting? then s.ops[o].rows.GetOr(map[]) else map[]
  }

  // A server row disappears only when nothing is left that needs it.
  lemma ServerLeaves(s: State, step: Step, server: Id)
    requires Inv(s) && Enabled(s, step) && !step.Lose?
    requires server in s.servers && server !in Apply(s, step).servers
    ensures step.CommitSweep? && s.servers[server].deleting && !Needed(s, server)
      && (s.reopened == {} ==> !Named(s.tasks, server))
    ensures forall n <- s.nodes :: !Touches(s.nodes[n], server)
    ensures forall k <- s.resources :: k.host != server
  {
    OnlySweepsDrop(s, step, server);
    assert OpOk(s, s.ops[step.o]);
    NothingNeeds(s, server);
  }

  lemma OnlySweepsDrop(s: State, step: Step, server: Id)
    requires Enabled(s, step) && server in s.servers && server !in Apply(s, step).servers
    ensures step.CommitSweep? && s.ops[step.o].server == server
  {
    if OnRows(step) {
      OnlySweepsDropOn(s, step, server);
    } else {
      CallsKeepRows(s, step);
    }
  }

  lemma OnlySweepsDropOn(s: State, step: Step, server: Id)
    requires Enabled(s, step) && server in s.servers && server !in Apply(s, step).servers
    requires OnRows(step)
    ensures step.CommitSweep? && s.ops[step.o].server == server
  {
    match step
    case AddServer(_) =>
    case CommitDelete(_) =>
    case CommitSweep(_) =>
    case _ =>
  }

  lemma NothingNeeds(s: State, server: Id)
    requires ResourcesOk(s) && OpOk(s, Sweeping(server))
    ensures forall n <- s.nodes :: !Touches(s.nodes[n], server)
    ensures forall k <- s.resources :: k.host != server
  {
    forall n <- s.nodes
      ensures !Touches(s.nodes[n], server)
    {
      assert n !in Graph(s, server);
    }
    forall k <- s.resources
      ensures k.host != server
    {
      assert Covered(s, k);
    }
  }

  // One more step.
  lemma Next(states: seq<State>, steps: seq<Step>, step: Step) returns (states': seq<State>, steps': seq<Step>)
    requires Run(states, steps) && Fenced(steps) && Enabled(states[|steps|], step) && !step.Lose?
    ensures Run(states', steps') && Fenced(steps') && states' == states + [Apply(states[|steps|], step)]
      && steps' == steps + [step]
  {
    RunExtend(states, steps, step);
    states', steps' := states + [Apply(states[|steps|], step)], steps + [step];
  }

  lemma RunExtend(states: seq<State>, steps: seq<Step>, step: Step)
    requires Run(states, steps) && Enabled(states[|steps|], step)
    ensures Run(states + [Apply(states[|steps|], step)], steps + [step])
  {
    var states', steps' := states + [Apply(states[|steps|], step)], steps + [step];
    forall i | 0 <= i < |steps'|
      ensures Enabled(states'[i], steps'[i]) && states'[i + 1] == Apply(states'[i], steps'[i])
    {
      assert i < |steps| ==> states'[i] == states[i] && states'[i + 1] == states[i + 1] && steps'[i] == steps[i];
    }
  }

  // A task that is due or will be, while no call excludes its worker.
  lemma ComesDue(states: seq<State>, steps: seq<Step>, i: nat, k: Key, o: nat)
    requires Run(states, steps) && Fenced(steps) && Inv(states[0]) && i <= |steps|
    requires k in states[i].tasks && states[i].tasks[k].status in {PENDING, RUNNING}
    requires FreshOp(states[i], o, Working(k, states[i].tasks[k].attempts, false, false))
    ensures k.host in states[i].servers && (states[i].tasks[k].cause in states[i].servers || k in states[i].reopened)
    ensures Enabled(Apply(states[i], Wait(MAX_BACKOFF)), StartWork(o, k))
  {
    RunKeepsInv(states, steps, i);
  }

  // So within the hour one attempt that succeeds is all that is missing.
  lemma CanFinish(s: State, k: Key, o: nat) returns (states: seq<State>, steps: seq<Step>)
    requires Inv(s) && k in s.tasks && s.tasks[k].status in {PENDING, RUNNING}
    requires FreshOp(s, o, Working(k, s.tasks[k].attempts, false, false))
    ensures Run(states, steps) && Fenced(steps) && states[0] == s && |steps| == 4 && steps[0] == Wait(MAX_BACKOFF)
    ensures var t := states[4];
      k in t.tasks && t.tasks[k].status == DONE && k !in t.resources && t.now == s.now + MAX_BACKOFF && t.ops == s.ops
  {
    assert TaskOk(s, k);
    states, steps := Next([s], [], Wait(MAX_BACKOFF));
    states, steps := AttemptRun(states, steps, states[1], k, o);
  }

  lemma AttemptRun(states0: seq<State>, steps0: seq<Step>, s: State, k: Key, o: nat)
    returns (states: seq<State>, steps: seq<Step>)
    requires Run(states0, steps0) && Fenced(steps0) && states0[|steps0|] == s && Enabled(s, StartWork(o, k))
      && k.node !in s.nodes
    ensures Run(states, steps) && Fenced(steps) && |steps| == |steps0| + 3 && states0 <= states && steps0 <= steps
    ensures var t := states[|steps|];
      k in t.tasks && t.tasks[k].status == DONE && k !in t.resources && t.now == s.now && t.ops == s.ops
  {
    Attempted(s, k, o);
    states, steps := Next(states0, steps0, StartWork(o, k));
    states, steps := Next(states, steps, Clean(o));
    states, steps := Next(states, steps, Report(o, Finished));
  }

  // One undisturbed attempt.
  lemma Attempted(s: State, k: Key, o: nat)
    requires Enabled(s, StartWork(o, k)) && k.node !in s.nodes
    ensures Enabled(Apply(s, StartWork(o, k)), Clean(o))
    ensures var s2 := Apply(Apply(s, StartWork(o, k)), Clean(o)); Enabled(s2, Report(o, Finished))
    ensures var t := Apply(Apply(Apply(s, StartWork(o, k)), Clean(o)), Report(o, Finished));
      k in t.tasks && t.tasks[k].status == DONE && k !in t.resources && t.now == s.now && t.ops == s.ops
  {
    var s2 := Cleaned(s, k, o);
    assert s2.ops - {o} == s.ops;
  }

  // Up to its last write.
  lemma Cleaned(s: State, k: Key, o: nat) returns (t: State)
    requires Enabled(s, StartWork(o, k)) && k.node !in s.nodes
    ensures Enabled(Apply(s, StartWork(o, k)), Clean(o)) && t == Apply(Apply(s, StartWork(o, k)), Clean(o))
    ensures t.ops == s.ops[o := Working(k, s.tasks[k].attempts, true, false)] && t.now == s.now
    ensures k in t.tasks && k !in t.resources && t.tasks == s.tasks[k := t.tasks[k]]
      && t.tasks[k].cause == s.tasks[k].cause
    ensures t.servers == s.servers && t.nodes == s.nodes && t.lost == s.lost
  {
    t := Apply(Apply(s, StartWork(o, k)), Clean(o));
  }

  // ── What is left behind ──────────────────────────────────────────────────

  // What exists for a removed node has a task that is not done, or none at all.
  lemma TaskOrLeak(states: seq<State>, steps: seq<Step>, i: nat, k: Key)
    requires Run(states, steps) && Fenced(steps) && Inv(states[0]) && i <= |steps|
    requires k in states[i].resources + states[i].leaked && k.node !in states[i].nodes
    ensures k in states[i].leaked <==> !Unfinished(states[i].tasks, k)
    ensures k in states[i].leaked <==> k !in states[i].tasks
    ensures k in states[i].leaked ==> k.role == DNS || k.node in states[i].rolledBack
  {
    RunKeepsInv(states, steps, i);
    assert k in states[i].resources ==> Covered(states[i], k);
  }

  // The row goes while k is there: by a removal whose own cleanup of k was ignored,
  // or by the rollback of the creation.
  predicate Abandons(s: State, step: Step, k: Key)
    requires Enabled(s, step)
  {
    || (step.CommitRemove? && s.ops[step.o].node == k.node)
    || (step.RollbackCreated? && step.node == k.node)
  }

  // k is made for a row that is gone.
  predicate ComesTooLate(s: State, step: Step, k: Key)
    requires Enabled(s, step)
  {
    || (step.Provision? && step.node !in s.nodes && k == Key(step.host, step.node, DNS))
    || (step.Install? && s.ops[step.o].node !in s.nodes && k == KeyFor(s.ops[step.o], step.role))
  }

  // The exact steps that leave k behind.
  lemma LeaksIff(s: State, step: Step, k: Key)
    requires Inv(s) && Enabled(s, step) && !step.Lose? && k !in s.leaked
    ensures k in Apply(s, step).leaked <==>
      || ComesTooLate(s, step, k)
      || (k in s.resources && Abandons(s, step, k))
      || (k in s.resources && step.CommitDelete? && k.node in ReadBy(s, step.o) && k.node in s.nodes
          && k.role == DNS && !ReadBy(s, step.o)[k.node].dns)
  {
    if step.CommitDelete? {
      assert OpOk(s, s.ops[step.o]);
      if k in s.resources && k.node in ReadBy(s, step.o) && k.node in s.nodes {
        ReadAnswers(s, s.ops[step.o], k);
      }
    } else {
      LeaksElsewhere(s, step, k);
    }
  }

  lemma LeaksElsewhere(s: State, step: Step, k: Key)
    requires Enabled(s, step) && !step.CommitDelete?
    ensures k in Apply(s, step).leaked <==>
      k in s.leaked || ComesTooLate(s, step, k) || (k in s.resources && Abandons(s, step, k))
  {
    if OnRows(step) {
      LeaksElsewhereOn(s, step, k);
    } else {
      CallsKeepRows(s, step);
    }
  }

  lemma LeaksElsewhereOn(s: State, step: Step, k: Key)
    requires Enabled(s, step) && !step.CommitDelete?
    requires OnRows(step)
    ensures k in Apply(s, step).leaked <==>
      k in s.leaked || ComesTooLate(s, step, k) || (k in s.resources && Abandons(s, step, k))
  {
  }

  // It is found again only by a deletion that has read a row rolled back since.
  lemma FoundIff(s: State, step: Step, k: Key)
    requires Inv(s) && Enabled(s, step) && !step.Lose? && k in s.leaked
    ensures k !in Apply(s, step).leaked <==> step.CommitDelete? && k in Targets(ReadBy(s, step.o))
    ensures k !in Apply(s, step).leaked ==> k.node in s.rolledBack
  {
    if step.CommitDelete? {
      var op := s.ops[step.o];
      assert LeakOk(s, k);
      DeletedFinds(Drop(s, step.o), op.server, op.rows.value, k);
      if k in Targets(op.rows.value) {
        OnlyRolledBack(s, op, k);
      }
    } else {
      LeaksElsewhere(s, step, k);
    }
  }

  lemma OnlyRolledBack(s: State, op: Op, k: Key)
    requires OpOk(s, op) && op.Deleting? && op.rows.Some? && k.node !in s.nodes && k in Targets(op.rows.value)
    ensures k.node in s.rolledBack
  {
  }

  lemma DeletedFinds(s: State, server: Id, rows: map<Id, Node>, k: Key)
    requires k in s.leaked && k.node !in s.nodes
    ensures k in Deleted(s, server, rows).leaked <==> k !in Targets(rows)
  {
  }

  lemma RollsBackRows(s: State, step: Step, n: Id)
    requires Enabled(s, step) && n !in s.nodes && n !in s.rolledBack
    ensures n !in Apply(s, step).rolledBack
  {
  }

  // It exists, its creation was not rolled back, and neither a row nor a task knows
  // of it.
  predicate LeftBehind(s: State, k: Key) {
    k in s.leaked && k.node !in s.nodes && k !in s.tasks && k.node !in s.rolledBack
  }

  lemma StaysBehind(s: State, step: Step, k: Key)
    requires Inv(s) && Enabled(s, step) && !step.Lose? && LeftBehind(s, k)
    ensures LeftBehind(Apply(s, step), k)
  {
    FoundIff(s, step, k);
    RollsBackRows(s, step, k.node);
    StepKeepsInv(s, step);
    assert LeakOk(Apply(s, step), k);
  }

  // Nothing ever answers for it again.
  lemma {:induction false} LeftForGood(states: seq<State>, steps: seq<Step>, i: nat, j: nat, k: Key)
    requires Run(states, steps) && Fenced(steps) && Inv(states[0]) && i <= j <= |steps|
    requires k in states[i].leaked && k.node !in states[i].rolledBack
    ensures LeftBehind(states[j], k)
  {
    RunKeepsInv(states, steps, i);
    assert LeakOk(states[i], k);
    if i < j {
      LeftForGood(states, steps, i, j - 1, k);
      RunKeepsInv(states, steps, j - 1);
      StaysBehind(states[j - 1], steps[j - 1], k);
    }
  }

  ghost predicate Quiet(s: State, n: Id, server: Id) {
    Inv(s) && s.ops == map[] && Open(s, server) && n !in s.ids
  }

  function NewRow(server: Id): Node {
    Node(server, None, false, false, false)
  }

  // s with a node that was just created.
  function WithNode(s: State, n: Id, row: Node): State {
    s.(nodes := s.nodes[n := row], ids := s.ids + {n})
  }

  lemma NodeCreated(s: State, n: Id, server: Id) returns (states: seq<State>, steps: seq<Step>)
    requires Quiet(s, n, server)
    ensures Run(states, steps) && Fenced(steps) && |steps| == 2 && states[0] == s
      && states[2] == WithNode(s, n, NewRow(server))
  {
    var row := NewRow(server);
    states, steps := Next([s], [], StartCreate(0, row));
    states, steps := Next(states, steps, FinishCreate(0, n));
    assert states[2].ops == s.ops;
    assert states[2] == WithNode(s, n, row);
  }

  lemma StartsQuiet(n: Id, server: Id)
    ensures Enabled(Empty(), AddServer(server)) && Quiet(Apply(Empty(), AddServer(server)), n, server)
  {
  }

  // A removal that takes no notice of the record while its deletion fails.
  lemma RemovalLeavesRecord(s: State, n: Id, server: Id) returns (states: seq<State>, steps: seq<Step>)
    requires Quiet(s, n, server)
    ensures Run(states, steps) && Fenced(steps) && |steps| == 8 && states[0] == s
      && LeftBehind(states[8], Key(server, n, DNS))
  {
    states, steps := NodeCreated(s, n, server);
    assert n !in s.provisioned && n !in s.nodes;
    states, steps := Next(states, steps, Provision(n, server));
    var t := states[3];
    assert t.ops == map[] && t.lost == {} && Key(server, n, DNS) in t.resources;
    states, steps := Removed(states, steps, n, server);
    RunKeepsInv(states, steps, 8);
  }

  lemma Removed(states0: seq<State>, steps0: seq<Step>, n: Id, server: Id)
    returns (states: seq<State>, steps: seq<Step>)
    requires Run(states0, steps0) && Fenced(steps0) && |steps0| == 3
    requires var t := states0[3]; t.ops == map[] && t.lost == {} && n in t.nodes && Key(server, n, DNS) in t.resources
    ensures Run(states, steps) && Fenced(steps) && |steps| == 8 && states[0] == states0[0]
    ensures Key(server, n, DNS) in states[8].leaked && n !in states[8].nodes
      && states[8].rolledBack == states0[3].rolledBack
  {
    var t, k := states0[3], Key(server, n, DNS);
    states, steps := Next(states0, steps0, StartRemove(0, n));
    RemoveKeeps(states[4], n, ENTRY, k, {});
    states, steps := Next(states, steps, RemoveOne(0, ENTRY));
    assert {} + {ENTRY} == {ENTRY};
    RemoveKeeps(states[5], n, EXIT, k, {ENTRY});
    states, steps := Next(states, steps, RemoveOne(0, EXIT));
    assert {ENTRY} + {EXIT} == {ENTRY, EXIT};
    RemoveKeeps(states[6], n, ORIGIN, k, {ENTRY, EXIT});
    states, steps := Next(states, steps, RemoveOne(0, ORIGIN));
    assert {ENTRY, EXIT} + {ORIGIN} == {ENTRY, EXIT, ORIGIN};
    Abandoned(states[7], n, k);
    states, steps := Next(states, steps, CommitRemove(0));
  }

  lemma RemoveKeeps(s: State, n: Id, role: Role, k: Key, cleaned: set<Role>)
    requires s.ops == map[0 := Removing(n, cleaned)] && role != k.role && k in s.resources && n in s.nodes
    ensures Enabled(s, RemoveOne(0, role))
    ensures var t := Apply(s, RemoveOne(0, role));
      t.ops == map[0 := Removing(n, cleaned + {role})] && k in t.resources && t.nodes == s.nodes
        && t.rolledBack == s.rolledBack
  {
  }

  lemma Abandoned(s: State, n: Id, k: Key)
    requires s.ops == map[0 := Removing(n, {ENTRY, EXIT, ORIGIN})] && k in s.resources && k.node == n && n in s.nodes
    ensures Enabled(s, CommitRemove(0))
    ensures var t := Apply(s, CommitRemove(0)); k in t.leaked && n !in t.nodes && t.rolledBack == s.rolledBack
  {
  }

  // A record that is stored between the reading of its row and the row's deletion.
  lemma DeletionMissesRecord(s: State, n: Id, server: Id) returns (states: seq<State>, steps: seq<Step>)
    requires Quiet(s, n, server)
    ensures Run(states, steps) && Fenced(steps) && |steps| == 7 && states[0] == s
      && LeftBehind(states[7], Key(server, n, DNS))
  {
    states, steps := NodeCreated(s, n, server);
    states, steps := RowRead(states, steps, n, server);
    assert n !in s.provisioned && n !in s.rolledBack;
    states, steps := Next(states, steps, Provision(n, server));
    var k, rows := Key(server, n, DNS), states[6].ops[0].rows.value;
    assert k in Missed(Drop(states[6], 0), rows);
    states, steps := Next(states, steps, CommitDelete(0));
    assert k in states[7].leaked;
    RunKeepsInv(states, steps, 7);
  }

  lemma RowRead(states0: seq<State>, steps0: seq<Step>, n: Id, server: Id)
    returns (states: seq<State>, steps: seq<Step>)
    requires Run(states0, steps0) && Fenced(steps0) && |steps0| == 2
    requires var t := states0[2];
      t.ops == map[] && t.lost == {} && server in t.servers && n in t.nodes && t.nodes[n] == NewRow(server)
    ensures Run(states, steps) && Fenced(steps) && |steps| == 5 && states[0] == states0[0]
    ensures states[5] == states0[2].(ops := states[5].ops) && 0 in states[5].ops && states[5].ops[0].Deleting?
    ensures states[5].ops[0].server == server && states[5].ops[0].rows == Some(Rows(states0[2], server))
  {
    var t := states0[2];
    states, steps := Next(states0, steps0, Plan(0, server));
    assert Free(states[3], Locked(states[3].ops[0]));
    states, steps := Next(states, steps, TakeLocks(0));
    assert Rows(states[4], server) == Rows(t, server);
    states, steps := Next(states, steps, Read(0));
  }

  // ── A worker that lost its locks ─────────────────────────────────────────

  // The reports carry no fence: a worker that outlives its locks reopens a task
  // that another one has finished.
  lemma StaleWorkerReopens(s: State, a: nat, b: nat, k: Key) returns (states: seq<State>, steps: seq<Step>)
    requires Inv(s) && a != b && b !in s.ops && k in s.tasks && s.tasks[k].status == PENDING
      && s.tasks[k].nextAt <= s.now
    requires FreshOp(s, a, Working(k, s.tasks[k].attempts, false, false))
    ensures Run(states, steps) && states[0] == s && !Fenced(steps) && |steps| == 7
    ensures k in states[6].tasks && states[6].tasks[k].status == DONE
    ensures k in states[7].tasks && states[7].tasks[k].status == PENDING
  {
    states, steps := FirstWorker(s, a, k);
    states, steps := SecondWorker(states, steps, states[3], a, b, k);
    assert steps[1] == Lose(a);
  }

  lemma FirstWorker(s: State, a: nat, k: Key) returns (states: seq<State>, steps: seq<Step>)
    requires Inv(s) && k in s.tasks && s.tasks[k].status == PENDING && s.tasks[k].nextAt <= s.now
    requires FreshOp(s, a, Working(k, s.tasks[k].attempts, false, false))
    ensures Run(states, steps) && |steps| == 3 && states[0] == s && steps[1] == Lose(a)
    ensures forall b: nat :: b != a && b !in s.ops ==> Reclaimable(states[3], a, b, k)
  {
    var s2 := OutlivesLocks(s, a, k);
    states, steps := [s], [];
    var s1 := Apply(s, StartWork(a, k));
    RunExtend(states, steps, StartWork(a, k));
    states, steps := states + [s1], steps + [StartWork(a, k)];
    var lost := Apply(s1, Lose(a));
    RunExtend(states, steps, Lose(a));
    states, steps := states + [lost], steps + [Lose(a)];
    RunExtend(states, steps, Wait(LEASE));
    states, steps := states + [s2], steps + [Wait(LEASE)];
  }

  // The state after one worker began, lost its locks, and its lease ran out.
  lemma OutlivesLocks(s: State, a: nat, k: Key) returns (t: State)
    requires Inv(s) && k in s.tasks && s.tasks[k].status == PENDING && s.tasks[k].nextAt <= s.now
    requires FreshOp(s, a, Working(k, s.tasks[k].attempts, false, false))
    ensures Enabled(s, StartWork(a, k))
    ensures Enabled(Apply(s, StartWork(a, k)), Lose(a))
    ensures t == Apply(Apply(Apply(s, StartWork(a, k)), Lose(a)), Wait(LEASE))
    ensures k in t.tasks && t.tasks[k].status == RUNNING && t.tasks[k].nextAt == t.now && k.node !in t.nodes
    ensures t.lost == {a} && t.ops == s.ops[a := Working(k, s.tasks[k].attempts, false, false)]
    ensures forall p <- s.ops :: p in t.lost || Apart(s.ops[p], Working(k, t.tasks[k].attempts, false, false))
  {
    t := Apply(Apply(Apply(s, StartWork(a, k)), Lose(a)), Wait(LEASE));
    assert Locks(Working(k, t.tasks[k].attempts, false, false)) == Locks(Working(k, s.tasks[k].attempts, false, false));
  }

  lemma SecondWorker(states0: seq<State>, steps0: seq<Step>, s: State, a: nat, b: nat, k: Key)
    returns (states: seq<State>, steps: seq<Step>)
    requires Run(states0, steps0) && |steps0| == 3 && states0[3] == s && Reclaimable(s, a, b, k)
    ensures Run(states, steps) && |steps| == 7 && states[0] == states0[0] && steps[..3] == steps0
    ensures k in states[6].tasks && states[6].tasks[k].status == DONE
    ensures k in states[7].tasks && states[7].tasks[k].status == PENDING
  {
    var s1, s2 := Reclaimed(s, a, b, k);
    var s3 := FinishedTwice(s2, a, b, k);
    RunExtend(states0, steps0, StartWork(b, k));
    states, steps := states0 + [s1], steps0 + [StartWork(b, k)];
    RunExtend(states, steps, Clean(b));
    states, steps := states + [s2], steps + [Clean(b)];
    RunExtend(states, steps, Report(b, Finished));
    states, steps := states + [s3], steps + [Report(b, Finished)];
    RunExtend(states, steps, Report(a, Failed));
    states, steps := states + [Apply(s3, Report(a, Failed))], steps + [Report(a, Failed)];
  }

  ghost predicate Reclaimable(s: State, a: nat, b: nat, k: Key) {
    && a != b && s.lost == {a} && a in s.ops && b !in s.ops && s.ops[a].Working? && s.ops[a].key == k
    && k in s.tasks && s.tasks[k].status == RUNNING && s.tasks[k].nextAt <= s.now && k.node !in s.nodes
    && Free(s, Working(k, s.tasks[k].attempts, false, false))
  }

  lemma Reclaimed(s: State, a: nat, b: nat, k: Key) returns (s1: State, s2: State)
    requires Reclaimable(s, a, b, k)
    ensures Enabled(s, StartWork(b, k)) && s1 == Apply(s, StartWork(b, k))
    ensures Enabled(s1, Clean(b)) && s2 == Apply(s1, Clean(b))
    ensures a in s2.ops && s2.ops[a] == s.ops[a] && b in s2.ops && s2.ops[b].Working? && s2.ops[b].clean
      && !s2.ops[b].written && s2.ops[b].key == k
    ensures k in s2.tasks
  {
    s1 := Apply(s, StartWork(b, k));
    s2 := Apply(s1, Clean(b));
  }

  lemma FinishedTwice(s: State, a: nat, b: nat, k: Key) returns (t: State)
    requires a != b && a in s.ops && b in s.ops && k in s.tasks && s.ops[a].Working? && s.ops[b].Working?
      && s.ops[b].clean && !s.ops[b].written
    requires s.ops[a].key == k && s.ops[b].key == k
    ensures Enabled(s, Report(b, Finished)) && t == Apply(s, Report(b, Finished))
    ensures k in t.tasks && t.tasks[k].status == DONE
    ensures Enabled(t, Report(a, Failed)) && k in Apply(t, Report(a, Failed)).tasks
    ensures Apply(t, Report(a, Failed)).tasks[k].status == PENDING
  {
    t := Apply(s, Report(b, Finished));
  }

  // ── A worker whose last write is not answered ────────────────────────────

  // No lock is lost: the worker that finishes a task reopens it.
  lemma UnansweredReopens(s: State, o: nat, k: Key) returns (states: seq<State>, steps: seq<Step>)
    requires Inv(s) && k in s.tasks && s.tasks[k].status in {PENDING, RUNNING} && s.tasks[k].nextAt <= s.now
    requires FreshOp(s, o, Working(k, s.tasks[k].attempts, false, false))
    ensures Run(states, steps) && Fenced(steps) && states[0] == s && |steps| == 4
    ensures k in states[3].tasks && states[3].tasks[k].status == DONE
    ensures k in states[4].tasks && states[4].tasks[k].status == PENDING && k in states[4].reopened
  {
    states, steps := WriteRun(s, o, k);
    ReopensOwn(states[3], o, k);
    states, steps := Next(states, steps, Report(o, Failed));
  }

  // The state after k is done and its worker does not know.
  ghost predicate DoneUnheard(s: State, t: State, o: nat, k: Key) {
    && o in t.ops && t.ops == s.ops[o := t.ops[o]] && t.ops[o].Working? && t.ops[o].key == k && t.ops[o].written
    && k in s.tasks && k in t.tasks && t.tasks == s.tasks[k := t.tasks[k]]
    && t.tasks[k].status == DONE && t.tasks[k].cause == s.tasks[k].cause
    && t.servers == s.servers && t.nodes == s.nodes && t.lost == s.lost
  }

  lemma WriteRun(s: State, o: nat, k: Key) returns (states: seq<State>, steps: seq<Step>)
    requires Inv(s) && Enabled(s, StartWork(o, k))
    ensures Run(states, steps) && Fenced(steps) && states[0] == s && |steps| == 3 && DoneUnheard(s, states[3], o, k)
  {
    assert TaskOk(s, k);
    WriteSteps(s, o, k);
    states, steps := Next([s], [], StartWork(o, k));
    states, steps := Next(states, steps, Clean(o));
    states, steps := Next(states, steps, Unanswered(o));
  }

  lemma WriteSteps(s: State, o: nat, k: Key)
    requires Enabled(s, StartWork(o, k)) && k.node !in s.nodes
    ensures Enabled(Apply(s, StartWork(o, k)), Clean(o))
    ensures Enabled(Apply(Apply(s, StartWork(o, k)), Clean(o)), Unanswered(o))
    ensures DoneUnheard(s, Apply(Apply(Apply(s, StartWork(o, k)), Clean(o)), Unanswered(o)), o, k)
  {
    var s2 := Cleaned(s, k, o);
    var t := Apply(s2, Unanswered(o));
    assert t.ops == s.ops[o := Working(k, s.tasks[k].attempts, true, true)];
  }

  lemma ReopensOwn(s: State, o: nat, k: Key)
    requires o in s.ops && s.ops[o].Working? && s.ops[o].key == k && s.ops[o].written && k in s.tasks
    ensures Enabled(s, Report(o, Failed)) && k in Apply(s, Report(o, Failed)).tasks
    ensures var t := Apply(s, Report(o, Failed));
      t.tasks[k].status == PENDING && t.tasks[k].cause == s.tasks[k].cause && k in t.reopened && t.servers == s.servers
  {
  }

  // The last task of a retired server, on another host: in between, the sweep takes
  // it for finished, and the reopened task names a server that is gone.
  lemma ReopenedLosesCause(s: State, k: Key) returns (states: seq<State>, steps: seq<Step>)
    requires Inv(s) && s.ops == map[] && k in s.tasks && s.tasks[k].status in {PENDING, RUNNING}
      && s.tasks[k].nextAt <= s.now
    requires var server := s.tasks[k].cause;
      && server != k.host && server in s.servers && s.servers[server].deleting && Graph(s, server) == {}
      && forall j <- s.tasks :: j != k && Unfinished(s.tasks, j) ==> j.host != server && s.tasks[j].cause != server
    ensures Run(states, steps) && Fenced(steps) && states[0] == s && |steps| == 6
    ensures Unfinished(states[6].tasks, k) && states[6].tasks[k].cause !in states[6].servers
  {
    assert Free(s, Working(k, s.tasks[k].attempts, false, false));
    states, steps := WriteRun(s, 0, k);
    states, steps := SweepRun(states, steps, states[3], s.tasks[k].cause, k);
  }

  lemma SweepRun(states0: seq<State>, steps0: seq<Step>, s: State, server: Id, k: Key)
    returns (states: seq<State>, steps: seq<Step>)
    requires Run(states0, steps0) && Fenced(steps0) && |steps0| == 3 && states0[3] == s && Sweepable(s, server, k)
    ensures Run(states, steps) && Fenced(steps) && states[0] == states0[0] && |steps| == 6
    ensures Unfinished(states[6].tasks, k) && states[6].tasks[k].cause !in states[6].servers
  {
    SweptMeanwhile(s, server, k);
    states, steps := Next(states0, steps0, StartSweep(1, server));
    states, steps := Next(states, steps, CommitSweep(1));
    ReopensOwn(states[5], 0, k);
    states, steps := Next(states, steps, Report(0, Failed));
  }

  ghost predicate Sweepable(s: State, server: Id, k: Key) {
    && 0 in s.ops && s.ops == map[0 := s.ops[0]] && s.ops[0].Working? && s.ops[0].written && s.ops[0].key == k
      && s.lost == {}
    && server != k.host && server in s.servers && s.servers[server].deleting && Graph(s, server) == {}
    && k in s.tasks && s.tasks[k].status == DONE && s.tasks[k].cause == server && !Named(s.tasks, server)
  }

  lemma SweptMeanwhile(s: State, server: Id, k: Key)
    requires Sweepable(s, server, k)
    ensures Enabled(s, StartSweep(1, server)) && Enabled(Apply(s, StartSweep(1, server)), CommitSweep(1))
    ensures var t := Apply(Apply(s, StartSweep(1, server)), CommitSweep(1));
      server !in t.servers && t.tasks == s.tasks && 0 in t.ops && t.ops[0] == s.ops[0]
  {
    assert Apart(s.ops[0], Sweeping(server));
  }

  // ── The service and its worker ───────────────────────────────────────────

  function Actor(step: Step): Option<nat> {
    if step.Wait? || step.AddServer? || step.Provision? || step.RollbackCreated? || step.Retry? then None
      else Some(step.o)
  }

  lemma OthersKeepCall(s: State, step: Step, o: nat)
    requires Enabled(s, step) && Actor(step) != Some(o) && o in s.ops
    ensures o in Apply(s, step).ops && Apply(s, step).ops[o] == s.ops[o]
  {
    if OnRows(step) {
      RowsKeepCalls(s, step);
    } else {
      OthersKeepCallOn(s, step, o);
    }
  }

  lemma OthersKeepCallOn(s: State, step: Step, o: nat)
    requires Enabled(s, step) && Actor(step) != Some(o) && o in s.ops
    requires !OnRows(step)
    ensures o in Apply(s, step).ops && Apply(s, step).ops[o] == s.ops[o]
  {
  }

  // NoAnswer: the transaction took effect, or not.
  datatype Refusal = NotFound | Changed | Deferred | NoAnswer

  class Lifecycle {
    var s: State
    var running: bool
    ghost var states: seq<State>
    ghost var steps: seq<Step>

    // Whatever was done so far is a run from the empty panel.
    ghost predicate Valid()
      reads this
    {
      Run(states, steps) && Fenced(steps) && states[0] == Empty() && states[|steps|] == s
    }

    // Everything that was proved about runs holds in between.
    lemma Sound()
      requires Valid()
      ensures Inv(s)
    {
      StartsWell();
      RunKeepsInv(states, steps, |steps|);
    }

    constructor ()
      ensures Valid() && s == Empty() && !running
    {
      s, running, states, steps := Empty(), false, [Empty()], [];
    }

    method Do(step: Step)
      requires Valid() && Enabled(s, step) && !step.Lose?
      modifies this`s, this`states, this`steps
      ensures Valid() && s == Apply(old(s), step) && steps == old(steps) + [step] && states == old(states) + [s]
    {
      RunExtend(states, steps, step);
      states, steps := states + [Apply(s, step)], steps + [step];
      s := Apply(s, step);
    }

    // What other calls do while call o waits.
    method Others(o: nat)
      requires Valid()
      modifies this`s, this`states, this`steps
      ensures Valid() && old(states) <= states && old(steps) <= steps
      ensures o in old(s.ops) ==> o in s.ops && s.ops[o] == old(s.ops[o])
    {
      var n: int := *;
      for i := 0 to if n > 0 then n else 0
        invariant Valid() && old(states) <= states && old(steps) <= steps
        invariant o in old(s.ops) ==> o in s.ops && s.ops[o] == old(s.ops[o])
      {
        var step: Step := *;
        if Enabled(s, step) && !step.Lose? && Actor(step) != Some(o) {
          if o in s.ops {
            OthersKeepCall(s, step, o);
          }
          Do(step);
        }
      }
    }

    twostate predicate Grew()
      reads this
    {
      old(states) <= states && old(steps) <= steps
    }

    method Abort(o: nat)
      requires Valid() && o in s.ops
      modifies this`s, this`states, this`steps
      ensures Valid() && Grew() && o !in s.ops
    {
      Do(Stop(o));
    }

    // The graph is read before the locks that it names are taken.
    method LockGraph(o: nat, server: Id) returns (locked: bool)
      requires Valid() && o !in s.ops && o !in s.lost
      modifies this`s, this`states, this`steps
      ensures Valid() && Grew()
      ensures if locked then o in s.ops && s.ops[o].Deleting? && s.ops[o].server == server && s.ops[o].rows.None?
        else o !in s.ops
    {
      PlanGraph(o, server);
      locked := Free(s, Locked(s.ops[o]));
      if locked {
        LockPlanned(o);
      } else {
        Abort(o);
      }
    }

    method PlanGraph(o: nat, server: Id)
      requires Valid() && o !in s.ops && o !in s.lost
      modifies this`s, this`states, this`steps
      ensures Valid() && Grew() && o in s.ops && s.ops[o].Planning? && s.ops[o].server == server
    {
      Do(Plan(o, server));
      Others(o);
    }

    method LockPlanned(o: nat)
      requires Valid() && Enabled(s, TakeLocks(o))
      modifies this`s, this`states, this`steps
      ensures Valid() && Grew() && o in s.ops && s.ops[o] == Locked(old(s.ops[o]))
    {
      Do(TakeLocks(o));
      Others(o);
    }

    method ReadRows(o: nat)
      requires Valid() && Enabled(s, Read(o))
      modifies this`s, this`states, this`steps
      ensures Valid() && Grew() && o in s.ops
        && s.ops[o] == old(s.ops[o]).(rows := Some(Rows(old(s), old(s.ops[o]).server)))
    {
      Do(Read(o));
    }

    // The transaction: missing tasks, rows, status.
    method Commit(o: nat, tasks: seq<Key>)
      requires Valid() && o in s.ops && s.ops[o].Deleting? && s.ops[o].rows.Some?
      requires forall k :: k in tasks <==> k in Targets(s.ops[o].rows.value)
      modifies this`s, this`states, this`steps
      ensures Valid() && Grew() && o !in s.ops
      ensures Enabled(old(s), CommitDelete(o)) && s == Apply(old(s), CommitDelete(o))
        && steps == old(steps) + [CommitDelete(o)]
      ensures var server := old(s.ops[o]).server;
        server in s.servers && s.servers[server].deleting && Graph(s, server) == {}
    {
      Sound();
      CanCommit(s, o);
      NothingTouches(s, o);
      var inserted := CreateMissing(s.tasks, tasks, s.ops[o].server, s.now);
      InsertedIsPushed(s.tasks, inserted, s.ops[o].rows.value, tasks, s.ops[o].server, s.now);
      Do(CommitDelete(o));
      assert inserted == s.tasks;
    }

    method QueueServerDeletion(o: nat, server: Id) returns (r: Result<(), Refusal>)
      requires Valid() && o !in s.ops && o !in s.lost
      modifies this`s, this`states, this`steps
      ensures Valid() && Grew() && o !in s.ops
      ensures r.Ok? ==> server in s.servers && s.servers[server].deleting && Graph(s, server) == {}
      ensures r.Ok? ==> steps != [] && steps[|steps| - 1] == CommitDelete(o)
    {
      var locked := LockGraph(o, server);
      if !locked {
        return Err(Deferred);
      }
      if server !in s.servers {
        Abort(o);
        return Err(NotFound);
      }
      if !(Rows(s, server).Keys <= s.ops[o].graph) {
        Abort(o);
        return Err(Changed);
      }
      ReadRows(o);
      ghost var op := s.ops[o];
      var rows := ListRows(s.ops[o].rows.value);
      var tasks := PushTasks(rows);
      Others(o);
      assert s.ops[o] == op;
      var answered: bool := *;
      var committed: bool := *;
      if !answered && !committed {
        Abort(o);
        return Err(NoAnswer);
      }
      Commit(o, tasks);
      r := if answered then Ok(()) else Err(NoAnswer);
    }

    method Begin(o: nat, k: Key)
      requires Valid() && Enabled(s, StartWork(o, k))
      modifies this`s, this`states, this`steps
      ensures Valid() && Grew() && o in s.ops && s.ops[o] == Working(k, old(s.tasks[k].attempts), false, false)
    {
      Do(StartWork(o, k));
      Others(o);
    }

    // Removes the resource, or fails or refuses on the way.
    method CleanupDetachedResource(o: nat) returns (outcome: Outcome)
      requires Valid() && o in s.ops && s.ops[o].Working? && !s.ops[o].written
      modifies this`s, this`states, this`steps
      ensures Valid() && Grew() && o in s.ops
      ensures s.ops[o].Working? && s.ops[o].key == old(s.ops[o].key) && s.ops[o].attempts == old(s.ops[o].attempts)
        && !s.ops[o].written
      ensures outcome == Finished ==> s.ops[o].clean
    {
      outcome := *;
      var reached: bool := *;
      if s.ops[o].key.node in s.nodes {
        outcome := Refused;
      } else if reached {
        Do(Clean(o));
        Others(o);
      } else if outcome == Finished {
        outcome := Failed;
      }
    }

    method Finish(o: nat, outcome: Outcome)
      requires Valid() && o in s.ops && s.ops[o].Working?
      requires (outcome == Finished ==> s.ops[o].clean) && (s.ops[o].written ==> outcome == Failed)
      modifies this`s, this`states, this`steps
      ensures Valid() && Grew() && o !in s.ops
      ensures var k, attempts := old(s.ops[o]).key, old(s.ops[o]).attempts;
        && k in old(s.tasks) && s.tasks == old(s.tasks)[k := Outcomes(old(s.tasks[k]), outcome, attempts, s.now)]
        && (outcome == Finished ==> k !in s.resources)
    {
      Sound();
      assert OpOk(s, s.ops[o]);
      Do(Report(o, outcome));
    }

    // The task is marked as done, but the worker is not told, and takes it for a
    // failure.
    method LoseAnswer(o: nat)
      requires Valid() && o in s.ops && s.ops[o].Working? && s.ops[o].clean && !s.ops[o].written
      modifies this`s, this`states, this`steps
      ensures Valid() && Grew() && o in s.ops
      ensures s.ops[o] == old(s.ops[o]).(written := true)
    {
      Sound();
      assert OpOk(s, s.ops[o]);
      Do(Unanswered(o));
      Others(o);
    }

    // One attempt at a task that was due.
    method Attempt(o: nat, k: Key) returns (outcome: Option<Outcome>)
      requires Valid() && o !in s.ops && o !in s.lost
      modifies this`s, this`states, this`steps
      ensures Valid() && Grew() && o !in s.ops
      ensures outcome.Some? <==> Enabled(old(s), StartWork(o, k))
      ensures outcome == None ==> s == old(s) && steps == old(steps)
      ensures outcome.Some? ==> k in s.tasks && k in old(s.tasks)
      ensures outcome == Some(Finished) ==> s.tasks[k].status == DONE && k !in s.resources
      ensures outcome == Some(Refused) ==> s.tasks[k].status == BLOCKED
      ensures outcome == Some(Failed) ==>
        s.tasks[k].status == PENDING && s.tasks[k].nextAt == s.now + Backoff(old(s.tasks[k].attempts))
    {
      if !Enabled(s, StartWork(o, k)) {
        return None;
      }
      Begin(o, k);
      var result := CleanupDetachedResource(o);
      var answered: bool := *;
      if result == Finished && !answered {
        LoseAnswer(o);
        result := Failed;
      }
      Finish(o, result);
      outcome := Some(result);
    }

    // The user's retry: only a task that waits or was refused.
    method RetryTask(k: Key) returns (r: Result<(), Refusal>)
      requires Valid()
      modifies this`s, this`states, this`steps
      ensures Valid() && Grew()
      ensures r.Ok? <==> k in old(s.tasks) && old(s.tasks[k].status) in {PENDING, BLOCKED}
      ensures r.Ok? ==>
        s == old(s).(tasks := old(s.tasks)[k := old(s.tasks[k]).(status := PENDING, nextAt := old(s.now))])
      ensures r.Err? ==> s == old(s)
    {
      if !Enabled(s, Retry(k)) {
        return Err(NotFound);
      }
      Do(Retry(k));
      r := Ok(());
    }

    // At most three inventories in one pass; a row goes only when nothing needs it.
    method FinishRetiredServers(servers: seq<Id>, firstCall: nat) returns (dropped: seq<Id>)
      requires Valid()
      modifies this`s, this`states, this`steps
      ensures Valid() && Grew() && |dropped| <= 3
    {
      dropped := [];
      var scanBudget := 3;
      for i := 0 to |servers|
        invariant Valid() && old(states) <= states && old(steps) <= steps
        invariant 0 <= scanBudget && |dropped| <= 3 - scanBudget
      {
        var o := firstCall + i;
        if o !in s.ops && o !in s.lost && Enabled(s, StartSweep(o, servers[i])) && scanBudget > 0 {
          scanBudget := scanBudget - 1;
          var gone := Sweep(o, servers[i]);
          if gone {
            dropped := dropped + [servers[i]];
          }
        }
      }
    }

    method Sweep(o: nat, server: Id) returns (gone: bool)
      requires Valid() && Enabled(s, StartSweep(o, server))
      modifies this`s, this`states, this`steps
      ensures Valid() && Grew()
      ensures gone ==> server !in s.servers && !Needed(s, server) && Graph(s, server) == {}
      ensures gone ==> forall k <- s.resources :: k.host != server
    {
      Do(StartSweep(o, server));
      Others(o);
      var clean: bool := *;
      if !clean {
        Abort(o);
        return false;
      }
      DropServer(o);
      gone := true;
    }

    method DropServer(o: nat)
      requires Valid() && o in s.ops && s.ops[o].Sweeping?
      modifies this`s, this`states, this`steps
      ensures Valid() && Grew()
      ensures var server := old(s.ops[o]).server; server !in s.servers && !Needed(s, server) && Graph(s, server) == {}
      ensures forall k <- s.resources :: k.host != old(s.ops[o]).server
    {
      Sound();
      assert OpOk(s, s.ops[o]);
      NothingNeeds(s, s.ops[o].server);
      Do(CommitSweep(o));
    }

    // One tick; a tick that is still running makes this one do nothing.
    method Tick(due: seq<Key>, retired: seq<Id>, firstCall: nat)
      requires Valid()
      modifies this
      ensures Valid() && Grew()
      ensures old(running) ==> s == old(s) && running
      ensures !old(running) ==> !running
      ensures forall k :: AtRest(old(s), k) ==> AtRest(s, k)
    {
      if running {
        return;
      }
      running := true;
      ghost var from := |steps|;
      for i := 0 to |due|
        invariant Valid() && old(steps) <= steps && old(states) <= states && running
      {
        var o := firstCall + i;
        if o !in s.ops && o !in s.lost {
          var _ := Attempt(o, due[i]);
        }
      }
      var _ := FinishRetiredServers(retired, firstCall + |due|);
      running := false;
      forall k | AtRest(old(s), k)
        ensures AtRest(s, k)
      {
        DoneIsTerminal(states, steps, k, from, |steps|);
      }
    }
  }

  lemma CanCommit(s: State, o: nat)
    requires Inv(s) && o in s.ops && s.ops[o].Deleting? && s.ops[o].rows.Some?
    ensures Enabled(s, CommitDelete(o))
    ensures var server, t := s.ops[o].server, Apply(s, CommitDelete(o));
      server in t.servers && t.servers[server].deleting
    ensures Apply(s, CommitDelete(o)).tasks == Pushed(s.ops[o].rows.value, s.ops[o].server, s.now) + s.tasks
    ensures o !in Apply(s, CommitDelete(o)).ops
  {
    assert OpOk(s, s.ops[o]);
  }

  lemma InsertedIsPushed(tasks: map<Key, Task>, r: map<Key, Task>, rows: map<Id, Node>, keys: seq<Key>, cause: Id,
                         now: int)
    requires forall k :: k in keys <==> k in Targets(rows)
    requires r.Keys == tasks.Keys + set k | k in keys
    requires forall k <- r :: r[k] == if k in tasks then tasks[k] else Task(cause, PENDING, 0, now)
    ensures r == Pushed(rows, cause, now) + tasks
  {
  }

  lemma NothingTouches(s: State, o: nat)
    requires Inv(s) && Enabled(s, CommitDelete(o))
    ensures Graph(Apply(s, CommitDelete(o)), s.ops[o].server) == {}
  {
    assert OpOk(s, s.ops[o]);
  }

  // findMany: the rows in some order, each once.
  method ListRows(rows: map<Id, Node>) returns (list: seq<(Id, Node)>)
    ensures forall e <- list :: e.0 in rows && rows[e.0] == e.1
    ensures forall n <- rows :: (n, rows[n]) in list
  {
    list := [];
    var left := rows;
    while left != map[]
      invariant left.Keys <= rows.Keys && forall n <- left :: left[n] == rows[n]
      invariant forall e <- list :: e.0 in rows && rows[e.0] == e.1
      invariant forall n <- rows :: n in left || (n, rows[n]) in list
      decreases |left|
    {
      var n :| n in left;
      list := list + [(n, left[n])];
      left := left - {n};
    }
  }

  // One task for the entry, then the origin, the exit and the record, as the row has them.
  method PushTasks(rows: seq<(Id, Node)>) returns (tasks: seq<Key>)
    ensures forall k :: k in tasks <==> exists e <- rows :: Answers(e.0, e.1, k)
  {
    tasks := [];
    for i := 0 to |rows|
      invariant forall k <- tasks :: exists e <- rows[..i] :: Answers(e.0, e.1, k)
      invariant forall e <- rows[..i], k: Key :: Answers(e.0, e.1, k) ==> k in tasks
    {
      var (n, row) := rows[i];
      tasks := tasks + [Key(row.host, n, ENTRY)];
      if row.origin {
        tasks := tasks + [Key(row.host, n, ORIGIN)];
      }
      if row.exit.Some? {
        tasks := tasks + [Key(row.exit.value, n, EXIT)];
      }
      if row.dns && !row.origin {
        tasks := tasks + [Key(row.host, n, DNS)];
      }
      assert rows[..i + 1] == rows[..i] + [rows[i]];
    }
    assert rows[..|rows|] == rows;
  }

  // createMany with skipDuplicates
  method CreateMissing(tasks: map<Key, Task>, keys: seq<Key>, cause: Id, now: int) returns (r: map<Key, Task>)
    ensures r.Keys == tasks.Keys + set k | k in keys
    ensures forall k <- r :: r[k] == if k in tasks then tasks[k] else Task(cause, PENDING, 0, now)
  {
    r := tasks;
    for i := 0 to |keys|
      invariant r.Keys == tasks.Keys + set k | k in keys[..i]
      invariant forall k <- r :: r[k] == if k in tasks then tasks[k] else Task(cause, PENDING, 0, now)
    {
      assert keys[..i + 1] == keys[..i] + [keys[i]];
      if keys[i] !in r {
        r := r[keys[i] := Task(cause, PENDING, 0, now)];
      }
    }
    assert keys[..|keys|] == keys;
  }
}
