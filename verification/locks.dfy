/**
 * Sorted PostgreSQL advisory locks (advisory-lock.ts): the order of the keys,
 * one call of withPostgresAdvisoryLocks, and any number of callers together.
 */
module LockKeys {

  type Key = string

  predicate Less(a: Key, b: Key) {
    b != "" && (a == "" || a[0] < b[0] || (a[0] == b[0] && Less(a[1..], b[1..])))
  }

  lemma {:induction false} LessTransitive(a: Key, b: Key, c: Key)
    requires Less(a, b) && Less(b, c)
    ensures Less(a, c)
  {
    if a != "" && a[0] == b[0] == c[0] {
      LessTransitive(a[1..], b[1..], c[1..]);
    }
  }

  lemma {:induction false} LessTotal(a: Key, b: Key)
    ensures Less(a, b) || a == b || Less(b, a)
    ensures !(Less(a, b) && (a == b || Less(b, a)))
  {
    if a != "" && b != "" && a[0] == b[0] {
      LessTotal(a[1..], b[1..]);
      if a[1..] == b[1..] {
        assert a == [a[0]] + a[1..] && b == [b[0]] + b[1..];
      }
    } else if a == b {
      assert a == "";
    }
  }

  lemma {:induction false} LessAfterPrefix(p: Key, a: Key, b: Key)
    ensures Less(p + a, p + b) == Less(a, b)
  {
    if p == "" {
      assert p + a == a && p + b == b;
    } else {
      assert (p + a)[1..] == p[1..] + a && (p + b)[1..] == p[1..] + b;
      LessAfterPrefix(p[1..], a, b);
    }
  }

  ghost predicate StrictlySorted(keys: seq<Key>) {
    forall i, j :: 0 <= i < j < |keys| ==> Less(keys[i], keys[j])
  }

  // [...new Set(keys)].sort()
  function OrderedKeys(keys: seq<Key>): (r: seq<Key>)
    ensures StrictlySorted(r)
    ensures forall k :: k in r <==> k in keys
  {
    if keys == [] then []
    else Insert(keys[0], OrderedKeys(keys[1..]))
  }

  function Insert(k: Key, sorted: seq<Key>): (r: seq<Key>)
    requires StrictlySorted(sorted)
    ensures StrictlySorted(r)
    ensures forall x :: x in r <==> x == k || x in sorted
  {
    if sorted == [] then [k]
    else if k == sorted[0] then sorted
    else if Less(k, sorted[0]) then
      assert forall j :: 0 <= j < |sorted| ==> Less(k, sorted[j]) by {
        forall j | 1 <= j < |sorted| ensures Less(k, sorted[j]) { LessTransitive(k, sorted[0], sorted[j]); }
      }
      [k] + sorted
    else
      LessTotal(k, sorted[0]);
      var rest := Insert(k, sorted[1..]);
      assert forall j :: 0 <= j < |rest| ==> Less(sorted[0], rest[j]) by {
        forall j | 0 <= j < |rest| ensures Less(sorted[0], rest[j]) { assert rest[j] in rest; }
      }
      [sorted[0]] + rest
  }

  // Two strictly sorted lists of the same keys are the same list.
  lemma {:induction false} OrderedUnique(a: seq<Key>, b: seq<Key>)
    requires StrictlySorted(a) && StrictlySorted(b)
    requires forall k :: k in a <==> k in b
    ensures a == b
  {
    assert b == [] || b[0] in b;
    if a != [] {
      assert a[0] in b && b[0] in a;
      var i :| 0 <= i < |b| && b[i] == a[0];
      var j :| 0 <= j < |a| && a[j] == b[0];
      LessTotal(a[0], b[0]);
      assert a[0] == b[0];
      forall k ensures k in a[1..] <==> k in b[1..] {
        LessTotal(a[0], a[0]);
        if k in a[1..] {
          assert k in b && Less(a[0], k);
        }
        if k in b[1..] {
          assert k in a && Less(b[0], k);
        }
      }
      OrderedUnique(a[1..], b[1..]);
      assert a == [a[0]] + a[1..] && b == [b[0]] + b[1..];
    }
  }
}

/** One call: what it does to its own database session, whatever fails. */
module AdvisoryLock {
  import opened LockKeys

  datatype Event = Lock(key: Key) | Work | Unlock(key: Key) | End

  datatype Exit = Value | WorkThrew | LockThrew | CleanupThrew | LockLost

  function LockAll(keys: seq<Key>): seq<Event> {
    seq(|keys|, i requires 0 <= i < |keys| => Lock(keys[i]))
  }

  // Unlocks from the last key to the first.
  function UnlockAll(keys: seq<Key>): (r: seq<Event>)
    ensures |r| == |keys|
    ensures forall i :: 0 <= i < |keys| ==> r[i] == Unlock(keys[|keys| - 1 - i])
  {
    if keys == [] then [] else UnlockAll(keys[1..]) + [Unlock(keys[0])]
  }

  lemma {:induction false} UnlockAllLast(keys: seq<Key>)
    requires keys != []
    ensures UnlockAll(keys) == [Unlock(keys[|keys| - 1])] + UnlockAll(keys[..|keys| - 1])
  {
    var r, t := UnlockAll(keys), [Unlock(keys[|keys| - 1])] + UnlockAll(keys[..|keys| - 1]);
    forall i | 0 <= i < |keys|
      ensures r[i] == t[i]
    {
      if i > 0 {
        assert t[i] == UnlockAll(keys[..|keys| - 1])[i - 1];
      }
    }
  }

  function KeySet(keys: seq<Key>): set<Key> {
    set k | k in keys
  }

  class Session {
    var held: set<Key>        // what the server holds for this connection
    var lost: bool            // the connection broke; the server let everything go
    var trace: seq<Event>

    constructor ()
      ensures held == {} && !lost && trace == []
    {
      held, lost, trace := {}, false, [];
    }

    // A broken connection drops every lock of the session on the server.
    method MaybeLose()
      modifies this`held, this`lost
      ensures lost ==> held == {}
      ensures !lost ==> held == old(held) && !old(lost)
      requires lost ==> held == {}
    {
      var breaks: bool := *;
      if breaks {
        lost, held := true, {};
      }
    }

    method TryLock(key: Key) returns (ok: bool)
      requires lost ==> held == {}
      modifies this
      ensures lost ==> held == {}
      ensures ok ==> trace == old(trace) + [Lock(key)] && (!lost ==> held == old(held) + {key} && !old(lost))
      ensures !ok ==> trace == old(trace) && (!lost ==> held == old(held) && !old(lost))
    {
      MaybeLose();
      ok := *;
      ok := ok && !lost;
      if ok {
        held := held + {key};
        trace := trace + [Lock(key)];
      }
    }

    method TryUnlock(key: Key) returns (ok: bool)
      requires lost ==> held == {}
      modifies this
      ensures lost ==> held == {}
      ensures trace == old(trace) + [Unlock(key)]
      ensures held <= old(held) && (old(lost) ==> lost)
      ensures ok ==> key in old(held) && held == old(held) - {key} && !lost && !old(lost)
    {
      MaybeLose();
      trace := trace + [Unlock(key)];
      ok := *;
      ok := ok && !lost && key in held;
      if ok {
        held := held - {key};
      }
    }

    // Ending the session makes the server release whatever is left.
    method TryEnd() returns (ok: bool)
      requires lost ==> held == {}
      modifies this
      ensures trace == old(trace) + [End] && held <= old(held)
      ensures ok ==> held == {}
      ensures old(lost) ==> lost
    {
      MaybeLose();
      trace := trace + [End];
      ok := *;
      if ok {
        held := {};
      }
    }

    ghost predicate Holds(keys: seq<Key>)
      reads this
    {
      !lost ==> held == KeySet(keys)
    }

    // Take the keys in order until one of them fails.
    method TakeAll(keys: seq<Key>) returns (n: nat, ok: bool)
      requires held == {} && !lost && trace == []
      modifies this
      ensures n <= |keys| && (ok <==> n == |keys|)
      ensures trace == LockAll(keys[..n]) && Holds(keys[..n]) && (lost ==> held == {})
    {
      n, ok := 0, true;
      while n < |keys| && ok
        invariant n <= |keys| && (!ok ==> n < |keys|)
        invariant trace == LockAll(keys[..n]) && Holds(keys[..n]) && (lost ==> held == {})
        decreases |keys| - n, ok
      {
        ok := TryLock(keys[n]);
        if ok {
          assert keys[..n + 1] == keys[..n] + [keys[n]];
          n := n + 1;
        }
      }
    }

    // Give them back in reverse; a failure does not stop the others.
    method GiveBack(keys: seq<Key>) returns (clean: bool)
      requires StrictlySorted(keys) && Holds(keys) && (lost ==> held == {})
      modifies this
      ensures trace == old(trace) + UnlockAll(keys) && (lost ==> held == {})
      ensures clean && !lost ==> held == {}
      ensures old(lost) ==> lost
    {
      clean := true;
      var i := |keys|;
      assert keys[..i] == keys;
      while i > 0
        invariant 0 <= i <= |keys| && (lost ==> held == {}) && (old(lost) ==> lost)
        invariant trace + UnlockAll(keys[..i]) == old(trace) + UnlockAll(keys)
        invariant clean ==> Holds(keys[..i])
      {
        i := i - 1;
        DropLast(keys, i);
        ghost var was := trace;
        var ok := TryUnlock(keys[i]);
        assert trace + UnlockAll(keys[..i]) == was + UnlockAll(keys[..i + 1]);
        clean := clean && ok;
      }
    }

    // withPostgresAdvisoryLocks for a non-empty set of keys.  `n` keys were
    // taken, in ascending order; each is given back in reverse on every exit.
    method WithLocks(keys: seq<Key>) returns (r: Exit, n: nat, worked: bool)
      requires keys != [] && held == {} && !lost && trace == []
      modifies this
      ensures n <= |OrderedKeys(keys)| && (worked ==> n == |OrderedKeys(keys)|)
      ensures trace == LockAll(OrderedKeys(keys)[..n]) + (if worked then [Work] else [])
                     + UnlockAll(OrderedKeys(keys)[..n]) + [End]
      // A value is only returned when the locks were never lost and all are free.
      ensures r == Value ==> worked && !lost && held == {}
      ensures lost ==> r == LockLost
      // Something may stay held only if its unlock and the session end both failed.
      ensures held != {} ==> r != Value
      ensures r == WorkThrew ==> worked
      ensures r == LockThrew ==> !worked
    {
      var orderedKeys := OrderedKeys(keys);
      var primary;
      n, worked := TakeAll(orderedKeys);
      primary := !worked;
      var acquired := orderedKeys[..n];
      if worked {
        trace := trace + [Work];
        MaybeLose();
        primary := *;
      }
      var clean := GiveBack(acquired);
      var ended := TryEnd();
      if lost {
        r := LockLost;
      } else if primary {
        r := if worked then WorkThrew else LockThrew;
      } else {
        r := if clean && ended then Value else CleanupThrew;
      }
    }
  }

  lemma DropLast(keys: seq<Key>, i: nat)
    requires i < |keys| && StrictlySorted(keys)
    ensures UnlockAll(keys[..i + 1]) == [Unlock(keys[i])] + UnlockAll(keys[..i])
    ensures KeySet(keys[..i + 1]) - {keys[i]} == KeySet(keys[..i])
  {
    var upto := keys[..i + 1];
    UnlockAllLast(upto);
    assert upto[..i] == keys[..i] && upto == keys[..i] + [keys[i]];
    forall k | k in keys[..i]
      ensures k != keys[i]
    {
      var j :| 0 <= j < i && keys[j] == k;
      LessTotal(keys[j], keys[i]);
    }
  }
}

/** Any number of callers: mutual exclusion and freedom from deadlock. */
module LockProtocol {
  import opened LockKeys

  datatype Phase = Taking | Working | Releasing

  // One call in progress, on its own session.  `held` is what the call believes
  // it holds; once the connection is lost the server no longer agrees.
  datatype Call = Call(keys: seq<Key>, held: seq<Key>, phase: Phase, lost: bool)

  // A caller is the stack of its nested calls, outermost first.
  type Caller = seq<Call>
  type State = seq<Caller>

  datatype Step =
    | Begin(keys: seq<Key>) | Take | Fail | StartWork | Finish | Unlock | EndSession | Lose(depth: nat)

  predicate ServerHolds(c: Call, k: Key) {
    !c.lost && k in c.held
  }

  function Top(t: Caller): Call
    requires t != []
  {
    t[|t| - 1]
  }

  function WithTop(t: Caller, c: Call): Caller
    requires t != []
  {
    t[|t| - 1 := c]
  }

  // Blocked in pg_advisory_lock, or about to ask for the next key.
  predicate Wanting(t: Caller) {
    t != [] && Top(t).phase.Taking? && !Top(t).lost && |Top(t).held| < |Top(t).keys|
  }

  function Wanted(t: Caller): Key
    requires Wanting(t)
  {
    Top(t).keys[|Top(t).held|]
  }

  // Some session of caller u, other than the asking one, holds what t wants.
  ghost predicate BlockedBy(s: State, t: nat, u: nat)
    requires t < |s| && u < |s| && Wanting(s[t])
  {
    exists i :: 0 <= i < |s[u]| && ServerHolds(s[u][i], Wanted(s[t])) && (u != t || i != |s[t]| - 1)
  }

  ghost predicate Blocked(s: State, t: nat)
    requires t < |s|
  {
    Wanting(s[t]) && exists u :: 0 <= u < |s| && BlockedBy(s, t, u)
  }

  // A nested call asks only for keys above everything its caller holds.  A
  // caller that holds nothing may ask for anything.
  ghost predicate Ranked(t: Caller, keys: seq<Key>) {
    forall i, h, k :: 0 <= i < |t| && h in t[i].held && k in keys ==> Less(h, k)
  }

  predicate Enabled(s: State, t: nat, step: Step)
    requires t < |s|
  {
    var c := s[t];
    match step
    case Begin(keys) => keys != [] && (c == [] || Top(c).phase.Working?)
    case Take => Wanting(c)
    case Fail => c != [] && Top(c).phase.Taking?
    case StartWork => c != [] && Top(c).phase.Taking? && Top(c).held == Top(c).keys
    case Finish => c != [] && Top(c).phase.Working?
    case Unlock => c != [] && Top(c).phase.Releasing? && Top(c).held != []
    case EndSession => c != [] && Top(c).phase.Releasing?
    case Lose(depth) => depth < |c|
  }

  function Apply(c: Caller, step: Step): Caller
    requires step.Begin? || step.Lose? || c != []
    requires step.Take? ==> Wanting(c)
    requires step.Unlock? ==> Top(c).held != []
    requires step.Lose? ==> step.depth < |c|
  {
    match step
    case Begin(keys) => c + [Call(OrderedKeys(keys), [], Taking, false)]
    case Take => WithTop(c, Top(c).(held := Top(c).held + [Wanted(c)]))
    case Fail => WithTop(c, Top(c).(phase := Releasing))
    case StartWork => WithTop(c, Top(c).(phase := Working))
    case Finish => WithTop(c, Top(c).(phase := Releasing))
    case Unlock => WithTop(c, Top(c).(held := Top(c).held[..|Top(c).held| - 1]))
    case EndSession => c[..|c| - 1]
    case Lose(depth) => c[depth := c[depth].(lost := true)]
  }

  // One step of one caller; PostgreSQL grants a key only when it is free.
  ghost predicate Next(s: State, s': State, t: nat, step: Step) {
    && t < |s| && Enabled(s, t, step)
    && (step.Take? ==> !Blocked(s, t))
    && s' == s[t := Apply(s[t], step)]
  }

  // The discipline of the callers, beyond what one call enforces itself.
  ghost predicate Disciplined(s: State, t: nat, step: Step) {
    t < |s| && (step.Begin? ==> Ranked(s[t], step.keys))
  }

  // ── Invariant ────────────────────────────────────────────────────────────

  ghost predicate GoodCall(c: Call) {
    StrictlySorted(c.keys) && c.held <= c.keys && (c.phase.Working? ==> c.held == c.keys)
  }

  ghost predicate GoodCaller(t: Caller) {
    && (forall i :: 0 <= i < |t| ==> GoodCall(t[i]))
    && (forall i :: 0 <= i < |t| - 1 ==> t[i].phase.Working?)
    && (forall i, j, h, k :: 0 <= i < j < |t| && h in t[i].held && k in t[j].keys ==> Less(h, k))
  }

  ghost predicate Exclusive(s: State) {
    forall t, i, u, j, k ::
      (0 <= t < |s| && 0 <= i < |s[t]| && 0 <= u < |s| && 0 <= j < |s[u]| &&
       ServerHolds(s[t][i], k) && ServerHolds(s[u][j], k)) ==> t == u && i == j
  }

  ghost predicate Inv(s: State) {
    (forall t :: 0 <= t < |s| ==> GoodCaller(s[t])) && Exclusive(s)
  }

  lemma Initially(s: State)
    requires forall t :: 0 <= t < |s| ==> s[t] == []
    ensures Inv(s)
  {
  }

  lemma StepKeepsCaller(s: State, s': State, t: nat, step: Step)
    requires Inv(s) && Next(s, s', t, step) && Disciplined(s, t, step)
    ensures GoodCaller(s'[t])
  {
    var c, c' := s[t], s'[t];
    match step
    case Begin(keys) =>
    case Take =>
      assert c' == c[..|c| - 1] + [Top(c')];
    case Fail =>
      assert c' == c[..|c| - 1] + [Top(c')];
    case StartWork =>
      assert c' == c[..|c| - 1] + [Top(c')];
    case Finish =>
      assert c' == c[..|c| - 1] + [Top(c')];
    case Unlock =>
      assert c' == c[..|c| - 1] + [Top(c')];
    case EndSession =>
    case Lose(depth) =>
  }

  // What a session holds after a step it held before, or just took.
  lemma HeldBefore(s: State, s': State, t: nat, step: Step, u: nat, j: nat, k: Key)
    requires Next(s, s', t, step) && u < |s'| && j < |s'[u]| && ServerHolds(s'[u][j], k)
    ensures
      || (j < |s[u]| && ServerHolds(s[u][j], k))
      || (step.Take? && u == t && j == |s[t]| - 1 && k == Wanted(s[t]))
  {
  }

  lemma StepKeepsExclusive(s: State, s': State, t: nat, step: Step)
    requires Inv(s) && Next(s, s', t, step)
    ensures Exclusive(s')
  {
    forall a, i, b, j, k | 0 <= a < |s'| && 0 <= i < |s'[a]| && 0 <= b < |s'| && 0 <= j < |s'[b]|
      && ServerHolds(s'[a][i], k) && ServerHolds(s'[b][j], k)
      ensures a == b && i == j
    {
      HeldBefore(s, s', t, step, a, i, k);
      HeldBefore(s, s', t, step, b, j, k);
      if step.Take? && k == Wanted(s[t]) {
        assert !BlockedBy(s, t, a) && !BlockedBy(s, t, b);
      }
    }
  }

  lemma StepKeepsInv(s: State, s': State, t: nat, step: Step)
    requires Inv(s) && Next(s, s', t, step) && Disciplined(s, t, step)
    ensures Inv(s')
  {
    StepKeepsCaller(s, s', t, step);
    StepKeepsExclusive(s, s', t, step);
  }

  ghost predicate Run(states: seq<State>, who: seq<nat>, steps: seq<Step>) {
    && |states| == |steps| + 1 && |who| == |steps|
    && (forall t :: 0 <= t < |states[0]| ==> states[0][t] == [])
    && forall i :: 0 <= i < |steps| ==> Next(states[i], states[i + 1], who[i], steps[i])
  }

  ghost predicate DisciplinedRun(states: seq<State>, who: seq<nat>, steps: seq<Step>)
    requires Run(states, who, steps)
  {
    forall i :: 0 <= i < |steps| ==> Disciplined(states[i], who[i], steps[i])
  }

  lemma {:induction false} RunKeepsInv(states: seq<State>, who: seq<nat>, steps: seq<Step>, n: nat)
    requires Run(states, who, steps) && DisciplinedRun(states, who, steps) && n < |states|
    ensures Inv(states[n])
  {
    if n == 0 {
      Initially(states[0]);
    } else {
      RunKeepsInv(states, who, steps, n - 1);
      StepKeepsInv(states[n - 1], states[n], who[n - 1], steps[n - 1]);
    }
  }

  // ── Mutual exclusion of the protected work ───────────────────────────────

  // Two calls working under a common key are one call, or one of them has lost
  // its connection (and will end with AdvisoryLockLostError).
  lemma WorkIsExclusive(s: State, t: nat, i: nat, u: nat, j: nat, k: Key)
    requires Inv(s) && t < |s| && i < |s[t]| && u < |s| && j < |s[u]|
    requires s[t][i].phase.Working? && s[u][j].phase.Working? && k in s[t][i].keys && k in s[u][j].keys
    ensures (t == u && i == j) || s[t][i].lost || s[u][j].lost
  {
    assert GoodCall(s[t][i]) && GoodCall(s[u][j]);
    assert !s[t][i].lost && !s[u][j].lost ==> ServerHolds(s[t][i], k) && ServerHolds(s[u][j], k);
  }

  // ── Deadlock ─────────────────────────────────────────────────────────────

  // A caller wants something above everything it holds.
  lemma WantsAbove(t: Caller, i: nat, h: Key)
    requires GoodCaller(t) && Wanting(t) && i < |t| && h in t[i].held
    ensures Less(h, Wanted(t))
  {
    var c := Top(t);
    if i < |t| - 1 {
      assert Wanted(t) in c.keys;
    } else {
      var j :| 0 <= j < |c.held| && c.held[j] == h;
      assert c.held[j] == c.keys[j];
    }
  }

  lemma BlockerWantsMore(s: State, t: nat, u: nat)
    requires Inv(s) && t < |s| && u < |s| && Wanting(s[t]) && BlockedBy(s, t, u) && Wanting(s[u])
    ensures Less(Wanted(s[t]), Wanted(s[u]))
  {
    var i :| 0 <= i < |s[u]| && ServerHolds(s[u][i], Wanted(s[t]));
    WantsAbove(s[u], i, Wanted(s[t]));
  }

  ghost predicate WaitCycle(s: State, cycle: seq<nat>) {
    && cycle != []
    && (forall i :: 0 <= i < |cycle| ==> cycle[i] < |s| && Wanting(s[cycle[i]]))
    && forall i :: 0 <= i < |cycle| ==> BlockedBy(s, cycle[i], cycle[if i + 1 < |cycle| then i + 1 else 0])
  }

  lemma {:induction false} WantsGrowAlong(s: State, cycle: seq<nat>, i: nat)
    requires Inv(s) && WaitCycle(s, cycle) && 0 < i < |cycle|
    ensures Less(Wanted(s[cycle[0]]), Wanted(s[cycle[i]]))
  {
    assert BlockedBy(s, cycle[i - 1], cycle[i]);
    BlockerWantsMore(s, cycle[i - 1], cycle[i]);
    if i > 1 {
      WantsGrowAlong(s, cycle, i - 1);
      LessTransitive(Wanted(s[cycle[0]]), Wanted(s[cycle[i - 1]]), Wanted(s[cycle[i]]));
    }
  }

  lemma NoWaitCycle(s: State, cycle: seq<nat>)
    requires Inv(s)
    ensures !WaitCycle(s, cycle)
  {
    if WaitCycle(s, cycle) {
      var last := |cycle| - 1;
      assert BlockedBy(s, cycle[last], cycle[0]);
      BlockerWantsMore(s, cycle[last], cycle[0]);
      var first, final := Wanted(s[cycle[0]]), Wanted(s[cycle[last]]);
      if last > 0 {
        WantsGrowAlong(s, cycle, last);
      }
      LessTotal(first, final);
    }
  }

  // Following blockers upwards ends at a caller that is not blocked.
  lemma {:induction false} Unblocked(s: State, t: nat, above: set<nat>) returns (u: nat)
    requires Inv(s) && t < |s| && s[t] != []
    requires forall v <- above :: v < |s|
    requires Wanting(s[t]) ==> forall v <- above :: Wanting(s[v]) && Less(Wanted(s[v]), Wanted(s[t]))
    requires !Wanting(s[t]) ==> t !in above
    ensures u < |s| && s[u] != [] && !Blocked(s, u)
    decreases |s| - |above|
  {
    if !Blocked(s, t) {
      return t;
    }
    if t in above {
      LessTotal(Wanted(s[t]), Wanted(s[t]));
    }
    Bounded(above + {t}, |s|);
    var v :| 0 <= v < |s| && BlockedBy(s, t, v);
    if Wanting(s[v]) {
      BlockerWantsMore(s, t, v);
      forall w | w in above + {t}
        ensures Wanting(s[w]) && Less(Wanted(s[w]), Wanted(s[v]))
      {
        if w != t {
          LessTransitive(Wanted(s[w]), Wanted(s[t]), Wanted(s[v]));
        }
      }
    }
    u := Unblocked(s, v, above + {t});
  }

  lemma {:induction false} Bounded(xs: set<nat>, n: nat)
    requires forall x <- xs :: x < n
    ensures |xs| <= n
  {
    if n > 0 {
      Bounded(xs - {n - 1}, n - 1);
    } else {
      assert forall x :: x !in xs;
      assert xs == {};
    }
  }

  // While any call is in progress, some caller can take a step of its own.
  lemma Progress(s: State, t: nat) returns (u: nat, step: Step)
    requires Inv(s) && t < |s| && s[t] != []
    ensures u < |s| && s[u] != [] && Enabled(s, u, step) && (step.Take? ==> !Blocked(s, u))
    ensures !step.Begin? && !step.Lose?
  {
    u := Unblocked(s, t, {});
    var c := Top(s[u]);
    match c.phase
    case Taking =>
      step := if Wanting(s[u]) then Take else if c.lost then Fail else StartWork;
      assert GoodCall(c);
    case Working =>
      step := Finish;
    case Releasing =>
      step := EndSession;
  }

  // ── An update deploys while it holds the port lock ───────────────────────

  function NodeKey(node: string): Key { "nextpanel:" + ("node:" + node) }
  function CoreKey(server: string): Key { "nextpanel:" + ("server-" + ("core:" + server)) }
  function PortsKey(server: string): Key { "nextpanel:" + ("server-" + ("ports:" + server)) }

  lemma KeyOrder(node: string, server: string)
    ensures Less(NodeKey(node), CoreKey(server)) && Less(NodeKey(node), PortsKey(server))
      && Less(CoreKey(server), PortsKey(server))
  {
    LessAfterPrefix("nextpanel:", "node:" + node, "server-" + ("ports:" + server));
    LessAfterPrefix("nextpanel:", "node:" + node, "server-" + ("core:" + server));
    LessAfterPrefix("server-", "core:" + server, "ports:" + server);
    LessAfterPrefix("nextpanel:", "server-" + ("core:" + server), "server-" + ("ports:" + server));
  }

  lemma OrderedPair(a: Key, b: Key)
    requires Less(a, b)
    ensures OrderedKeys([a, b]) == [a, b]
  {
    OrderedUnique(OrderedKeys([a, b]), [a, b]);
  }

  lemma RunExtend(states: seq<State>, who: seq<nat>, steps: seq<Step>, t: nat, step: Step, c: Caller)
    returns (states': seq<State>, who': seq<nat>, steps': seq<Step>)
    requires Run(states, who, steps) && t < |states[|steps|]| && Enabled(states[|steps|], t, step)
    requires step.Take? ==> !Blocked(states[|steps|], t)
    requires Apply(states[|steps|][t], step) == c
    ensures states' == states + [states[|steps|][t := c]] && who' == who + [t] && steps' == steps + [step]
    ensures Run(states', who', steps')
  {
    states', who', steps' := states + [states[|steps|][t := c]], who + [t], steps + [step];
  }

  // The nested call of an update and the final sweep of a server deletion can
  // wait for each other: only the lock timeout ends this.
  lemma UpdateCanDeadlock(node: string, server: string) returns (states: seq<State>, who: seq<nat>, steps: seq<Step>)
    ensures Run(states, who, steps) && Begin([NodeKey(node), PortsKey(server)]) in steps
    ensures WaitCycle(states[|steps|], [0, 1])
  {
    var n, c, p := NodeKey(node), CoreKey(server), PortsKey(server);
    KeyOrder(node, server);
    OrderedPair(n, p);
    OrderedPair(c, p);
    states, who, steps := UpdateRuns(n, p);
    states, who, steps := UpdateDeploys(states, who, steps, n, c, p);
    states, who, steps := SweepWaits(states, who, steps, n, c, p);
    var last := states[7];
    assert ServerHolds(last[1][0], c) && ServerHolds(last[0][0], p);
    assert BlockedBy(last, 0, 1) && BlockedBy(last, 1, 0);
  }

  // The sweep takes the core lock first and then wants the port lock.
  lemma SweepWaits(states: seq<State>, who: seq<nat>, steps: seq<Step>, n: Key, c: Key, p: Key)
    returns (states': seq<State>, who': seq<nat>, steps': seq<Step>)
    requires Less(n, c) && Less(c, p) && OrderedKeys([c, p]) == [c, p]
    requires Run(states, who, steps) && |steps| == 5 && steps[0] == Begin([n, p])
    requires |states[5]| == 2 && states[5][1] == []
    requires states[5][0] == [Call([n, p], [n, p], Working, false), Call([c], [], Taking, false)]
    ensures |steps'| == 7 && Run(states', who', steps') && steps'[0] == Begin([n, p])
    ensures |states'[7]| == 2 && states'[7][1] == [Call([c, p], [c], Taking, false)] && states'[7][0] == states[5][0]
  {
    var sweep := Call([c, p], [], Taking, false);
    assert Apply([], Begin([c, p])) == [sweep];
    states', who', steps' := RunExtend(states, who, steps, 1, Begin([c, p]), [sweep]);
    assert [] + [c] == [c];
    assert Apply([sweep], Take) == [sweep.(held := [c])];
    LessTotal(n, c);
    LessTotal(c, p);
    assert !BlockedBy(states'[6], 1, 0) && !BlockedBy(states'[6], 1, 1);
    states', who', steps' := RunExtend(states', who', steps', 1, Take, [sweep.(held := [c])]);
  }

  // An update takes its two keys and starts its work.
  lemma UpdateRuns(n: Key, p: Key) returns (states: seq<State>, who: seq<nat>, steps: seq<Step>)
    requires OrderedKeys([n, p]) == [n, p]
    ensures |steps| == 4 && Run(states, who, steps) && steps[0] == Begin([n, p])
    ensures |states[4]| == 2 && states[4][0] == [Call([n, p], [n, p], Working, false)] && states[4][1] == []
  {
    var call := Call([n, p], [], Taking, false);
    states, who, steps := [[[], []]], [], [];
    assert Apply([], Begin([n, p])) == [call];
    states, who, steps := RunExtend(states, who, steps, 0, Begin([n, p]), [call]);
    assert [] + [n] == [n] && [n] + [p] == [n, p];
    assert Apply([call], Take) == [call.(held := [n])];
    states, who, steps := RunExtend(states, who, steps, 0, Take, [call.(held := [n])]);
    assert Apply([call.(held := [n])], Take) == [call.(held := [n, p])];
    states, who, steps := RunExtend(states, who, steps, 0, Take, [call.(held := [n, p])]);
    var working := call.(held := [n, p], phase := Working);
    assert Apply([call.(held := [n, p])], StartWork) == [working];
    states, who, steps := RunExtend(states, who, steps, 0, StartWork, [working]);
  }

  // It then calls deploy, which asks for the core lock of the same server.
  lemma UpdateDeploys(states: seq<State>, who: seq<nat>, steps: seq<Step>, n: Key, c: Key, p: Key)
    returns (states': seq<State>, who': seq<nat>, steps': seq<Step>)
    requires Run(states, who, steps) && |steps| == 4 && steps[0] == Begin([n, p])
    requires |states[4]| == 2 && states[4][0] == [Call([n, p], [n, p], Working, false)] && states[4][1] == []
    ensures |steps'| == 5 && Run(states', who', steps') && steps'[0] == Begin([n, p])
    ensures |states'[5]| == 2 && states'[5][1] == []
    ensures states'[5][0] == [Call([n, p], [n, p], Working, false), Call([c], [], Taking, false)]
  {
    var update, deploy := Call([n, p], [n, p], Working, false), Call([c], [], Taking, false);
    OrderedUnique(OrderedKeys([c]), [c]);
    assert Apply([update], Begin([c])) == [update, deploy];
    states', who', steps' := RunExtend(states, who, steps, 0, Begin([c]), [update, deploy]);
  }
}
