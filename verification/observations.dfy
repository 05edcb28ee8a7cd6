/**
 * Probe results over many rounds: updateObservations and the carry-over of
 * observed and published lists between rounds (cf-optimization.util.ts and the
 * measure method of cf-optimization.service.ts).
 */
module CfObservations {
  import opened Common
  import opened StableSort
  import opened CfRanking
  import opened Identified

  const MAX_OBSERVATIONS: nat := 64
  const MAX_PASSED: nat := 20

  datatype Measurement = Measurement(ip: string, ok: bool, latency: real, bytes: nat, durationMs: nat)

  // A measurement counts as a success only with a sensible latency.
  predicate Succeeds(r: Measurement) {
    r.ok && 0.0 <= r.latency <= 60_000.0
  }

  function Round(x: real): real {
    (x + 0.5).Floor as real
  }

  function Observe(prior: Option<Observation>, r: Measurement, now: int): (o: Observation)
    ensures o.ip == r.ip && o.checkedAt == now
  {
    var ok := Succeeds(r);
    var recent := prior.Some? && now - prior.value.checkedAt <= FRESH_MS;
    var passed := if recent then prior.value.passed else 0;
    var latency :=
      if !ok then (if prior.Some? then prior.value.latency else 60_000.0)
      else if recent && prior.value.passed != 0 then Round((prior.value.latency + r.latency) / 2.0)
      else r.latency;
    var measured := ok && r.bytes > 0 && r.durationMs > 0;
    Observation(
      r.ip,
      if ok then (if passed + 1 < MAX_PASSED then passed + 1 else MAX_PASSED) else 0,
      if ok then 0 else (if prior.Some? then prior.value.failed else 0) + 1,
      latency, now,
      if measured then Some(r.bytes as real * 1000.0 / r.durationMs as real)
      else if prior.Some? && prior.value.Speed() != 0.0 then prior.value.bytesPerSecond else None,
      if measured then Some(now)
      else if prior.Some? && prior.value.Speed() != 0.0 then prior.value.bandwidthAt else None)
  }

  // Map.set keeps the place of a key that is already there.
  function Put(entries: seq<Observation>, o: Observation): (r: seq<Observation>)
    ensures forall x :: x in r ==> x == o || x in entries
    ensures o in r
  {
    if entries == [] then [o]
    else if entries[0].ip == o.ip then [o] + entries[1..]
    else [entries[0]] + Put(entries[1..], o)
  }

  function PutAll(entries: seq<Observation>, results: seq<Measurement>, now: int): seq<Observation>
    decreases |results|
  {
    if results == [] then entries
    else PutAll(Put(entries, Observe(Find(entries, results[0].ip), results[0], now)), results[1..], now)
  }

  function Newest(): Order {
    (a: Observation, b: Observation) => a.checkedAt >= b.checkedAt
  }

  function Take(xs: seq<Observation>, n: nat): seq<Observation> {
    xs[..if |xs| < n then |xs| else n]
  }

  function Update(old_: seq<Observation>, results: seq<Measurement>, now: int): seq<Observation> {
    var current := Keep(PutAll(old_, results, now), (o: Observation) => now - o.checkedAt <= STALE_MS);
    Take(Sort(Newest(), current), MAX_OBSERVATIONS)
  }

  method UpdateObservations(old_: seq<Observation>, results: seq<Measurement>, now: int) returns (r: seq<Observation>)
    ensures r == Update(old_, results, now)
  {
    var entries := old_;
    for i := 0 to |results|
      invariant PutAll(entries, results[i..], now) == PutAll(old_, results, now)
    {
      assert results[i..][1..] == results[i + 1..];
      var prior := Find(entries, results[i].ip);
      entries := Put(entries, Observe(prior, results[i], now));
    }
    var current := Keep(entries, (o: Observation) => now - o.checkedAt <= STALE_MS);
    return Take(Sort(Newest(), current), MAX_OBSERVATIONS);
  }

  // Discoveries that were not probed yet wait in the queue with no record.
  function Unprobed(ip: string): Observation {
    Observation(ip, 0, 0, 60_000.0, 0, None, None)
  }

  function Enqueue(observations: seq<Observation>, pool: seq<string>): seq<Observation>
    decreases |pool|
  {
    if pool == [] then observations
    else Enqueue(if HasIp(observations, pool[0]) then observations else observations + [Unprobed(pool[0])], pool[1..])
  }

  // ── True histories ───────────────────────────────────────────────────────

  datatype Probe = Probe(at: int, ok: bool)

  type History = seq<Probe>

  function Last(h: History): Probe
    requires h != []
  {
    h[|h| - 1]
  }

  function Front(h: History): History
    requires h != []
  {
    h[..|h| - 1]
  }

  // Length of the last run of successes at most 30 minutes apart.
  function SuccessRun(h: History): nat {
    if h == [] || !Last(h).ok then 0
    else if |h| == 1 || Last(h).at - Last(Front(h)).at > FRESH_MS then 1
    else 1 + SuccessRun(Front(h))
  }

  // Failures since the last success.
  function FailureRun(h: History): nat {
    if h == [] || Last(h).ok then 0 else 1 + FailureRun(Front(h))
  }

  ghost predicate Tracks(o: Observation, h: History) {
    && o.passed == (if SuccessRun(h) < MAX_PASSED then SuccessRun(h) else MAX_PASSED)
    && o.failed == FailureRun(h)
    && (h != [] ==> o.checkedAt == Last(h).at)
  }

  lemma ObserveTracks(prior: Option<Observation>, h: History, r: Measurement, now: int)
    requires if prior.Some? then Tracks(prior.value, h) else h == []
    ensures Tracks(Observe(prior, r, now), h + [Probe(now, Succeeds(r))])
  {
    var h' := h + [Probe(now, Succeeds(r))];
    assert Front(h') == h;
  }

  // One history for every address that is still on the list.
  type Histories = map<string, History>

  ghost predicate AllTracked(xs: seq<Observation>, hs: Histories) {
    DistinctIps(xs) && forall o <- xs :: o.ip in hs && Tracks(o, hs[o.ip])
  }

  function HistoryOf(hs: Histories, xs: seq<Observation>, ip: string): History {
    if HasIp(xs, ip) && ip in hs then hs[ip] else []
  }

  function Record(hs: Histories, xs: seq<Observation>, r: Measurement, now: int): Histories {
    hs[r.ip := HistoryOf(hs, xs, r.ip) + [Probe(now, Succeeds(r))]]
  }

  function RecordAll(hs: Histories, xs: seq<Observation>, results: seq<Measurement>, now: int): Histories
    decreases |results|
  {
    if results == [] then hs
    else
      RecordAll(Record(hs, xs, results[0], now), Put(xs, Observe(Find(xs, results[0].ip), results[0], now)),
        results[1..], now)
  }

  lemma {:induction false} PutDistinct(entries: seq<Observation>, o: Observation)
    requires DistinctIps(entries)
    ensures DistinctIps(Put(entries, o))
    ensures forall x :: x in Put(entries, o) <==> x == o || (x in entries && x.ip != o.ip)
  {
    if entries != [] {
      assert forall x <- entries[1..] :: x.ip != entries[0].ip;
      if entries[0].ip != o.ip {
        PutDistinct(entries[1..], o);
        var rest := Put(entries[1..], o);
        assert forall j :: 0 <= j < |rest| ==> rest[j] in rest;
      }
    }
  }

  lemma PutTracks(xs: seq<Observation>, hs: Histories, r: Measurement, now: int)
    requires AllTracked(xs, hs)
    ensures AllTracked(Put(xs, Observe(Find(xs, r.ip), r, now)), Record(hs, xs, r, now))
  {
    var prior := Find(xs, r.ip);
    PutDistinct(xs, Observe(prior, r, now));
    ObserveTracks(prior, HistoryOf(hs, xs, r.ip), r, now);
  }

  lemma {:induction false} PutAllTracks(xs: seq<Observation>, hs: Histories, results: seq<Measurement>, now: int)
    requires AllTracked(xs, hs)
    ensures AllTracked(PutAll(xs, results, now), RecordAll(hs, xs, results, now))
    decreases |results|
  {
    if results != [] {
      var r := results[0];
      PutTracks(xs, hs, r, now);
      PutAllTracks(Put(xs, Observe(Find(xs, r.ip), r, now)), Record(hs, xs, r, now), results[1..], now);
    }
  }

  lemma {:induction false} KeepDistinctIps(p: Observation -> bool, xs: seq<Observation>)
    requires DistinctIps(xs)
    ensures DistinctIps(Keep(xs, p))
  {
    if xs != [] {
      KeepDistinctIps(p, xs[1..]);
      var rest := Keep(xs[1..], p);
      assert forall j :: 0 <= j < |rest| ==> rest[j] in xs[1..];
      assert forall x <- xs[1..] :: x.ip != xs[0].ip;
    }
  }

  lemma UpdateTracks(xs: seq<Observation>, hs: Histories, results: seq<Measurement>, now: int)
    requires AllTracked(xs, hs)
    ensures AllTracked(Update(xs, results, now), RecordAll(hs, xs, results, now))
  {
    PutAllTracks(xs, hs, results, now);
    var all := PutAll(xs, results, now);
    var p := (o: Observation) => now - o.checkedAt <= STALE_MS;
    KeepDistinctIps(p, all);
    var sorted := Sort(Newest(), Keep(all, p));
    DistinctPermutation(Keep(all, p), sorted);
    SameElements(Keep(all, p), sorted);
    assert forall o <- Take(sorted, MAX_OBSERVATIONS) :: o in sorted;
  }

  // Waiting entries start with an empty history.
  function Forget(hs: Histories, xs: seq<Observation>, pool: seq<string>): Histories {
    map ip | ip in hs.Keys + (set i | i in pool) :: if HasIp(xs, ip) && ip in hs then hs[ip] else []
  }

  lemma {:induction false} EnqueueTracks(xs: seq<Observation>, hs: Histories, pool: seq<string>)
    requires AllTracked(xs, hs) && forall ip <- pool :: !HasIp(xs, ip) ==> ip in hs && hs[ip] == []
    ensures AllTracked(Enqueue(xs, pool), hs)
    decreases |pool|
  {
    if pool != [] {
      var ys := if HasIp(xs, pool[0]) then xs else xs + [Unprobed(pool[0])];
      assert forall o <- xs :: HasIp(ys, o.ip);
      EnqueueTracks(ys, hs, pool[1..]);
    }
  }

  // ── Rounds ───────────────────────────────────────────────────────────────

  datatype State = State(observations: seq<Observation>, published: seq<Observation>, histories: Histories)

  datatype Step =
    // A completed probe round, with the candidate pool it queued.
    | Measure(results: seq<Measurement>, pool: seq<string>, now: int)
    // The node changed: observations of another configuration are dropped.
    | Reset

  // What rankCandidates sees in a round.
  function Seen(s: State, step: Step): seq<Observation>
    requires step.Measure?
  {
    Enqueue(Update(s.observations, step.results, step.now), step.pool)
  }

  function Next(s: State, step: Step): State {
    match step
    case Reset => State([], [], map[])
    case Measure(results, pool, now) =>
      var updated := Update(s.observations, results, now);
      var seen := Enqueue(updated, pool);
      State(Take(seen, MAX_OBSERVATIONS), Rank(seen, s.published, now),
            Forget(RecordAll(s.histories, s.observations, results, now), updated, pool))
  }

  ghost predicate Inv(s: State) {
    AllTracked(s.observations, s.histories) && Published(s.published)
  }

  function After(steps: seq<Step>): State {
    if steps == [] then State([], [], map[]) else Next(After(steps[..|steps| - 1]), steps[|steps| - 1])
  }

  // Every entry a round works with tells the truth about its probes.
  lemma SeenIsTracked(s: State, step: Step)
    requires Inv(s) && step.Measure?
    ensures AllTracked(Seen(s, step), Next(s, step).histories)
  {
    var updated := Update(s.observations, step.results, step.now);
    var hs := RecordAll(s.histories, s.observations, step.results, step.now);
    UpdateTracks(s.observations, s.histories, step.results, step.now);
    var kept := Forget(hs, updated, step.pool);
    assert forall o <- updated :: HasIp(updated, o.ip) && kept[o.ip] == hs[o.ip];
    EnqueueTracks(updated, kept, step.pool);
  }

  lemma StepKeepsInv(s: State, step: Step)
    requires Inv(s)
    ensures Inv(Next(s, step))
  {
    if step.Measure? {
      SeenIsTracked(s, step);
      FewerAreTracked(Seen(s, step), Next(s, step).histories);
      RankPermutesPool(Seen(s, step), s.published, step.now);
    }
  }

  lemma FewerAreTracked(seen: seq<Observation>, hs: map<string, History>)
    requires AllTracked(seen, hs)
    ensures AllTracked(Take(seen, MAX_OBSERVATIONS), hs)
  {
    assert forall o <- Take(seen, MAX_OBSERVATIONS) :: o in seen;
  }

  lemma {:induction false} RunKeepsInv(steps: seq<Step>)
    ensures Inv(After(steps))
  {
    if steps != [] {
      RunKeepsInv(steps[..|steps| - 1]);
      StepKeepsInv(After(steps[..|steps| - 1]), steps[|steps| - 1]);
    }
  }

  // Two successes at most half an hour apart, the last one no older than that.
  ghost predicate TwoRecentSuccesses(h: History, now: int) {
    && |h| >= 2 && Last(h).ok && Last(Front(h)).ok
    && Last(h).at - Last(Front(h)).at <= FRESH_MS && now - Last(h).at <= FRESH_MS
  }

  // A newly published address has really passed two recent probes.
  lemma NewcomerPassedTwice(steps: seq<Step>, step: Step, o: Observation)
    requires step.Measure?
    requires o in After(steps + [step]).published && !HasIp(After(steps).published, o.ip)
    ensures o.ip in After(steps + [step]).histories
    ensures TwoRecentSuccesses(After(steps + [step]).histories[o.ip], step.now)
  {
    var s := After(steps);
    assert (steps + [step])[..|steps|] == steps;
    RunKeepsInv(steps);
    SeenIsTracked(s, step);
    NewcomerIsEligible(Seen(s, step), s.published, step.now, o);
    var h := Next(s, step).histories[o.ip];
    assert SuccessRun(h) >= 2;
  }

  // A published address leaves after two failures in a row, a long silence,
  // eviction from the list, or for a clearly better rival.
  lemma LeaverHasCause(steps: seq<Step>, step: Step, ip: string)
    requires step.Measure?
    requires HasIp(After(steps).published, ip) && !HasIp(After(steps + [step]).published, ip)
    ensures
      var s := After(steps);
      var seen, hs := Seen(s, step), After(steps + [step]).histories;
      || !HasIp(seen, ip)
      || (ip in hs && (FailureRun(hs[ip]) >= 2 || hs[ip] == [] || step.now - Last(hs[ip]).at > FRESH_MS))
      || exists current, rival :: current in seen && current.ip == ip && rival in Eligible(seen, step.now)
           && Improves(Mode(seen, s.published, step.now), rival, current)
  {
    var s := After(steps);
    assert (steps + [step])[..|steps|] == steps;
    RunKeepsInv(steps);
    SeenIsTracked(s, step);
    LeavesOnlyFor(Seen(s, step), s.published, step.now, ip);
  }
}
