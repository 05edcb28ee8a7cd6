/** Network rates from successive counters (network-rate.ts). */
module NetworkRate {
  import opened Common

  datatype Reading = Reading(input: nat, output: nat, at: int)
  datatype Rate = Rate(input: real, output: real)
  datatype Call = Call(id: string, reading: Reading)

  type Readings = map<string, Reading>

  // Milliseconds.
  const MAX_GAP := 300000
  const ZERO := Rate(0.0, 0.0)

  function Rise(current: nat, previous: nat): nat {
    if current < previous then 0 else current - previous
  }

  function Seconds(from: int, to: int): real {
    (to - from) as real / 1000.0
  }

  // ── A tracker that forgets nothing ───────────────────────────────────────

  function RateOf(prev: Option<Reading>, r: Reading): Rate {
    if prev.None? || r.at <= prev.value.at || r.at - prev.value.at > MAX_GAP then ZERO
    else Rate(Rise(r.input, prev.value.input) as real / Seconds(prev.value.at, r.at),
              Rise(r.output, prev.value.output) as real / Seconds(prev.value.at, r.at))
  }

  function Lookup(known: Readings, id: string): Option<Reading> {
    if id in known then Some(known[id]) else None
  }

  function Remember(known: Readings, c: Call): Readings {
    var prev := Lookup(known, c.id);
    if prev.Some? && c.reading.at <= prev.value.at then known else known[c.id := c.reading]
  }

  // ── Pruning ──────────────────────────────────────────────────────────────

  function Pruned(known: Readings, at: int): Readings {
    map id | id in known && at - known[id].at <= MAX_GAP :: known[id]
  }

  // What is missing is too old to matter to any later call.
  ghost predicate Agrees(kept: Readings, all: Readings, at: int) {
    && kept.Keys <= all.Keys
    && forall id <- all :: if id in kept then kept[id] == all[id] else at - all[id].at > MAX_GAP
  }

  class NetworkRateTracker {
    var previous: Readings
    var lastPrune: int
    // What a tracker without pruning would remember, and the time of the last call.
    ghost var all: Readings
    ghost var now: int

    ghost predicate Valid()
      reads this
    {
      Agrees(previous, all, now)
    }

    constructor ()
      ensures Valid() && all == map[] && now == 0
    {
      previous, lastPrune, all, now := map[], 0, map[], 0;
    }

    method Prune(at: int)
      modifies this`previous
      ensures previous == Pruned(old(previous), at)
    {
      var left := previous.Keys;
      while left != {}
        invariant left <= old(previous).Keys
        invariant forall id :: id in previous <==>
          id in old(previous) && (id in left || at - old(previous)[id].at <= MAX_GAP)
        invariant forall id <- previous :: previous[id] == old(previous)[id]
        decreases |left|
      {
        var key :| key in left;
        if at - previous[key].at > MAX_GAP {
          previous := previous - {key};
        }
        left := left - {key};
      }
    }

    // In time order, pruning changes no answer.
    method Sample(c: Call) returns (rate: Rate)
      requires Valid() && now <= c.reading.at
      modifies this
      ensures Valid() && now == c.reading.at
      ensures all == Remember(old(all), c)
      ensures rate == RateOf(Lookup(old(all), c.id), c.reading)
    {
      var at := c.reading.at;
      if at - lastPrune > MAX_GAP {
        Prune(at);
        lastPrune := at;
      }
      now := at;
      all := Remember(all, c);
      if c.id in previous && at <= previous[c.id].at {
        return ZERO;
      }
      var prev := Lookup(previous, c.id);
      previous := previous[c.id := c.reading];
      if prev.None? || at - prev.value.at > MAX_GAP {
        return ZERO;
      }
      var seconds := Seconds(prev.value.at, at);
      rate := Rate(Rise(c.reading.input, prev.value.input) as real / seconds,
        Rise(c.reading.output, prev.value.output) as real / seconds);
    }
  }

  // Out of order, a late reading of a pruned id becomes its baseline, while a
  // tracker that forgets nothing drops it.
  lemma LateAfterPruning(id: string, late: int, last: int, at: int)
    requires late < last && at - last > MAX_GAP
    ensures var all := map[id := Reading(0, 0, last)]; var c := Call(id, Reading(0, 0, late));
      Remember(all, c) != Remember(Pruned(all, at), c)
  {
    var all := map[id := Reading(0, 0, last)];
    assert id !in Pruned(all, at);
  }

  // ── Rates add up ─────────────────────────────────────────────────────────

  function Play(known: Readings, calls: seq<Call>): Readings
    decreases |calls|
  {
    if calls == [] then known else Play(Remember(known, calls[0]), calls[1..])
  }

  // Rate times the time since the last reading, over the calls of one id.
  function Moved(known: Readings, calls: seq<Call>, id: string): Rate
    decreases |calls|
  {
    if calls == [] then ZERO
    else
      var c, rest := calls[0], Moved(Remember(known, calls[0]), calls[1..], id);
      if c.id != id || id !in known then rest
      else
        var rate, seconds := RateOf(Some(known[id]), c.reading), Seconds(known[id].at, c.reading.at);
        Rate(rate.input * seconds + rest.input, rate.output * seconds + rest.output)
  }

  // Later readings with counters that do not fall, and no long gap.
  ghost predicate Rises(known: Readings, calls: seq<Call>, id: string)
    decreases |calls|
  {
    calls == [] ||
    ((calls[0].id == id && id in known ==> Follows(known[id], calls[0].reading))
     && Rises(Remember(known, calls[0]), calls[1..], id))
  }

  predicate Follows(prev: Reading, r: Reading) {
    0 < r.at - prev.at <= MAX_GAP && prev.input <= r.input && prev.output <= r.output
  }

  lemma RateTimesSeconds(rise: real, seconds: real)
    requires seconds > 0.0
    ensures rise / seconds * seconds == rise
  {
  }

  // The moved bytes are the increase of the counters from first to last reading,
  // whatever other ids do in between.
  lemma {:induction false} RatesAddUp(known: Readings, calls: seq<Call>, id: string)
    requires id in known && Rises(known, calls, id)
    ensures id in Play(known, calls)
    ensures var last := Play(known, calls)[id];
      && Moved(known, calls, id) == Rate((last.input - known[id].input) as real,
        (last.output - known[id].output) as real)
    decreases |calls|
  {
    if calls != [] {
      var c := calls[0];
      RatesAddUp(Remember(known, c), calls[1..], id);
      if c.id == id {
        var seconds := Seconds(known[id].at, c.reading.at);
        RateTimesSeconds(Rise(c.reading.input, known[id].input) as real, seconds);
        RateTimesSeconds(Rise(c.reading.output, known[id].output) as real, seconds);
      }
    }
  }
}
