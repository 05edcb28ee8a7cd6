/**
 * Ranking the measured CDN addresses of one probe (rankCandidates in
 * cf-optimization.util.ts).  Times are in milliseconds.
 */
module CfRanking {
  import opened Common
  import opened StableSort
  import opened Identified

  const FRESH_MS: int := 30 * 60_000
  const STALE_MS: int := 24 * 60 * 60_000
  const BANDWIDTH_MS: int := 6 * 3600_000

  datatype Observation = Observation(
    ip: string, passed: nat, failed: nat, latency: real, checkedAt: int,
    bytesPerSecond: Option<real>, bandwidthAt: Option<int>)
  {
    function Speed(): real { bytesPerSecond.GetOr(0.0) }
  }

  type Order = (Observation, Observation) -> bool

  // ── Definitions shared by the method and its specification ───────────────

  predicate Fresh(o: Observation, now: int) {
    now - o.checkedAt <= FRESH_MS
  }

  predicate IsEligible(o: Observation, now: int) {
    o.passed >= 2 && o.failed == 0 && Fresh(o, now)
  }

  predicate IsKept(o: Observation, now: int) {
    o.failed < 2 && Fresh(o, now)
  }

  // bytesPerSecond is present, not zero, and recent.
  predicate HasBandwidth(o: Observation, now: int) {
    o.Speed() != 0.0 && now - o.bandwidthAt.GetOr(0) < BANDWIDTH_MS
  }

  // The comparison mode: by bandwidth only when everyone has been measured.
  predicate BandwidthReady(all: seq<Observation>, now: int) {
    all != [] && forall o <- all :: HasBandwidth(o, now)
  }

  // compare(a, b) < 0
  predicate Better(byBandwidth: bool, a: Observation, b: Observation) {
    if byBandwidth then a.Speed() > b.Speed() || (a.Speed() == b.Speed() && a.latency < b.latency)
    else a.latency < b.latency
  }

  // More than 20% better.
  predicate Improves(byBandwidth: bool, a: Observation, b: Observation) {
    if byBandwidth then a.Speed() > b.Speed() * 1.2 else a.latency < b.latency * 0.8
  }

  predicate Beats(byBandwidth: bool, candidate: Observation, worst: Observation) {
    Improves(byBandwidth, candidate, worst) && Better(byBandwidth, candidate, worst)
  }

  function ByCompare(byBandwidth: bool): Order {
    (a: Observation, b: Observation) => !Better(byBandwidth, b, a)
  }

  // a.failed - b.failed || compare(a, b)
  function ByFailures(byBandwidth: bool): Order {
    (a: Observation, b: Observation) => a.failed < b.failed || (a.failed == b.failed && !Better(byBandwidth, b, a))
  }

  function Find(observations: seq<Observation>, ip: string): (r: Option<Observation>)
    ensures r.Some? ==> r.value in observations && r.value.ip == ip
    ensures r.None? ==> forall o <- observations :: o.ip != ip
  {
    if observations == [] then None
    else if observations[0].ip == ip then Some(observations[0])
    else Find(observations[1..], ip)
  }

  function Healthy(xs: seq<Observation>): (r: seq<Observation>)
    ensures forall x :: x in r <==> x in xs && x.failed == 0
  {
    Keep(xs, (o: Observation) => o.failed == 0)
  }

  function Others(xs: seq<Observation>, ip: string): (r: seq<Observation>)
    ensures forall x :: x in r <==> x in xs && x.ip != ip
  {
    Keep(xs, (o: Observation) => o.ip != ip)
  }

  predicate HasIp(xs: seq<Observation>, ip: string) {
    exists o <- xs :: o.ip == ip
  }

  predicate DistinctIps(xs: seq<Observation>) {
    forall i, j :: 0 <= i < j < |xs| ==> xs[i].ip != xs[j].ip
  }

  // ── Specification ────────────────────────────────────────────────────────

  function Eligible(observations: seq<Observation>, now: int): seq<Observation> {
    Keep(observations, (o: Observation) => IsEligible(o, now))
  }

  // The current observations of the incumbents that are still good enough.
  function Retained(observations: seq<Observation>, incumbent: seq<Observation>, now: int): (r: seq<Observation>)
    ensures forall o <- r :: o in observations && IsKept(o, now) && HasIp(incumbent, o.ip)
    ensures |r| <= |incumbent|
  {
    if incumbent == [] then []
    else
      var current := Find(observations, incumbent[0].ip);
      var rest := Retained(observations, incumbent[1..], now);
      if current.Some? && IsKept(current.value, now) then [current.value] + rest else rest
  }

  function AbsorbOne(byBandwidth: bool, retained: seq<Observation>, candidate: Observation): seq<Observation> {
    if HasIp(retained, candidate.ip) then retained
    else if |retained| < 3 then retained + [candidate]
    else
      var sorted := Sort(ByCompare(byBandwidth), retained);
      var worst := sorted[|sorted| - 1];
      if Beats(byBandwidth, candidate, worst) then sorted[|sorted| - 1 := candidate] else sorted
  }

  function Absorb(byBandwidth: bool, retained: seq<Observation>, candidates: seq<Observation>): seq<Observation>
    decreases |candidates|
  {
    if candidates == [] then retained
    else Absorb(byBandwidth, AbsorbOne(byBandwidth, retained, candidates[0]), candidates[1..])
  }

  function Mode(observations: seq<Observation>, incumbent: seq<Observation>, now: int): bool {
    BandwidthReady(Eligible(observations, now) + incumbent, now)
  }

  function Pool(observations: seq<Observation>, incumbent: seq<Observation>, now: int): seq<Observation> {
    var byBandwidth := Mode(observations, incumbent, now);
    Absorb(byBandwidth, Retained(observations, incumbent, now),
      Sort(ByCompare(byBandwidth), Eligible(observations, now)))
  }

  // The slot shown first stays with its healthy incumbent unless the gain is real.
  function Prefer(byBandwidth: bool, ranked: seq<Observation>, incumbent: seq<Observation>): seq<Observation> {
    var primary := if incumbent == [] then None else Find(Healthy(ranked), incumbent[0].ip);
    if primary.Some? && !Improves(byBandwidth, ranked[0], primary.value) then
      [primary.value] + Others(ranked, primary.value.ip)
    else ranked
  }

  function Ranked(observations: seq<Observation>, incumbent: seq<Observation>, now: int): seq<Observation> {
    var sorted := Sort(ByFailures(Mode(observations, incumbent, now)), Pool(observations, incumbent, now));
    sorted[..if |sorted| < 3 then |sorted| else 3]
  }

  function Rank(observations: seq<Observation>, incumbent: seq<Observation>, now: int): seq<Observation> {
    Prefer(Mode(observations, incumbent, now), Ranked(observations, incumbent, now), incumbent)
  }

  // ── The method ───────────────────────────────────────────────────────────

  // The candidate loop: fill up to three, then replace a clearly worse worst one.
  method AbsorbCandidates(bandwidthReady: bool, kept: seq<Observation>, eligible: seq<Observation>)
    returns (retained: seq<Observation>)
    ensures retained == Absorb(bandwidthReady, kept, eligible)
  {
    retained := kept;
    for i := 0 to |eligible|
      invariant Absorb(bandwidthReady, retained, eligible[i..]) == Absorb(bandwidthReady, kept, eligible)
    {
      var candidate := eligible[i];
      assert eligible[i..][1..] == eligible[i + 1..];
      if HasIp(retained, candidate.ip) {
        continue;
      }
      if |retained| < 3 {
        retained := retained + [candidate];
      } else {
        retained := Sort(ByCompare(bandwidthReady), retained);
        var worst := retained[|retained| - 1];
        if Improves(bandwidthReady, candidate, worst) && Better(bandwidthReady, candidate, worst) {
          retained := retained[|retained| - 1 := candidate];
        }
      }
    }
  }

  method RankCandidates(observations: seq<Observation>, incumbent: seq<Observation>, now: int)
    returns (r: seq<Observation>)
    ensures r == Rank(observations, incumbent, now)
  {
    var eligible := Eligible(observations, now);
    var bandwidthReady := BandwidthReady(eligible + incumbent, now);
    eligible := Sort(ByCompare(bandwidthReady), eligible);
    var retained := Retained(observations, incumbent, now);
    retained := AbsorbCandidates(bandwidthReady, retained, eligible);
    var ranked := Sort(ByFailures(bandwidthReady), retained);
    ranked := ranked[..if |ranked| < 3 then |ranked| else 3];
    assert ranked == Ranked(observations, incumbent, now);
    r := KeepPrimary(bandwidthReady, ranked, incumbent);
  }

  // A healthy first incumbent stays first unless the best is clearly better.
  method KeepPrimary(bandwidthReady: bool, ranked: seq<Observation>, incumbent: seq<Observation>)
    returns (r: seq<Observation>)
    ensures r == Prefer(bandwidthReady, ranked, incumbent)
  {
    var primary := if incumbent == [] then None else Find(Healthy(ranked), incumbent[0].ip);
    if primary.Some? {
      var best := ranked[0];
      if !Improves(bandwidthReady, best, primary.value) {
        return [primary.value] + Others(ranked, primary.value.ip);
      }
    }
    return ranked;
  }

  // ── What the pool contains ───────────────────────────────────────────────

  lemma Orders(byBandwidth: bool)
    ensures TotalPreorder(ByCompare(byBandwidth)) && TotalPreorder(ByFailures(byBandwidth))
    ensures Refines(ByFailures(byBandwidth), ByCompare(byBandwidth))
  {
  }

  // At most three different addresses, each a kept current observation.
  ghost predicate GoodPool(xs: seq<Observation>, observations: seq<Observation>, now: int) {
    |xs| <= 3 && DistinctIps(xs) && forall o <- xs :: o in observations && IsKept(o, now)
  }

  ghost predicate Published(xs: seq<Observation>) {
    |xs| <= 3 && DistinctIps(xs)
  }

  lemma {:induction false} RetainedDistinct(observations: seq<Observation>, incumbent: seq<Observation>, now: int)
    requires DistinctIps(incumbent)
    ensures DistinctIps(Retained(observations, incumbent, now))
  {
    if incumbent != [] {
      RetainedDistinct(observations, incumbent[1..], now);
      assert forall o <- incumbent[1..] :: o.ip != incumbent[0].ip;
    }
  }

  lemma DistinctPermutation(xs: seq<Observation>, ys: seq<Observation>)
    requires DistinctIps(xs) && multiset(xs) == multiset(ys)
    ensures DistinctIps(ys)
  {
    SameElements(xs, ys);
    forall i, j | 0 <= i < j < |ys|
      ensures ys[i].ip != ys[j].ip
    {
      assert ys[i] in xs && ys[j] in xs;
      if ys[i] == ys[j] {
        Twice(ys, i, j);
        AtMostOnce(xs, ys[i]);
      }
    }
  }

  lemma Twice(ys: seq<Observation>, i: nat, j: nat)
    requires i < j < |ys| && ys[i] == ys[j]
    ensures multiset(ys)[ys[i]] >= 2
  {
    assert ys == ys[..j] + ys[j..];
    assert ys[i] in ys[..j] && ys[j] in ys[j..];
  }

  lemma {:induction false} AtMostOnce(xs: seq<Observation>, o: Observation)
    requires DistinctIps(xs)
    ensures multiset(xs)[o] <= 1
  {
    if xs != [] {
      AtMostOnce(xs[1..], o);
      assert xs == [xs[0]] + xs[1..];
      assert o in xs[1..] ==> o.ip != xs[0].ip;
    }
  }

  lemma SortKeepsPool(le: Order, xs: seq<Observation>, observations: seq<Observation>, now: int)
    requires GoodPool(xs, observations, now)
    ensures GoodPool(Sort(le, xs), observations, now)
  {
    DistinctPermutation(xs, Sort(le, xs));
    SameElements(xs, Sort(le, xs));
  }

  lemma AbsorbOneKeepsPool(byBandwidth: bool, xs: seq<Observation>, c: Observation, observations: seq<Observation>,
                           now: int)
    requires GoodPool(xs, observations, now) && c in observations && IsKept(c, now)
    ensures GoodPool(AbsorbOne(byBandwidth, xs, c), observations, now)
  {
    SortKeepsPool(ByCompare(byBandwidth), xs, observations, now);
    SameElements(xs, Sort(ByCompare(byBandwidth), xs));
  }

  lemma {:induction false} AbsorbKeepsPool(byBandwidth: bool, xs: seq<Observation>, cs: seq<Observation>,
                                           observations: seq<Observation>, now: int)
    requires GoodPool(xs, observations, now) && forall c <- cs :: c in observations && IsKept(c, now)
    ensures GoodPool(Absorb(byBandwidth, xs, cs), observations, now)
    decreases |cs|
  {
    if cs != [] {
      AbsorbOneKeepsPool(byBandwidth, xs, cs[0], observations, now);
      AbsorbKeepsPool(byBandwidth, AbsorbOne(byBandwidth, xs, cs[0]), cs[1..], observations, now);
    }
  }

  lemma PoolIsGood(observations: seq<Observation>, incumbent: seq<Observation>, now: int)
    requires Published(incumbent)
    ensures GoodPool(Pool(observations, incumbent, now), observations, now)
  {
    var m := Mode(observations, incumbent, now);
    var es := Sort(ByCompare(m), Eligible(observations, now));
    SameElements(es, Eligible(observations, now));
    RetainedDistinct(observations, incumbent, now);
    AbsorbKeepsPool(m, Retained(observations, incumbent, now), es, observations, now);
  }


  // ── Who is left out ──────────────────────────────────────────────────────

  ghost predicate IsWorst(byBandwidth: bool, xs: seq<Observation>, w: Observation) {
    w in xs && forall k <- xs :: !Better(byBandwidth, w, k)
  }

  // Every candidate is in, or the list is full and it does not beat the worst.
  ghost predicate Settled(byBandwidth: bool, xs: seq<Observation>, es: seq<Observation>) {
    forall e <- es :: HasIp(xs, e.ip) || (|xs| == 3 && !BeatsWorst(byBandwidth, e, xs))
  }

  ghost predicate BeatsWorst(byBandwidth: bool, e: Observation, xs: seq<Observation>) {
    exists w :: IsWorst(byBandwidth, xs, w) && Beats(byBandwidth, e, w)
  }

  lemma LastIsWorst(byBandwidth: bool, xs: seq<Observation>)
    requires xs != []
    ensures var sorted := Sort(ByCompare(byBandwidth), xs); IsWorst(byBandwidth, xs, sorted[|sorted| - 1])
  {
    Orders(byBandwidth);
    var sorted := Sort(ByCompare(byBandwidth), xs);
    SortSorts(ByCompare(byBandwidth), xs);
    SameElements(xs, sorted);
    var w := sorted[|sorted| - 1];
    assert w in sorted;
    forall k <- xs
      ensures !Better(byBandwidth, w, k)
    {
      assert k in sorted;
      var i :| 0 <= i < |sorted| && sorted[i] == k;
      assert ByCompare(byBandwidth)(sorted[i], w) || i == |sorted| - 1;
    }
  }

  // Level elements are beaten alike, and a better one is harder to beat.
  lemma BeatsMonotone(byBandwidth: bool, e: Observation, w: Observation, w': Observation)
    requires !Better(byBandwidth, w, w') && Beats(byBandwidth, e, w')
    ensures Beats(byBandwidth, e, w)
  {
  }

  lemma ReplacedWorst(byBandwidth: bool, xs: seq<Observation>, c: Observation, e: Observation, w: Observation)
    requires |xs| == 3 && IsWorst(byBandwidth, xs, xs[2]) && Better(byBandwidth, c, xs[2])
    requires IsWorst(byBandwidth, xs[2 := c], w)
    ensures !Better(byBandwidth, xs[2], w)
  {
  }

  lemma AbsorbOneSettles(byBandwidth: bool, xs: seq<Observation>, done: seq<Observation>, c: Observation,
                         observations: seq<Observation>, now: int)
    requires GoodPool(xs, observations, now) && DistinctIps(observations)
    requires Settled(byBandwidth, xs, done) && forall e <- done :: e in observations
    ensures Settled(byBandwidth, AbsorbOne(byBandwidth, xs, c), done + [c])
  {
    if HasIp(xs, c.ip) || |xs| < 3 {
      return;
    }
    var sorted := Sort(ByCompare(byBandwidth), xs);
    var ys := AbsorbOne(byBandwidth, xs, c);
    SameElements(xs, sorted);
    LastIsWorst(byBandwidth, xs);
    var worst := sorted[2];
    forall e <- done + [c]
      ensures HasIp(ys, e.ip) || !BeatsWorst(byBandwidth, e, ys)
    {
      if !HasIp(ys, e.ip) {
        AbsorbOneLeavesOut(byBandwidth, xs, done, c, e, observations, now);
      }
    }
  }

  lemma AbsorbOneLeavesOut(byBandwidth: bool, xs: seq<Observation>, done: seq<Observation>, c: Observation,
                           e: Observation, observations: seq<Observation>, now: int)
    requires GoodPool(xs, observations, now) && DistinctIps(observations) && |xs| == 3 && !HasIp(xs, c.ip)
    requires Settled(byBandwidth, xs, done) && forall e <- done :: e in observations
    requires e in done || e == c
    requires !HasIp(AbsorbOne(byBandwidth, xs, c), e.ip)
    ensures !BeatsWorst(byBandwidth, e, AbsorbOne(byBandwidth, xs, c))
  {
    var sorted := Sort(ByCompare(byBandwidth), xs);
    var ys := AbsorbOne(byBandwidth, xs, c);
    SameElements(xs, sorted);
    LastIsWorst(byBandwidth, xs);
    var worst := sorted[2];
    forall w | IsWorst(byBandwidth, ys, w)
      ensures !Beats(byBandwidth, e, w)
    {
      if ys == sorted {
        if e == c && Beats(byBandwidth, e, w) {
          BeatsMonotone(byBandwidth, e, worst, w);
        }
      } else {
        if HasIp(xs, e.ip) {
          SameIpIn(observations, xs, e);
          OnlyWorstGoes(sorted, c, e);
        }
        LeftOutOfReplaced(byBandwidth, sorted, c, e, w);
      }
    }
  }

  lemma OnlyWorstGoes(xs: seq<Observation>, c: Observation, e: Observation)
    requires |xs| == 3 && e in xs && !HasIp(xs[2 := c], e.ip)
    ensures e == xs[2]
  {
    assert forall i :: 0 <= i < 2 ==> xs[i] == xs[2 := c][i] && xs[i] in xs[2 := c];
  }

  // What is replaced, or did not beat it, does not beat the new worst one.
  lemma LeftOutOfReplaced(byBandwidth: bool, xs: seq<Observation>, c: Observation, e: Observation, w: Observation)
    requires |xs| == 3 && IsWorst(byBandwidth, xs, xs[2]) && Better(byBandwidth, c, xs[2])
    requires IsWorst(byBandwidth, xs[2 := c], w) && (e == xs[2] || !Beats(byBandwidth, e, xs[2]))
    ensures !Beats(byBandwidth, e, w)
  {
    ReplacedWorst(byBandwidth, xs, c, e, w);
    if e != xs[2] && Beats(byBandwidth, e, w) {
      BeatsMonotone(byBandwidth, e, xs[2], w);
    }
  }

  lemma SameIpIn(all: seq<Observation>, xs: seq<Observation>, e: Observation)
    requires DistinctIps(all) && e in all && HasIp(xs, e.ip) && forall x <- xs :: x in all
    ensures e in xs
  {
    var k :| k in xs && k.ip == e.ip;
    SameIpSame(all, k, e);
  }

  lemma SameIpSame(xs: seq<Observation>, a: Observation, b: Observation)
    requires DistinctIps(xs) && a in xs && b in xs && a.ip == b.ip
    ensures a == b
  {
    var i :| 0 <= i < |xs| && xs[i] == a;
    var j :| 0 <= j < |xs| && xs[j] == b;
    assert i == j;
  }

  lemma {:induction false} AbsorbSettles(byBandwidth: bool, xs: seq<Observation>, done: seq<Observation>,
                                         cs: seq<Observation>, observations: seq<Observation>, now: int)
    requires GoodPool(xs, observations, now) && DistinctIps(observations)
    requires Settled(byBandwidth, xs, done) && forall e <- done :: e in observations
    requires forall c <- cs :: c in observations && IsKept(c, now)
    ensures Settled(byBandwidth, Absorb(byBandwidth, xs, cs), done + cs)
    decreases |cs|
  {
    if cs == [] {
      assert done + cs == done;
    } else {
      AbsorbOneKeepsPool(byBandwidth, xs, cs[0], observations, now);
      AbsorbOneSettles(byBandwidth, xs, done, cs[0], observations, now);
      AbsorbSettles(byBandwidth, AbsorbOne(byBandwidth, xs, cs[0]), done + [cs[0]], cs[1..], observations, now);
      assert done + cs == done + [cs[0]] + cs[1..];
    }
  }

  lemma PoolSettles(observations: seq<Observation>, incumbent: seq<Observation>, now: int)
    requires DistinctIps(observations) && Published(incumbent)
    ensures Settled(Mode(observations, incumbent, now), Pool(observations, incumbent, now), Eligible(observations, now))
  {
    var m := Mode(observations, incumbent, now);
    var es := Sort(ByCompare(m), Eligible(observations, now));
    SameElements(es, Eligible(observations, now));
    RetainedDistinct(observations, incumbent, now);
    AbsorbSettles(m, Retained(observations, incumbent, now), [], es, observations, now);
    assert [] + es == es;
  }

  // ── The ranked list is an arrangement of the pool ────────────────────────

  lemma {:induction false} OthersPermute(xs: seq<Observation>, p: Observation)
    requires DistinctIps(xs) && p in xs
    ensures multiset([p] + Others(xs, p.ip)) == multiset(xs)
  {
    assert xs == [xs[0]] + xs[1..];
    if xs[0] == p {
      OthersOfAbsent(xs[1..], p.ip);
    } else {
      OthersPermute(xs[1..], p);
      assert xs[0].ip != p.ip;
      assert [p] + Others(xs, p.ip) == [p] + ([xs[0]] + Others(xs[1..], p.ip));
    }
  }

  lemma {:induction false} OthersOfAbsent(xs: seq<Observation>, ip: string)
    requires !HasIp(xs, ip)
    ensures Others(xs, ip) == xs
  {
    if xs != [] {
      assert xs[0] in xs;
      OthersOfAbsent(xs[1..], ip);
      assert xs == [xs[0]] + xs[1..];
    }
  }

  lemma RankedIsSorted(observations: seq<Observation>, incumbent: seq<Observation>, now: int)
    requires Published(incumbent)
    ensures Ranked(observations, incumbent, now) == Sort(ByFailures(Mode(observations, incumbent, now)),
      Pool(observations, incumbent, now))
    ensures GoodPool(Ranked(observations, incumbent, now), observations, now)
  {
    PoolIsGood(observations, incumbent, now);
    SortKeepsPool(ByFailures(Mode(observations, incumbent, now)), Pool(observations, incumbent, now), observations,
      now);
  }

  lemma PreferPermutes(byBandwidth: bool, ranked: seq<Observation>, incumbent: seq<Observation>)
    requires DistinctIps(ranked)
    ensures multiset(Prefer(byBandwidth, ranked, incumbent)) == multiset(ranked)
  {
    var r := Prefer(byBandwidth, ranked, incumbent);
    if r != ranked {
      OthersPermute(ranked, r[0]);
    }
  }

  lemma RankPermutesPool(observations: seq<Observation>, incumbent: seq<Observation>, now: int)
    requires Published(incumbent)
    ensures multiset(Rank(observations, incumbent, now)) == multiset(Pool(observations, incumbent, now))
    ensures GoodPool(Rank(observations, incumbent, now), observations, now)
  {
    RankedIsSorted(observations, incumbent, now);
    var ranked := Ranked(observations, incumbent, now);
    PreferPermutes(Mode(observations, incumbent, now), ranked, incumbent);
    DistinctPermutation(ranked, Rank(observations, incumbent, now));
    SameElements(ranked, Rank(observations, incumbent, now));
  }

  ghost predicate Sane(xs: seq<Observation>) {
    forall o <- xs :: o.latency >= 0.0 && o.Speed() >= 0.0
  }

  // An eligible address is left out only of a full list whose worst member it
  // does not beat by more than 20%.
  lemma LeftOutDoesNotImprove(observations: seq<Observation>, incumbent: seq<Observation>, now: int, e: Observation,
                              w: Observation)
    requires DistinctIps(observations) && Published(incumbent) && Sane(observations)
    requires e in Eligible(observations, now) && !HasIp(Rank(observations, incumbent, now), e.ip)
    requires IsWorst(Mode(observations, incumbent, now), Rank(observations, incumbent, now), w)
    ensures |Rank(observations, incumbent, now)| == 3
    ensures !Improves(Mode(observations, incumbent, now), e, w)
  {
    var m := Mode(observations, incumbent, now);
    var pool, r := Pool(observations, incumbent, now), Rank(observations, incumbent, now);
    PoolSettles(observations, incumbent, now);
    RankPermutesPool(observations, incumbent, now);
    SameElements(pool, r);
    assert IsWorst(m, pool, w);
    assert !BeatsWorst(m, e, pool);
  }

  // ── Who comes in, and who goes ───────────────────────────────────────────

  lemma NewcomerIsEligible(observations: seq<Observation>, incumbent: seq<Observation>, now: int, o: Observation)
    requires Published(incumbent)
    requires o in Rank(observations, incumbent, now) && !HasIp(incumbent, o.ip)
    ensures IsEligible(o, now) && o in observations
  {
    var m := Mode(observations, incumbent, now);
    RankPermutesPool(observations, incumbent, now);
    SameElements(Pool(observations, incumbent, now), Rank(observations, incumbent, now));
    var es := Sort(ByCompare(m), Eligible(observations, now));
    SameElements(es, Eligible(observations, now));
    AbsorbOrigin(m, Retained(observations, incumbent, now), es);
  }

  lemma {:induction false} AbsorbOrigin(byBandwidth: bool, xs: seq<Observation>, cs: seq<Observation>)
    ensures forall o <- Absorb(byBandwidth, xs, cs) :: o in xs || o in cs
    decreases |cs|
  {
    if cs != [] {
      SameElements(xs, Sort(ByCompare(byBandwidth), xs));
      AbsorbOrigin(byBandwidth, AbsorbOne(byBandwidth, xs, cs[0]), cs[1..]);
    }
  }

  lemma {:induction false} AbsorbEvicts(byBandwidth: bool, xs: seq<Observation>, cs: seq<Observation>, o: Observation)
    requires o in xs && o !in Absorb(byBandwidth, xs, cs)
    ensures exists c :: c in cs && Beats(byBandwidth, c, o)
    decreases |cs|
  {
    if cs != [] {
      SameElements(xs, Sort(ByCompare(byBandwidth), xs));
      var ys := AbsorbOne(byBandwidth, xs, cs[0]);
      if o in ys {
        AbsorbEvicts(byBandwidth, ys, cs[1..], o);
      } else {
        assert Beats(byBandwidth, cs[0], o);
      }
    }
  }

  lemma {:induction false} RetainedHas(observations: seq<Observation>, incumbent: seq<Observation>, now: int,
                                       ip: string)
    requires HasIp(incumbent, ip) && Find(observations, ip).Some? && IsKept(Find(observations, ip).value, now)
    ensures Find(observations, ip).value in Retained(observations, incumbent, now)
  {
    if incumbent[0].ip != ip {
      assert HasIp(incumbent[1..], ip);
      RetainedHas(observations, incumbent[1..], now, ip);
    }
  }

  // A published address leaves only when it is no longer observed, failed
  // twice, went stale, or an eligible rival is more than 20% better.
  lemma LeavesOnlyFor(observations: seq<Observation>, incumbent: seq<Observation>, now: int, ip: string)
    requires Published(incumbent) && HasIp(incumbent, ip) && !HasIp(Rank(observations, incumbent, now), ip)
    ensures
      var current := Find(observations, ip);
      || current.None? || current.value.failed >= 2 || !Fresh(current.value, now)
      || exists c :: c in Eligible(observations, now) && Improves(Mode(observations, incumbent, now), c, current.value)
  {
    var m, current := Mode(observations, incumbent, now), Find(observations, ip);
    if current.Some? && IsKept(current.value, now) {
      RetainedHas(observations, incumbent, now, ip);
      RankPermutesPool(observations, incumbent, now);
      SameElements(Pool(observations, incumbent, now), Rank(observations, incumbent, now));
      var es := Sort(ByCompare(m), Eligible(observations, now));
      SameElements(es, Eligible(observations, now));
      AbsorbEvicts(m, Retained(observations, incumbent, now), es, current.value);
    }
  }

  // ── Ranking is a fixed point ─────────────────────────────────────────────

  lemma {:induction false} FindSelf(observations: seq<Observation>, o: Observation)
    requires DistinctIps(observations) && o in observations
    ensures Find(observations, o.ip) == Some(o)
  {
    if observations[0] != o {
      FindSelf(observations[1..], o);
    }
  }

  lemma {:induction false} RetainedSelf(observations: seq<Observation>, xs: seq<Observation>, now: int)
    requires DistinctIps(observations) && forall o <- xs :: o in observations && IsKept(o, now)
    ensures Retained(observations, xs, now) == xs
    decreases |xs|
  {
    if xs != [] {
      FindSelf(observations, xs[0]);
      RetainedSelf(observations, xs[1..], now);
      assert xs == [xs[0]] + xs[1..];
    }
  }

  lemma {:induction false} AbsorbSettled(byBandwidth: bool, xs: seq<Observation>, cs: seq<Observation>)
    requires Settled(byBandwidth, xs, cs)
    ensures var r := Absorb(byBandwidth, xs, cs); r == xs || r == Sort(ByCompare(byBandwidth), xs)
    decreases |cs|
  {
    if cs != [] {
      var sorted := Sort(ByCompare(byBandwidth), xs);
      var ys := AbsorbOne(byBandwidth, xs, cs[0]);
      SameElements(xs, sorted);
      Orders(byBandwidth);
      SortSorts(ByCompare(byBandwidth), xs);
      SortOfSorted(ByCompare(byBandwidth), sorted);
      if !HasIp(xs, cs[0].ip) {
        LastIsWorst(byBandwidth, xs);
      }
      assert ys == xs || ys == sorted;
      SettledPermutation(byBandwidth, xs, ys, cs[1..]);
      AbsorbSettled(byBandwidth, ys, cs[1..]);
    }
  }

  lemma SettledPermutation(byBandwidth: bool, xs: seq<Observation>, ys: seq<Observation>, es: seq<Observation>)
    requires multiset(xs) == multiset(ys)
    requires forall e <- es :: HasIp(xs, e.ip) || (|xs| == 3 && !BeatsWorst(byBandwidth, e, xs))
    ensures Settled(byBandwidth, ys, es)
  {
    SameElements(xs, ys);
    assert forall w :: IsWorst(byBandwidth, ys, w) ==> IsWorst(byBandwidth, xs, w);
  }

  // Sorting the list back after one element was moved to the front.
  lemma SortMovedFront(byBandwidth: bool, xs: seq<Observation>, p: Observation)
    requires DistinctIps(xs) && Sorted(ByFailures(byBandwidth), xs) && p in xs
    ensures
      var r := Sort(ByFailures(byBandwidth), [p] + Others(xs, p.ip));
      r != [] && Others(r, p.ip) == Others(xs, p.ip) && ByFailures(byBandwidth)(r[0], xs[0])
        && ByFailures(byBandwidth)(xs[0], r[0])
  {
    var le, others := ByFailures(byBandwidth), Others(xs, p.ip);
    Orders(byBandwidth);
    OthersSorted(le, xs, p.ip);
    assert ([p] + others)[1..] == others;
    SortOfSorted(le, others);
    var r := Insert(le, p, others);
    assert r == Sort(le, [p] + others);
    OthersOfInsert(le, p, others);
    OthersPermute(xs, p);
    SortSorts(le, [p] + others);
    SameElements(r, xs);
    SortedHead(le, xs, r[0]);
    SortedHead(le, r, xs[0]);
  }

  lemma {:induction false} OthersSorted(le: Order, xs: seq<Observation>, ip: string)
    requires Sorted(le, xs)
    ensures Sorted(le, Others(xs, ip))
  {
    if xs != [] {
      OthersSorted(le, xs[1..], ip);
      var rest := Others(xs[1..], ip);
      forall j | 0 <= j < |rest|
        ensures le(xs[0], rest[j])
      {
        assert rest[j] in xs[1..];
      }
    }
  }

  lemma {:induction false} OthersOfInsert(le: Order, p: Observation, xs: seq<Observation>)
    requires !HasIp(xs, p.ip)
    ensures Others(Insert(le, p, xs), p.ip) == xs
  {
    if xs == [] || le(p, xs[0]) {
      assert ([p] + xs)[1..] == xs;
      OthersOfAbsent(xs, p.ip);
    } else {
      OthersOfInsert(le, p, xs[1..]);
      var rest := Insert(le, p, xs[1..]);
      assert ([xs[0]] + rest)[1..] == rest;
      assert xs[0] in xs && xs == [xs[0]] + xs[1..];
    }
  }

  // No element improves on itself, or on its equal.
  ghost predicate Positive(byBandwidth: bool, xs: seq<Observation>) {
    forall o <- xs :: o.latency >= 0.0 && (byBandwidth ==> o.Speed() > 0.0)
  }

  lemma {:induction false} FindPresent(xs: seq<Observation>, o: Observation)
    requires DistinctIps(xs) && o in xs && o.failed == 0
    ensures Find(Healthy(xs), o.ip) == Some(o)
  {
    var found := Find(Healthy(xs), o.ip);
    assert o in Healthy(xs);
    assert found.Some?;
    SameIpSame(xs, found.value, o);
  }

  lemma OthersOfHead(xs: seq<Observation>)
    requires DistinctIps(xs) && xs != []
    ensures [xs[0]] + Others(xs, xs[0].ip) == xs
  {
    assert forall o <- xs[1..] :: o.ip != xs[0].ip;
    OthersOfAbsent(xs[1..], xs[0].ip);
    assert xs == [xs[0]] + xs[1..];
    KeepCons(xs[0], xs[1..], (o: Observation) => o.ip != xs[0].ip);
  }

  lemma PreferSortedHead(byBandwidth: bool, sorted: seq<Observation>)
    requires DistinctIps(sorted) && Positive(byBandwidth, sorted)
    ensures Prefer(byBandwidth, sorted, sorted) == sorted
  {
    if sorted != [] {
      var healthy := Find(Healthy(sorted), sorted[0].ip);
      if healthy.Some? {
        SameIpSame(sorted, healthy.value, sorted[0]);
        OthersOfHead(sorted);
      }
    }
  }

  lemma PreferMovedHead(byBandwidth: bool, sorted: seq<Observation>, p: Observation)
    requires DistinctIps(sorted) && Sorted(ByFailures(byBandwidth), sorted)
    requires p in sorted && p.failed == 0 && !Improves(byBandwidth, sorted[0], p)
    ensures var r := [p] + Others(sorted, p.ip); Prefer(byBandwidth, Sort(ByFailures(byBandwidth), r), r) == r
  {
    var r := [p] + Others(sorted, p.ip);
    var again := Sort(ByFailures(byBandwidth), r);
    SortMovedFront(byBandwidth, sorted, p);
    OthersPermute(sorted, p);
    DistinctPermutation(sorted, again);
    SameElements(sorted, again);
    FindPresent(again, p);
  }

  // Preferring the head of a list that was settled by an earlier preference.
  lemma PreferAgain(byBandwidth: bool, sorted: seq<Observation>, incumbent: seq<Observation>)
    requires DistinctIps(sorted) && Sorted(ByFailures(byBandwidth), sorted) && Positive(byBandwidth, sorted)
    ensures var r := Prefer(byBandwidth, sorted, incumbent);
      Prefer(byBandwidth, Sort(ByFailures(byBandwidth), r), r) == r
  {
    var r := Prefer(byBandwidth, sorted, incumbent);
    if r == sorted {
      SortOfSorted(ByFailures(byBandwidth), sorted);
      PreferSortedHead(byBandwidth, sorted);
    } else {
      PreferMovedHead(byBandwidth, sorted, r[0]);
    }
  }

  // A settled list of current observations is only sorted again.
  lemma RankedOfSettled(observations: seq<Observation>, r: seq<Observation>, now: int)
    requires DistinctIps(observations) && GoodPool(r, observations, now)
    requires Settled(Mode(observations, r, now), r, Eligible(observations, now))
    ensures Ranked(observations, r, now) == Sort(ByFailures(Mode(observations, r, now)), r)
  {
    var m := Mode(observations, r, now);
    RetainedSelf(observations, r, now);
    var es := Sort(ByCompare(m), Eligible(observations, now));
    SameElements(es, Eligible(observations, now));
    AbsorbSettled(m, r, es);
    Orders(m);
    SortAfterSort(ByFailures(m), ByCompare(m), r);
    RankedIsSorted(observations, r, now);
  }

  // Ranking again with the result as incumbents, in the same comparison mode,
  // gives the same list in the same order.
  lemma RankIsFixedPoint(observations: seq<Observation>, incumbent: seq<Observation>, now: int)
    requires DistinctIps(observations) && Published(incumbent) && Sane(observations)
    requires Mode(observations, Rank(observations, incumbent, now), now) == Mode(observations, incumbent, now)
    ensures Rank(observations, Rank(observations, incumbent, now), now) == Rank(observations, incumbent, now)
  {
    var m, r := Mode(observations, incumbent, now), Rank(observations, incumbent, now);
    var pool, sorted := Pool(observations, incumbent, now), Ranked(observations, incumbent, now);
    RankPermutesPool(observations, incumbent, now);
    RankedIsSorted(observations, incumbent, now);
    PoolSettles(observations, incumbent, now);
    SettledPermutation(m, pool, r, Eligible(observations, now));
    RankedOfSettled(observations, r, now);
    Orders(m);
    SortSorts(ByFailures(m), pool);
    assert Positive(m, sorted) by {
      SameElements(sorted, r);
      assert forall o <- r :: o in Eligible(observations, now) + r;
    }
    PreferAgain(m, sorted, incumbent);
  }

  // Between modes it is not: an incumbent whose stored record has no bandwidth
  // yet holds the comparison to latency once, and no longer the next time.
  const NEAR := Observation("a", 2, 0, 1.0, 0, Some(1.0), Some(0))
  const FAST := Observation("b", 2, 0, 10.0, 0, Some(100.0), Some(0))
  const UNMEASURED := NEAR.(bytesPerSecond := None, bandwidthAt := None)

  lemma EligiblePair()
    ensures Eligible([NEAR, FAST], 0) == [NEAR, FAST] && Healthy([NEAR, FAST]) == [NEAR, FAST]
    ensures Find([NEAR, FAST], "a") == Some(NEAR) && Find([NEAR, FAST], "b") == Some(FAST)
    ensures HasIp([NEAR], "a") && !HasIp([NEAR], "b")
  {
    var p := (o: Observation) => IsEligible(o, 0);
    assert [NEAR, FAST][1..] == [FAST] && [FAST][1..] == [];
    assert Keep([FAST], p) == [FAST];
    var h := (o: Observation) => o.failed == 0;
    assert Keep([FAST], h) == [FAST];
    assert "a"[0] != "b"[0];
  }

  lemma LatencyPool()
    ensures !Mode([NEAR, FAST], [UNMEASURED], 0)
    ensures Pool([NEAR, FAST], [UNMEASURED], 0) == [NEAR, FAST]
  {
    EligiblePair();
    assert UNMEASURED in [NEAR, FAST] + [UNMEASURED];
    assert Retained([NEAR, FAST], [UNMEASURED], 0) == [NEAR] by {
      assert [UNMEASURED][1..] == [];
    }
    SortOfSorted(ByCompare(false), [NEAR, FAST]);
    assert [NEAR, FAST][1..] == [FAST] && [FAST][1..] == [];
    assert AbsorbOne(false, [NEAR], NEAR) == [NEAR] && AbsorbOne(false, [NEAR], FAST) == [NEAR, FAST];
    assert Absorb(false, [NEAR], [FAST]) == [NEAR, FAST];
  }

  lemma LatencyRanked()
    ensures Ranked([NEAR, FAST], [UNMEASURED], 0) == [NEAR, FAST]
  {
    LatencyPool();
    PairByFailures();
    assert [NEAR, FAST][..2] == [NEAR, FAST];
  }

  lemma PairByFailures()
    ensures Sort(ByFailures(false), [NEAR, FAST]) == [NEAR, FAST]
  {
    SortOfSorted(ByFailures(false), [NEAR, FAST]);
  }

  lemma LatencyRound()
    ensures Rank([NEAR, FAST], [UNMEASURED], 0) == [NEAR, FAST]
  {
    LatencyPool();
    LatencyRanked();
    NearStaysFirst();
  }

  lemma NearStaysFirst()
    ensures Prefer(false, [NEAR, FAST], [UNMEASURED]) == [NEAR, FAST]
  {
    EligiblePair();
    OthersOfNear();
  }

  lemma OthersOfNear()
    ensures Others([NEAR, FAST], "a") == [FAST]
  {
    OthersOfAbsent([FAST], "a");
    assert [NEAR, FAST] == [NEAR] + [FAST];
    KeepCons(NEAR, [FAST], (o: Observation) => o.ip != "a");
  }

  lemma PairIsPool()
    ensures GoodPool([NEAR, FAST], [NEAR, FAST], 0)
    ensures HasIp([NEAR, FAST], "a") && HasIp([NEAR, FAST], "b")
  {
    assert "a"[0] != "b"[0];
    assert NEAR in [NEAR, FAST] && FAST in [NEAR, FAST];
  }

  lemma FastFirst()
    ensures Sort(ByFailures(true), [NEAR, FAST])[0] == FAST
  {
    var le := ByFailures(true);
    assert [NEAR, FAST][1..] == [FAST] && [FAST][1..] == [];
    assert Sort(le, [FAST]) == [FAST];
    assert !le(NEAR, FAST);
  }

  lemma BandwidthRanked()
    ensures Mode([NEAR, FAST], [NEAR, FAST], 0)
    ensures var ranked := Ranked([NEAR, FAST], [NEAR, FAST], 0);
      multiset(ranked) == multiset([NEAR, FAST]) && ranked[0] == FAST
  {
    var pair := [NEAR, FAST];
    EligiblePair();
    PairIsPool();
    assert Mode(pair, pair, 0) by {
      assert forall o <- pair + pair :: o == NEAR || o == FAST;
    }
    assert Settled(true, pair, pair);
    RankedOfSettled(pair, pair, 0);
    FastFirst();
  }

  lemma BandwidthRound()
    ensures Rank([NEAR, FAST], [NEAR, FAST], 0) != [NEAR, FAST]
  {
    BandwidthRanked();
    var ranked := Ranked([NEAR, FAST], [NEAR, FAST], 0);
    assert DistinctIps([NEAR, FAST]) by { assert "a"[0] != "b"[0]; }
    DistinctPermutation([NEAR, FAST], ranked);
    SameElements(ranked, [NEAR, FAST]);
    assert NEAR in ranked;
    FindPresent(ranked, NEAR);
    assert Improves(true, FAST, NEAR);
  }

  lemma PairIsFine()
    ensures DistinctIps([NEAR, FAST]) && Published([UNMEASURED]) && Sane([NEAR, FAST])
  {
    assert "a"[0] != "b"[0];
  }

  lemma ModeChangeReorders()
    ensures DistinctIps([NEAR, FAST]) && Published([UNMEASURED]) && Sane([NEAR, FAST])
    ensures var once := Rank([NEAR, FAST], [UNMEASURED], 0); Rank([NEAR, FAST], once, 0) != once
  {
    PairIsFine();
    LatencyRound();
    BandwidthRound();
  }
}
