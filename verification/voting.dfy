/**
 * Combining the probes of a region into one ranked list (regionalCandidates in
 * cf-optimization.util.ts).  Shares of a rank are exact numbers here.
 */
module RegionalVoting {
  import opened Common
  import opened StableSort
  import opened CfRanking

  datatype Region = Region(key: string, title: string)
  datatype Profile = Profile(region: Option<Region>, observations: seq<Observation>)
  datatype Candidates = Candidates(region: Option<Region>, ips: seq<string>)

  datatype Score = Score(votes: nat, rank: real, failures: nat)
  type Scores = map<string, Score>
  type Row = seq<Observation>
  // The addresses of one probe, best first.
  type Ballot = seq<Observation>
  // localeCompare, as a strict order of addresses.
  type Before = (string, string) -> bool

  const NO_SCORE := Score(0, 0.0, 0)

  ghost predicate StrictOrder(before: Before) {
    && (forall a, b :: a != b ==> before(a, b) || before(b, a))
    && (forall a, b :: !(before(a, b) && before(b, a)))
    && (forall a, b, c :: before(a, b) && before(b, c) ==> before(a, c))
  }

  // new Map(rows.map(o => [o.ip, o])).values(): the place of the first, the value of the last.
  function Dedupe(row: Row): Row {
    if row == [] then [] else Keep(Dedupe(row[..|row| - 1]), row[|row| - 1])
  }

  function Keep(entries: Row, o: Observation): Row {
    if entries == [] then [o]
    else if entries[0].ip == o.ip then [o] + entries[1..]
    else [entries[0]] + Keep(entries[1..], o)
  }

  function BallotOf(row: Row): Ballot {
    Sort((a: Observation, b: Observation) => a.failed <= b.failed, Dedupe(row))
  }

  // ── One ballot at a time ────────────────────────────────────────────────────

  function AddVote(s: Score, o: Observation, rank: nat, size: nat): Score
    requires size > 0
  {
    Score(s.votes + 1, s.rank + rank as real / size as real, s.failures + o.failed)
  }

  function ScoreIn(scores: Scores, ip: string): Score {
    if ip in scores then scores[ip] else NO_SCORE
  }

  // What the first n places of a ballot add to one address.
  function VotesOf(ballot: Ballot, n: nat, ip: string): Score
    requires n <= |ballot|
  {
    if n == 0 then NO_SCORE
    else
      var s := VotesOf(ballot, n - 1, ip);
      if ballot[n - 1].ip == ip then AddVote(s, ballot[n - 1], n - 1, |ballot|) else s
  }

  function Plus(a: Score, b: Score): Score {
    Score(a.votes + b.votes, a.rank + b.rank, a.failures + b.failures)
  }

  // The total of all ballots for one address.
  function Total(ballots: seq<Ballot>, ip: string): Score {
    if ballots == [] then NO_SCORE
    else Plus(VotesOf(ballots[0], |ballots[0]|, ip), Total(ballots[1..], ip))
  }

  ghost predicate Mentions(ballots: seq<Ballot>, ip: string) {
    exists ballot <- ballots :: HasIp(ballot, ip)
  }

  // x.failures - y.failures || y.votes - x.votes || average rank || address
  function ByScore(scores: Scores, before: Before): (string, string) -> bool {
    (a: string, b: string) =>
      var x, y := ScoreIn(scores, a), ScoreIn(scores, b);
      if x.failures != y.failures then x.failures < y.failures
      else if x.votes != y.votes then x.votes > y.votes
      else if Average(x) != Average(y) then Average(x) < Average(y)
      else !before(b, a)
  }

  function Average(s: Score): real {
    if s.votes == 0 then 0.0 else s.rank / s.votes as real
  }

  function Top(ips: seq<string>): seq<string> {
    ips[..if |ips| < 3 then |ips| else 3]
  }

  // The scores of all ballots, with their addresses in the order first met.
  method CountVotes(ballots: seq<Ballot>) returns (scores: Scores, order: seq<string>)
    ensures Counts(ballots, scores, order)
  {
    scores, order := map[], [];
    for i := 0 to |ballots|
      invariant Counts(ballots[..i], scores, order)
    {
      assert ballots[..i + 1] == ballots[..i] + [ballots[i]];
      ghost var before := scores;
      scores, order := CountBallot(ballots[i], scores, order);
      CountMore(ballots[..i], ballots[i], before, scores);
    }
    assert ballots[..|ballots|] == ballots;
  }

  // Addresses and scores agree, and every address is listed once.
  ghost predicate Listed(scores: Scores, order: seq<string>) {
    Distinct(order) && forall ip :: ip in order <==> ip in scores
  }

  // The first n places of a ballot are added to the earlier score of an address.
  ghost predicate Counted(scores0: Scores, scores: Scores, ballot: Ballot, n: nat, ip: string)
    requires n <= |ballot|
  {
    && (ip in scores <==> ip in scores0 || HasIp(ballot[..n], ip))
    && ScoreIn(scores, ip) == Plus(ScoreIn(scores0, ip), VotesOf(ballot, n, ip))
  }

  function CountPlace(scores: Scores, ballot: Ballot, n: nat): Scores
    requires n < |ballot|
  {
    scores[ballot[n].ip := AddVote(ScoreIn(scores, ballot[n].ip), ballot[n], n, |ballot|)]
  }

  ghost predicate AllCounted(scores0: Scores, scores: Scores, ballot: Ballot, n: nat)
    requires n <= |ballot|
  {
    forall ip :: Counted(scores0, scores, ballot, n, ip)
  }

  lemma NoPlaces(ballot: Ballot, ip: string, s: Score)
    ensures !HasIp(ballot[..0], ip)
    ensures Plus(s, VotesOf(ballot, 0, ip)) == s
  {
    assert ballot[..0] == [];
  }

  lemma NothingCountedFor(scores0: Scores, ballot: Ballot, ip: string)
    ensures Counted(scores0, scores0, ballot, 0, ip)
  {
    NoPlaces(ballot, ip, ScoreIn(scores0, ip));
  }

  lemma NothingCounted(scores0: Scores, ballot: Ballot)
    ensures AllCounted(scores0, scores0, ballot, 0)
  {
    forall ip
      ensures Counted(scores0, scores0, ballot, 0, ip)
    {
      NothingCountedFor(scores0, ballot, ip);
    }
  }

  lemma PlaceCountedFor(scores0: Scores, scores: Scores, ballot: Ballot, n: nat, ip: string)
    requires n < |ballot| && Counted(scores0, scores, ballot, n, ip)
    ensures Counted(scores0, CountPlace(scores, ballot, n), ballot, n + 1, ip)
  {
    HasIpNext(ballot, n, ip);
    PlusVote(ScoreIn(scores0, ip), VotesOf(ballot, n, ip), ballot[n], n, |ballot|);
  }

  lemma HasIpNext(ballot: Ballot, n: nat, ip: string)
    requires n < |ballot|
    ensures HasIp(ballot[..n + 1], ip) <==> HasIp(ballot[..n], ip) || ballot[n].ip == ip
  {
    assert ballot[..n + 1] == ballot[..n] + [ballot[n]];
  }

  lemma PlusVote(a: Score, b: Score, o: Observation, rank: nat, size: nat)
    requires size > 0
    ensures Plus(a, AddVote(b, o, rank, size)) == AddVote(Plus(a, b), o, rank, size)
  {
  }

  lemma PlaceCounted(scores0: Scores, scores: Scores, ballot: Ballot, n: nat)
    requires n < |ballot| && AllCounted(scores0, scores, ballot, n)
    ensures AllCounted(scores0, CountPlace(scores, ballot, n), ballot, n + 1)
  {
    var scores', m := CountPlace(scores, ballot, n), n + 1;
    forall ip
      ensures Counted(scores0, scores', ballot, m, ip)
    {
      PlaceCountedFor(scores0, scores, ballot, n, ip);
    }
  }

  method CountBallot(ballot: Ballot, scores0: Scores, order0: seq<string>) returns (scores: Scores, order: seq<string>)
    requires Listed(scores0, order0)
    ensures Listed(scores, order)
    ensures AllCounted(scores0, scores, ballot, |ballot|)
  {
    scores, order := scores0, order0;
    NothingCounted(scores0, ballot);
    for rank := 0 to |ballot|
      invariant Listed(scores, order)
      invariant AllCounted(scores0, scores, ballot, rank)
    {
      PlaceCounted(scores0, scores, ballot, rank);
      AddKeepsListed(scores, order, ballot[rank].ip, CountPlace(scores, ballot, rank)[ballot[rank].ip]);
      order := AddListed(scores, order, ballot[rank].ip);
      scores := CountPlace(scores, ballot, rank);
    }
  }

  // Map.set appends a key that is new.
  function AddListed(scores: Scores, order: seq<string>, ip: string): seq<string> {
    if ip in scores then order else order + [ip]
  }

  lemma AddKeepsListed(scores: Scores, order: seq<string>, ip: string, s: Score)
    requires Listed(scores, order)
    ensures Listed(scores[ip := s], AddListed(scores, order, ip))
  {
  }

  lemma CountMore(ballots: seq<Ballot>, ballot: Ballot, scores0: Scores, scores: Scores)
    requires forall ip :: (ip in scores0 <==> Mentions(ballots, ip)) && ScoreIn(scores0, ip) == Total(ballots, ip)
    requires AllCounted(scores0, scores, ballot, |ballot|)
    ensures forall ip ::
      (ip in scores <==> Mentions(ballots + [ballot], ip)) && ScoreIn(scores, ip) == Total(ballots + [ballot], ip)
  {
    assert ballot in ballots + [ballot] && ballot[..|ballot|] == ballot;
    forall ip
      ensures (ip in scores <==> Mentions(ballots + [ballot], ip))
        && ScoreIn(scores, ip) == Total(ballots + [ballot], ip)
    {
      assert Counted(scores0, scores, ballot, |ballot|, ip);
      TotalAppend(ballots, ballot, ip);
    }
  }

  lemma {:induction false} TotalAppend(ballots: seq<Ballot>, ballot: Ballot, ip: string)
    ensures Total(ballots + [ballot], ip) == Plus(Total(ballots, ip), VotesOf(ballot, |ballot|, ip))
  {
    if ballots == [] {
      assert ballots + [ballot] == [ballot] && [ballot][1..] == [];
    } else {
      assert (ballots + [ballot])[1..] == ballots[1..] + [ballot];
      TotalAppend(ballots[1..], ballot, ip);
    }
  }

  ghost predicate Distinct<T>(xs: seq<T>) {
    forall i, j :: 0 <= i < j < |xs| ==> xs[i] != xs[j]
  }

  // ── The order of the ballots does not matter ────────────────────────────────

  // What a vote over some ballots answers.
  ghost predicate IsVote(ballots: seq<Ballot>, before: Before, ips: seq<string>) {
    exists scores: Scores, order: seq<string> ::
      Counts(ballots, scores, order) && ips == Top(Sort(ByScore(scores, before), order))
  }

  ghost predicate Counts(ballots: seq<Ballot>, scores: Scores, order: seq<string>) {
    && Listed(scores, order)
    && (forall ip :: (ip in scores <==> Mentions(ballots, ip)) && ScoreIn(scores, ip) == Total(ballots, ip))
  }

  method Vote(ballots: seq<Ballot>, before: Before) returns (ips: seq<string>)
    ensures IsVote(ballots, before, ips)
  {
    var scores, order := CountVotes(ballots);
    ips := Top(Sort(ByScore(scores, before), order));
  }

  lemma {:induction false} TotalWithout(ballots: seq<Ballot>, i: nat, ip: string)
    requires i < |ballots|
    ensures Total(ballots, ip) == Plus(VotesOf(ballots[i], |ballots[i]|, ip), Total(RemoveAt(ballots, i), ip))
  {
    var rest := RemoveAt(ballots, i);
    if i == 0 {
      assert rest == ballots[1..];
    } else {
      TotalWithout(ballots[1..], i - 1, ip);
      assert rest[1..] == RemoveAt(ballots[1..], i - 1);
    }
  }

  lemma {:induction false} TotalPermutes(ballots: seq<Ballot>, ballots': seq<Ballot>, ip: string)
    requires multiset(ballots) == multiset(ballots')
    ensures Total(ballots, ip) == Total(ballots', ip)
    decreases |ballots|
  {
    SameElements(ballots, ballots');
    if ballots != [] {
      var i := HeadIn(ballots, ballots');
      TotalWithout(ballots', i, ip);
      TotalPermutes(ballots[1..], RemoveAt(ballots', i), ip);
    }
  }

  lemma {:induction false} DistinctMultiset(xs: seq<string>)
    requires Distinct(xs)
    ensures forall x :: multiset(xs)[x] == if x in xs then 1 else 0
  {
    if xs != [] {
      DistinctMultiset(xs[1..]);
      assert xs == [xs[0]] + xs[1..];
    }
  }

  lemma SameSetSameMultiset(xs: seq<string>, ys: seq<string>)
    requires Distinct(xs) && Distinct(ys) && forall x :: x in xs <==> x in ys
    ensures multiset(xs) == multiset(ys)
  {
    DistinctMultiset(xs);
    DistinctMultiset(ys);
  }

  lemma ScoreOrder(scores: Scores, before: Before)
    requires StrictOrder(before)
    ensures TotalPreorder(ByScore(scores, before))
    ensures forall a, b :: ByScore(scores, before)(a, b) && ByScore(scores, before)(b, a) ==> a == b
  {
  }

  // Any permutation of the ballots gives the same addresses in the same order.
  lemma VoteIgnoresOrder(ballots: seq<Ballot>, ballots': seq<Ballot>, before: Before, ips: seq<string>,
                         ips': seq<string>)
    requires StrictOrder(before) && multiset(ballots) == multiset(ballots')
    requires IsVote(ballots, before, ips) && IsVote(ballots', before, ips')
    ensures ips == ips'
  {
    var s: Scores, order: seq<string> :| Counts(ballots, s, order) && ips == Top(Sort(ByScore(s, before), order));
    var s': Scores, order': seq<string> :| Counts(ballots', s', order')
      && ips' == Top(Sort(ByScore(s', before), order'));
    SameCounts(ballots, ballots', s, s', order, order');
    SameSetSameMultiset(order, order');
    SortIsUnique(ByScore(s, before), order, order', s, before);
  }

  lemma SameCounts(ballots: seq<Ballot>, ballots': seq<Ballot>, s: Scores, s': Scores, order: seq<string>,
                   order': seq<string>)
    requires multiset(ballots) == multiset(ballots') && Counts(ballots, s, order) && Counts(ballots', s', order')
    ensures s == s' && forall ip :: ip in order <==> ip in order'
  {
    forall ip
      ensures (ip in s <==> ip in s') && ScoreIn(s, ip) == ScoreIn(s', ip)
    {
      TotalPermutes(ballots, ballots', ip);
      MentionsPermute(ballots, ballots', ip);
    }
    SameMaps(s, s');
  }

  lemma SameMaps(s: Scores, s': Scores)
    requires forall ip :: (ip in s <==> ip in s') && ScoreIn(s, ip) == ScoreIn(s', ip)
    ensures s == s'
  {
    assert forall ip <- s :: s[ip] == ScoreIn(s, ip) && s'[ip] == ScoreIn(s', ip);
  }

  lemma MentionsPermute(ballots: seq<Ballot>, ballots': seq<Ballot>, ip: string)
    requires multiset(ballots) == multiset(ballots')
    ensures Mentions(ballots, ip) <==> Mentions(ballots', ip)
  {
    SameElements(ballots, ballots');
  }

  lemma SortIsUnique(le: (string, string) -> bool, xs: seq<string>, ys: seq<string>, scores: Scores, before: Before)
    requires StrictOrder(before) && le == ByScore(scores, before) && multiset(xs) == multiset(ys)
    ensures Sort(le, xs) == Sort(le, ys)
  {
    ScoreOrder(scores, before);
    SortSorts(le, xs);
    SortSorts(le, ys);
    SortedUnique(le, Sort(le, xs), Sort(le, ys));
  }

  // ── All regions ──────────────────────────────────────────────────────────

  function BallotsOf(profiles: seq<Profile>, region: Option<Region>): seq<Ballot> {
    if profiles == [] then []
    else
      var rest := BallotsOf(profiles[1..], region);
      if SameRegion(profiles[0].region, region) then [BallotOf(profiles[0].observations)] + rest else rest
  }

  // Profiles belong to a region by its key.
  predicate SameRegion(a: Option<Region>, b: Option<Region>) {
    if b.Some? then a.Some? && a.value.key == b.value.key else a.None?
  }

  function OwnBallot(p: Profile, region: Option<Region>): multiset<Ballot> {
    if SameRegion(p.region, region) then multiset{BallotOf(p.observations)} else multiset{}
  }

  lemma BallotsHead(profiles: seq<Profile>, region: Option<Region>)
    requires profiles != []
    ensures multiset(BallotsOf(profiles, region)) == OwnBallot(profiles[0],
      region) + multiset(BallotsOf(profiles[1..], region))
  {
  }

  lemma {:induction false} BallotsWithout(profiles: seq<Profile>, i: nat, region: Option<Region>)
    requires i < |profiles|
    ensures multiset(BallotsOf(profiles, region)) == OwnBallot(profiles[i],
      region) + multiset(BallotsOf(RemoveAt(profiles, i), region))
  {
    var rest := RemoveAt(profiles, i);
    BallotsHead(profiles, region);
    if i == 0 {
      assert rest == profiles[1..];
    } else {
      BallotsWithout(profiles[1..], i - 1, region);
      assert rest[1..] == RemoveAt(profiles[1..], i - 1);
      BallotsHead(rest, region);
    }
  }

  lemma {:induction false} BallotsPermute(profiles: seq<Profile>, profiles': seq<Profile>, region: Option<Region>)
    requires multiset(profiles) == multiset(profiles')
    ensures multiset(BallotsOf(profiles, region)) == multiset(BallotsOf(profiles', region))
    decreases |profiles|
  {
    SameElements(profiles, profiles');
    if profiles != [] {
      var i := HeadIn(profiles, profiles');
      BallotsHead(profiles, region);
      BallotsWithout(profiles', i, region);
      BallotsPermute(profiles[1..], RemoveAt(profiles', i), region);
    }
  }

  // Every region in turn, then the probes without one; empty results are dropped.
  function Slots(regions: seq<Region>): seq<Option<Region>> {
    seq(|regions|, i requires 0 <= i < |regions| => Some(regions[i])) + [None]
  }

  // The slot has no addresses and is dropped, or it heads the result.
  ghost predicate Skips(ballots: seq<Ballot>, before: Before) {
    IsVote(ballots, before, [])
  }

  ghost predicate Heads(ballots: seq<Ballot>, slot: Option<Region>, before: Before, r: seq<Candidates>) {
    r != [] && r[0].region == slot && r[0].ips != [] && IsVote(ballots, before, r[0].ips)
  }

  ghost predicate IsResult(profiles: seq<Profile>, slots: seq<Option<Region>>, before: Before, r: seq<Candidates>) {
    if slots == [] then r == []
    else
      || (Skips(BallotsOf(profiles, slots[0]), before) && IsResult(profiles, slots[1..], before, r))
      || (Heads(BallotsOf(profiles, slots[0]), slots[0], before, r) && IsResult(profiles, slots[1..], before, r[1..]))
  }

  method RegionalCandidates(profiles: seq<Profile>, regions: seq<Region>, before: Before) returns (r: seq<Candidates>)
    ensures IsResult(profiles, Slots(regions), before, r)
  {
    r := VoteSlots(profiles, Slots(regions), before);
  }

  method VoteSlots(profiles: seq<Profile>, slots: seq<Option<Region>>, before: Before) returns (r: seq<Candidates>)
    ensures IsResult(profiles, slots, before, r)
    decreases |slots|
  {
    if slots == [] {
      return [];
    }
    var ips := Vote(BallotsOf(profiles, slots[0]), before);
    var rest := VoteSlots(profiles, slots[1..], before);
    r := if ips == [] then rest else [Candidates(slots[0], ips)] + rest;
    assert ips != [] ==> r[1..] == rest;
  }

  lemma SlotsAgree(ballots: seq<Ballot>, ballots': seq<Ballot>, slot: Option<Region>, before: Before,
                   r: seq<Candidates>, r': seq<Candidates>)
    requires StrictOrder(before) && multiset(ballots) == multiset(ballots')
    ensures !(Skips(ballots, before) && Heads(ballots', slot, before, r'))
    ensures Heads(ballots, slot, before, r) && Heads(ballots', slot, before, r') ==> r[0] == r'[0]
  {
    if Skips(ballots, before) && Heads(ballots', slot, before, r') {
      VoteIgnoresOrder(ballots, ballots', before, [], r'[0].ips);
    } else if Heads(ballots, slot, before, r) && Heads(ballots', slot, before, r') {
      VoteIgnoresOrder(ballots, ballots', before, r[0].ips, r'[0].ips);
    }
  }

  // The whole result depends on the profiles only as an unordered collection.
  lemma {:induction false} ResultIgnoresProfileOrder(profiles: seq<Profile>, profiles': seq<Profile>,
                                                     slots: seq<Option<Region>>,
                                                    before: Before, r: seq<Candidates>, r': seq<Candidates>)
    requires StrictOrder(before) && multiset(profiles) == multiset(profiles')
    requires IsResult(profiles, slots, before, r) && IsResult(profiles', slots, before, r')
    ensures r == r'
    decreases |slots|
  {
    if slots != [] {
      var ballots, ballots' := BallotsOf(profiles, slots[0]), BallotsOf(profiles', slots[0]);
      BallotsPermute(profiles, profiles', slots[0]);
      SlotsAgree(ballots, ballots', slots[0], before, r, r');
      if Skips(ballots, before) {
        SlotsAgree(ballots, ballots, slots[0], before, r, r);
        ResultIgnoresProfileOrder(profiles, profiles', slots[1..], before, r, r');
      } else {
        SlotsAgree(ballots', ballots, slots[0], before, r', r);
        ResultIgnoresProfileOrder(profiles, profiles', slots[1..], before, r[1..], r'[1..]);
        SameHeadAndTail(r, r');
      }
    }
  }

  lemma SameHeadAndTail(r: seq<Candidates>, r': seq<Candidates>)
    requires r != [] && r' != [] && r[0] == r'[0] && r[1..] == r'[1..]
    ensures r == r'
  {
    assert r == [r[0]] + r[1..] && r' == [r'[0]] + r'[1..];
  }
}
