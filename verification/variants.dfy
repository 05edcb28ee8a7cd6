/**
 * Endpoint variants of a node for the measured CDN addresses (automaticVariants
 * in cf-optimization.util.ts).
 */
module CfVariants {
  import opened Common
  import opened Text
  import opened RegionalVoting
  import Identified

  datatype Endpoint = Endpoint(ip: string, profile: string, region: Option<Region>)
  datatype Variant = Variant(host: string, name: string, profile: string, region: Option<Region>)

  const GENERIC := "GENERIC"
  const DNS := "DNS"

  // Region keys are lower-case words joined by dashes.
  predicate GoodKey(key: string) {
    forall c <- key :: 'a' <= c <= 'z' || '0' <= c <= '9' || c == '-'
  }

  function SlotOf(region: Option<Region>): string {
    if region.Some? then "REGION:" + region.value.key else GENERIC
  }

  // ips[0] of a profile, when it is a usable address.
  function FirstIp(c: Candidates): Option<string> {
    if c.ips == [] || c.ips[0] == "" then None else Some(c.ips[0])
  }

  // ── Names ────────────────────────────────────────────────────────────────

  function Tag(e: Endpoint): string {
    if e.region.Some? then e.region.value.key else e.profile
  }

  function Kind(e: Endpoint): string {
    if e.profile == DNS then DNS else GENERIC
  }

  function Label(e: Endpoint, position: nat): string {
    if e.profile == DNS then "默认 CDN"
    else (if e.region.Some? then e.region.value.title + "云测优选" else "通用候选") + " " + Decimal(position)
  }

  function NameOf(base: string, e: Endpoint, position: nat): string {
    base + " " + Label(e, position) + " [CF-REGION" + ":" + (Tag(e) + "] [CF") + ":" + (Kind(e) + "]")
  }

  // An endpoint of one region, the generic pool, or the default address.
  ghost predicate GoodEndpoint(e: Endpoint) {
    if e.region.Some? then GoodKey(e.region.value.key) && e.profile == SlotOf(e.region)
    else e.profile == GENERIC || e.profile == DNS
  }

  lemma TagHasNoColon(e: Endpoint)
    requires GoodEndpoint(e)
    ensures ':' !in Tag(e) + "] [CF"
  {
    forall i | 0 <= i < |Tag(e) + "] [CF"|
      ensures (Tag(e) + "] [CF")[i] != ':'
    {
      if i < |Tag(e)| {
        assert Tag(e)[i] in Tag(e);
      }
    }
  }

  // Equal names have equal tags, kinds and labels.
  lemma NameDetermines(base: string, e: Endpoint, m: nat, f: Endpoint, n: nat)
    requires GoodEndpoint(e) && GoodEndpoint(f) && NameOf(base, e, m) == NameOf(base, f, n)
    ensures Tag(e) == Tag(f) && Kind(e) == Kind(f) && Label(e, m) == Label(f, n)
  {
    var front, front' := base + " " + Label(e, m) + " [CF-REGION", base + " " + Label(f, n) + " [CF-REGION";
    var tag, tag' := Tag(e) + "] [CF", Tag(f) + "] [CF";
    TagHasNoColon(e);
    TagHasNoColon(f);
    SplitAtLast(front + ":" + tag, Kind(e) + "]", front' + ":" + tag', Kind(f) + "]", ':');
    SplitAtLast(front, tag, front', tag', ':');
    CancelRight(Kind(e), Kind(f), "]");
    CancelRight(Tag(e), Tag(f), "] [CF");
    CancelRight(base + " " + Label(e, m), base + " " + Label(f, n), " [CF-REGION");
    CancelLeft(base + " ", Label(e, m), Label(f, n));
  }

  lemma NamesDiffer(base: string, e: Endpoint, m: nat, f: Endpoint, n: nat)
    requires GoodEndpoint(e) && GoodEndpoint(f)
    requires e.profile != f.profile || (e.profile == GENERIC && m != n)
    ensures NameOf(base, e, m) != NameOf(base, f, n)
  {
    if NameOf(base, e, m) == NameOf(base, f, n) {
      NameDetermines(base, e, m, f, n);
      KeyIsNoMark(e);
      KeyIsNoMark(f);
      assert e.profile == f.profile;
      assert e.region.None? && f.region.None?;
      assert Label(e, m) == "通用候选 " + Decimal(m) && Label(f, n) == "通用候选 " + Decimal(n);
      CancelLeft("通用候选 ", Decimal(m), Decimal(n));
      DecimalInjective(m, n);
    }
  }

  lemma KeyIsNoMark(e: Endpoint)
    requires GoodEndpoint(e)
    ensures e.region.Some? ==> Tag(e) != GENERIC && Tag(e) != DNS && e.profile != GENERIC && e.profile != DNS
    ensures GENERIC != DNS
  {
    assert GENERIC[0] == 'G' && DNS[0] == 'D';
    if e.region.Some? {
      assert 'G' in GENERIC && 'D' in DNS;
      assert e.profile[0] == 'R';
    }
  }

  // ── Endpoints by address, in insertion order ─────────────────────────────

  datatype Endpoints = Endpoints(order: seq<string>, at: map<string, Endpoint>) {
    ghost predicate Valid() {
      && (forall i, j :: 0 <= i < j < |order| ==> order[i] != order[j])
      && (forall ip :: ip in order <==> ip in at)
      && (forall ip <- at :: at[ip].ip == ip)
    }

    function Put(e: Endpoint): Endpoints {
      Endpoints(if e.ip in at then order else order + [e.ip], at[e.ip := e])
    }

    function Delete(ip: string): Endpoints {
      Endpoints(Identified.Without(order, Itself(), ip), at - {ip})
    }

    lemma PutValid(e: Endpoint)
      requires Valid()
      ensures Put(e).Valid()
    {
    }

    lemma DeleteValid(ip: string)
      requires Valid()
      ensures Delete(ip).Valid()
    {
      Identified.KeepDistinct(order, Identified.NotId(Itself(), ip), Itself());
      assert Delete(ip).order == Identified.Keep(order, Identified.NotId(Itself(), ip));
    }
  }

  function Itself(): string -> string {
    (ip: string) => ip
  }

  // ── Which profile speaks for a slot ──────────────────────────────────────

  predicate Takes(c: Candidates, needsGeneric: bool) {
    FirstIp(c).Some? && (c.region.Some? || needsGeneric)
  }

  // The first usable profile of every slot.
  function Chosen(profiles: seq<Candidates>, needsGeneric: bool): map<string, Candidates> {
    if profiles == [] then map[]
    else
      var c := profiles[|profiles| - 1];
      var before := Chosen(profiles[..|profiles| - 1], needsGeneric);
      if Takes(c, needsGeneric) && SlotOf(c.region) !in before then before[SlotOf(c.region) := c] else before
  }

  lemma {:induction false} ChosenIsFirst(profiles: seq<Candidates>, needsGeneric: bool, i: nat)
    requires i < |profiles| && Takes(profiles[i], needsGeneric)
    requires forall j :: 0 <= j < i && Takes(profiles[j], needsGeneric) ==>
      SlotOf(profiles[j].region) != SlotOf(profiles[i].region)
    ensures SlotOf(profiles[i].region) in Chosen(profiles, needsGeneric)
    ensures Chosen(profiles, needsGeneric)[SlotOf(profiles[i].region)] == profiles[i]
  {
    if i == |profiles| - 1 {
      if SlotOf(profiles[i].region) in Chosen(profiles[..i], needsGeneric) {
        ChosenHasSource(profiles[..i], needsGeneric, SlotOf(profiles[i].region));
      }
    } else {
      ChosenIsFirst(profiles[..|profiles| - 1], needsGeneric, i);
    }
  }

  lemma {:induction false} ChosenHasSource(profiles: seq<Candidates>, needsGeneric: bool, slot: string)
    requires slot in Chosen(profiles, needsGeneric)
    ensures exists j :: 0 <= j < |profiles| && Takes(profiles[j], needsGeneric) && SlotOf(profiles[j].region) == slot
  {
    var n := |profiles| - 1;
    if slot in Chosen(profiles[..n], needsGeneric) {
      ChosenHasSource(profiles[..n], needsGeneric, slot);
      var j :| 0 <= j < n && Takes(profiles[..n][j], needsGeneric) && SlotOf(profiles[..n][j].region) == slot;
      assert profiles[..n][j] == profiles[j];
    }
  }

  // A slot's profile is usable and carries the slot's region.
  ghost predicate Usable(chosen: map<string, Candidates>) {
    forall slot <- chosen ::
      && slot == SlotOf(chosen[slot].region) && FirstIp(chosen[slot]).Some?
      && (chosen[slot].region.Some? ==> GoodKey(chosen[slot].region.value.key))
  }

  ghost predicate Picks(chosen: map<string, Candidates>, slot: string, ip: string) {
    slot in chosen && FirstIp(chosen[slot]) == Some(ip)
  }

  ghost predicate IsPicked(chosen: map<string, Candidates>, ip: string) {
    exists slot <- chosen :: Picks(chosen, slot, ip)
  }

  // A region that alone picked the address.
  ghost predicate Sole(chosen: map<string, Candidates>, slot: string, ip: string) {
    slot != GENERIC && Picks(chosen, slot, ip) && forall s <- chosen :: Picks(chosen, s, ip) ==> s == slot
  }

  // A region is named exactly when it alone picked the address.
  ghost predicate Shown(chosen: map<string, Candidates>, ip: string, profile: string, region: Option<Region>) {
    if profile == GENERIC then region.None? && forall slot <- chosen :: !Sole(chosen, slot, ip)
    else Sole(chosen, profile, ip) && region == chosen[profile].region
  }

  ghost predicate Attributed(at: map<string, Endpoint>, chosen: map<string, Candidates>) {
    && (forall ip :: ip in at <==> IsPicked(chosen, ip))
    && (forall ip <- at :: Shown(chosen, ip, at[ip].profile, at[ip].region))
  }

  lemma SlotNames(region: Option<Region>)
    ensures SlotOf(region) != DNS && (SlotOf(region) == GENERIC <==> region.None?)
  {
    assert GENERIC[0] == 'G' && DNS[0] == 'D';
    if region.Some? {
      assert SlotOf(region)[0] == 'R';
    }
  }

  lemma ShownIsGood(chosen: map<string, Candidates>, e: Endpoint)
    requires Usable(chosen) && Shown(chosen, e.ip, e.profile, e.region)
    ensures GoodEndpoint(e) && e.profile != DNS
  {
    SlotNames(None);
    if e.profile != GENERIC {
      SlotNames(chosen[e.profile].region);
    }
  }

  function Merge(at: map<string, Endpoint>, c: Candidates): Endpoint
    requires FirstIp(c).Some?
  {
    var ip := FirstIp(c).value;
    if ip in at && at[ip].profile != SlotOf(c.region) then Endpoint(ip, GENERIC, None)
      else Endpoint(ip, SlotOf(c.region), c.region)
  }

  ghost predicate Fresh(chosen: map<string, Candidates>, c: Candidates) {
    Usable(chosen) && FirstIp(c).Some? && SlotOf(c.region) !in chosen
  }

  lemma OtherAddress(chosen: map<string, Candidates>, c: Candidates, ip: string, profile: string,
                     region: Option<Region>)
    requires Fresh(chosen, c) && FirstIp(c) != Some(ip)
    ensures IsPicked(chosen[SlotOf(c.region) := c], ip) == IsPicked(chosen, ip)
    ensures Shown(chosen, ip, profile, region) ==> Shown(chosen[SlotOf(c.region) := c], ip, profile, region)
  {
    var chosen' := chosen[SlotOf(c.region) := c];
    assert forall s :: Picks(chosen', s, ip) <==> Picks(chosen, s, ip);
    assert forall s :: Sole(chosen', s, ip) <==> Sole(chosen, s, ip);
  }

  // The address of the new slot: another slot that picked it shares it.
  lemma SameAddress(at: map<string, Endpoint>, chosen: map<string, Candidates>, c: Candidates)
    requires Fresh(chosen, c) && Attributed(at, chosen)
    ensures Shown(chosen[SlotOf(c.region) := c], FirstIp(c).value, Merge(at, c).profile, Merge(at, c).region)
  {
    var slot, ip := SlotOf(c.region), FirstIp(c).value;
    var chosen' := chosen[slot := c];
    assert Picks(chosen', slot, ip);
    assert forall s <- chosen :: Picks(chosen, s, ip) ==> Picks(chosen', s, ip);
    SlotNames(c.region);
    if ip in at {
      var s :| s in chosen && Picks(chosen, s, ip);
      assert s != slot && Picks(chosen', s, ip);
      assert forall t <- chosen' :: !Sole(chosen', t, ip);
    } else {
      assert forall s <- chosen :: !Picks(chosen, s, ip);
    }
  }

  lemma MergeAttributed(at: map<string, Endpoint>, chosen: map<string, Candidates>, c: Candidates)
    requires Fresh(chosen, c) && Attributed(at, chosen)
    ensures Attributed(at[FirstIp(c).value := Merge(at, c)], chosen[SlotOf(c.region) := c])
  {
    var ip := FirstIp(c).value;
    var at', chosen' := at[ip := Merge(at, c)], chosen[SlotOf(c.region) := c];
    assert Picks(chosen', SlotOf(c.region), ip);
    SameAddress(at, chosen, c);
    forall x
      ensures x in at' <==> IsPicked(chosen', x)
    {
      if x != ip {
        OtherAddress(chosen, c, x, GENERIC, None);
      }
    }
    forall x <- at'
      ensures Shown(chosen', x, at'[x].profile, at'[x].region)
    {
      if x != ip {
        OtherAddress(chosen, c, x, at[x].profile, at[x].region);
      }
    }
  }

  // ── The method ───────────────────────────────────────────────────────────

  predicate NeedsGeneric(profiles: seq<Candidates>, regions: seq<Region>) {
    || !(exists c <- profiles :: c.region.Some? && c.ips != [])
    || exists r <- regions :: !(exists c <- profiles :: c.region.Some? && c.ips != [] && c.region.value.key == r.key)
  }

  method CollectEndpoints(profiles: seq<Candidates>, needsGeneric: bool) returns (endpoints: Endpoints)
    requires forall c <- profiles :: c.region.Some? ==> GoodKey(c.region.value.key)
    ensures endpoints.Valid() && Usable(Chosen(profiles, needsGeneric))
    ensures Attributed(endpoints.at, Chosen(profiles, needsGeneric))
  {
    endpoints := Endpoints([], map[]);
    var selected: set<string> := {};
    ghost var chosen: map<string, Candidates> := map[];
    for i := 0 to |profiles|
      invariant chosen == Chosen(profiles[..i], needsGeneric) && Usable(chosen) && selected == chosen.Keys
      invariant endpoints.Valid() && Attributed(endpoints.at, chosen)
    {
      var c := profiles[i];
      ChosenNext(profiles, needsGeneric, i);
      if FirstIp(c).None? || SlotOf(c.region) in selected || (c.region.None? && !needsGeneric) {
        continue;
      }
      MergeAttributed(endpoints.at, chosen, c);
      endpoints.PutValid(Merge(endpoints.at, c));
      selected := selected + {SlotOf(c.region)};
      endpoints := endpoints.Put(Merge(endpoints.at, c));
      chosen := chosen[SlotOf(c.region) := c];
    }
    assert profiles[..|profiles|] == profiles;
  }

  lemma ChosenNext(profiles: seq<Candidates>, needsGeneric: bool, i: nat)
    requires i < |profiles|
    ensures var c, chosen := profiles[i], Chosen(profiles[..i], needsGeneric);
      Chosen(profiles[..i + 1], needsGeneric) ==
      if Takes(c, needsGeneric) && SlotOf(c.region) !in chosen then chosen[SlotOf(c.region) := c] else chosen
  {
    assert profiles[..i + 1][..i] == profiles[..i];
  }

  // ── Numbering ────────────────────────────────────────────────────────────

  ghost predicate GoodList(es: seq<Endpoint>) {
    && (forall e <- es :: GoodEndpoint(e))
    && (forall i, j :: 0 <= i < j < |es| && es[i].profile == es[j].profile ==> es[i].profile == GENERIC)
  }

  function CountProfile(es: seq<Endpoint>, profile: string): nat {
    if es == [] then 0
    else CountProfile(es[..|es| - 1], profile) + if es[|es| - 1].profile == profile then 1 else 0
  }

  lemma {:induction false} CountGrows(es: seq<Endpoint>, i: nat, j: nat, profile: string)
    requires i <= j <= |es|
    ensures CountProfile(es[..i], profile) <= CountProfile(es[..j], profile)
  {
    if i < j {
      assert es[..j][..j - 1] == es[..j - 1];
      CountGrows(es, i, j - 1, profile);
    }
  }

  function Position(es: seq<Endpoint>, i: nat): nat
    requires i < |es|
  {
    CountProfile(es[..i + 1], es[i].profile)
  }

  lemma CountedApart(base: string, es: seq<Endpoint>, i: nat, j: nat)
    requires GoodList(es) && i < j < |es|
    ensures NameOf(base, es[i], Position(es, i)) != NameOf(base, es[j], Position(es, j))
  {
    CountGrows(es, i + 1, j, es[j].profile);
    assert es[..j + 1][..j] == es[..j];
    assert es[i] in es && es[j] in es;
    NamesDiffer(base, es[i], Position(es, i), es[j], Position(es, j));
  }

  function Named(base: string, es: seq<Endpoint>, i: nat): Variant
    requires i < |es|
  {
    Variant(es[i].ip, NameOf(base, es[i], Position(es, i)), es[i].profile, es[i].region)
  }

  // positions.get(profile) ?? 0
  function PositionIn(positions: map<string, nat>, profile: string): nat {
    if profile in positions then positions[profile] else 0
  }

  lemma CountNext(es: seq<Endpoint>, i: nat)
    requires i < |es|
    ensures forall p :: CountProfile(es[..i + 1], p) == CountProfile(es[..i], p) + if es[i].profile == p then 1 else 0
  {
    assert es[..i + 1][..i] == es[..i];
  }

  // The next position of every profile.
  ghost predicate Counts(positions: map<string, nat>, es: seq<Endpoint>) {
    forall p :: PositionIn(positions, p) == CountProfile(es, p)
  }

  lemma CountsNext(positions: map<string, nat>, es: seq<Endpoint>, i: nat, position: nat)
    requires i < |es| && Counts(positions, es[..i]) && position == PositionIn(positions, es[i].profile) + 1
    ensures Counts(positions[es[i].profile := position], es[..i + 1]) && position == Position(es, i)
  {
    CountNext(es, i);
    var next := positions[es[i].profile := position];
    forall p
      ensures PositionIn(next, p) == CountProfile(es[..i + 1], p)
    {
      assert PositionIn(positions, p) == CountProfile(es[..i], p);
    }
  }

  method NameEndpoints(base: string, endpoints: seq<Endpoint>) returns (r: seq<Variant>)
    ensures |r| == |endpoints| && forall i :: 0 <= i < |r| ==> r[i] == Named(base, endpoints, i)
  {
    var positions: map<string, nat> := map[];
    r := [];
    for i := 0 to |endpoints|
      invariant |r| == i && forall k :: 0 <= k < i ==> r[k] == Named(base, endpoints, k)
      invariant Counts(positions, endpoints[..i])
    {
      var e := endpoints[i];
      var position := PositionIn(positions, e.profile) + 1;
      CountsNext(positions, endpoints, i, position);
      positions := positions[e.profile := position];
      r := r + [Variant(e.ip, NameOf(base, e, position), e.profile, e.region)];
    }
  }

  // ── The whole list ───────────────────────────────────────────────────────

  function Listed(m: Endpoints): (es: seq<Endpoint>)
    requires m.Valid()
  {
    seq(|m.order|, i requires 0 <= i < |m.order| => assert m.order[i] in m.order; m.at[m.order[i]])
  }

  // What a node exports: the chosen addresses, then the default one.
  ghost predicate Exported(chosen: map<string, Candidates>, defaultIp: Option<string>, r: seq<Variant>) {
    && (forall ip :: IsPicked(chosen, ip) || defaultIp == Some(ip) ==> exists v <- r :: v.host == ip)
    && (forall i :: 0 <= i < |r| ==> ShownAs(chosen, defaultIp, r[i].host, r[i].profile, r[i].region))
    && (defaultIp.Some? ==> r != [] && r[|r| - 1].host == defaultIp.value)
  }

  // Only the default address is marked DNS; any other was picked and names the
  // region that alone picked it.
  ghost predicate ShownAs(chosen: map<string, Candidates>, defaultIp: Option<string>, ip: string, profile: string,
                          region: Option<Region>) {
    if defaultIp == Some(ip) then profile == DNS && region.None?
    else profile != DNS && IsPicked(chosen, ip) && Shown(chosen, ip, profile, region)
  }

  ghost predicate Apart(vs: seq<Variant>) {
    forall i, j :: 0 <= i < j < |vs| ==> vs[i].name != vs[j].name && vs[i].host != vs[j].host
  }

  // An empty default counts as none.
  function Default(defaultIp: Option<string>): Option<string> {
    if defaultIp == Some("") then None else defaultIp
  }

  function WithDefault(m: Endpoints, defaultIp: Option<string>): Endpoints {
    if defaultIp.None? then m else m.Delete(defaultIp.value).Put(Endpoint(defaultIp.value, DNS, None))
  }

  lemma DefaultShown(m: Endpoints, chosen: map<string, Candidates>, defaultIp: Option<string>)
    requires m.Valid() && Usable(chosen) && Attributed(m.at, chosen)
    ensures WithDefault(m, defaultIp).Valid()
    ensures forall ip :: ip in WithDefault(m, defaultIp).at <==> IsPicked(chosen, ip) || defaultIp == Some(ip)
    ensures forall e <- WithDefault(m, defaultIp).at.Values :: ShownAs(chosen, defaultIp, e.ip, e.profile, e.region)
    ensures defaultIp.Some? ==>
      WithDefault(m, defaultIp).order == Identified.Without(m.order, Itself(), defaultIp.value) + [defaultIp.value]
  {
    var all := WithDefault(m, defaultIp);
    if defaultIp.Some? {
      m.DeleteValid(defaultIp.value);
      m.Delete(defaultIp.value).PutValid(Endpoint(defaultIp.value, DNS, None));
    }
    forall ip <- all.at
      ensures ShownAs(chosen, defaultIp, all.at[ip].ip, all.at[ip].profile, all.at[ip].region)
    {
      if defaultIp != Some(ip) {
        ShownIsGood(chosen, m.at[ip]);
      }
    }
  }

  // Regions are named once, because a region picked one address.
  lemma ShownListIsGood(es: seq<Endpoint>, chosen: map<string, Candidates>, defaultIp: Option<string>)
    requires Usable(chosen) && forall i, j :: 0 <= i < j < |es| ==> es[i].ip != es[j].ip
    requires forall e <- es :: ShownAs(chosen, defaultIp, e.ip, e.profile, e.region)
    ensures GoodList(es)
  {
    forall e <- es
      ensures GoodEndpoint(e)
    {
      if defaultIp != Some(e.ip) {
        ShownIsGood(chosen, e);
      }
    }
    forall i, j | 0 <= i < j < |es| && es[i].profile == es[j].profile
      ensures es[i].profile == GENERIC
    {
      assert es[i] in es && es[j] in es;
    }
  }

  lemma ListedIsGood(m: Endpoints, chosen: map<string, Candidates>, defaultIp: Option<string>)
    requires m.Valid() && Usable(chosen)
    requires forall e <- m.at.Values :: ShownAs(chosen, defaultIp, e.ip, e.profile, e.region)
    ensures GoodList(Listed(m))
    ensures forall e <- Listed(m) :: ShownAs(chosen, defaultIp, e.ip, e.profile, e.region)
  {
    var es := Listed(m);
    forall i | 0 <= i < |es|
      ensures ShownAs(chosen, defaultIp, es[i].ip, es[i].profile, es[i].region)
    {
      assert m.order[i] in m.order;
      assert es[i] in m.at.Values;
    }
    ShownListIsGood(es, chosen, defaultIp);
  }

  lemma NamedApart(base: string, es: seq<Endpoint>, r: seq<Variant>)
    requires GoodList(es) && |r| == |es| && forall i :: 0 <= i < |r| ==> r[i] == Named(base, es, i)
    requires forall i, j :: 0 <= i < j < |es| ==> es[i].ip != es[j].ip
    ensures Apart(r)
  {
    forall i, j | 0 <= i < j < |r|
      ensures r[i].name != r[j].name && r[i].host != r[j].host
    {
      CountedApart(base, es, i, j);
    }
  }

  lemma HostListed(m: Endpoints, base: string, r: seq<Variant>, ip: string)
    requires m.Valid() && ip in m.at
    requires |r| == |Listed(m)| && forall i :: 0 <= i < |r| ==> r[i] == Named(base, Listed(m), i)
    ensures exists v <- r :: v.host == ip
  {
    var i :| 0 <= i < |m.order| && m.order[i] == ip;
    assert r[i] in r && r[i].host == ip;
  }

  // Distinct hosts and names; every picked address and the default one, last.
  method AutomaticVariants(nodeName: string, nodeId: string, profiles: seq<Candidates>, defaultIp: Option<string>,
                           regions: seq<Region>)
    returns (r: seq<Variant>)
    requires forall c <- profiles :: c.region.Some? ==> GoodKey(c.region.value.key)
    ensures Apart(r)
    ensures Exported(Chosen(profiles, NeedsGeneric(profiles, regions)), Default(defaultIp), r)
  {
    var m := CollectEndpoints(profiles, NeedsGeneric(profiles, regions));
    ghost var chosen := Chosen(profiles, NeedsGeneric(profiles, regions));
    var all := WithDefault(m, Default(defaultIp));
    DefaultShown(m, chosen, Default(defaultIp));
    ListedIsGood(all, chosen, Default(defaultIp));
    var base := nodeName + " [CF " + nodeId + "]";
    r := NameEndpoints(base, Listed(all));
    NamedApart(base, Listed(all), r);
    NamedExported(all, chosen, Default(defaultIp), base, r);
  }

  lemma NamedExported(all: Endpoints, chosen: map<string, Candidates>, defaultIp: Option<string>, base: string,
                      r: seq<Variant>)
    requires all.Valid() && (forall ip :: ip in all.at <==> IsPicked(chosen, ip) || defaultIp == Some(ip))
    requires forall e <- Listed(all) :: ShownAs(chosen, defaultIp, e.ip, e.profile, e.region)
    requires |r| == |Listed(all)| && forall i :: 0 <= i < |r| ==> r[i] == Named(base, Listed(all), i)
    requires defaultIp.Some? ==> all.order != [] && all.order[|all.order| - 1] == defaultIp.value
    ensures Exported(chosen, defaultIp, r)
  {
    forall ip | ip in all.at
      ensures exists v <- r :: v.host == ip
    {
      HostListed(all, base, r, ip);
    }
    NamedShown(Listed(all), chosen, defaultIp, base, r);
  }

  lemma NamedShown(es: seq<Endpoint>, chosen: map<string, Candidates>, defaultIp: Option<string>, base: string,
                   r: seq<Variant>)
    requires forall e <- es :: ShownAs(chosen, defaultIp, e.ip, e.profile, e.region)
    requires |r| == |es| && forall i :: 0 <= i < |r| ==> r[i] == Named(base, es, i)
    ensures forall i :: 0 <= i < |r| ==> ShownAs(chosen, defaultIp, r[i].host, r[i].profile, r[i].region)
  {
    forall i | 0 <= i < |r|
      ensures ShownAs(chosen, defaultIp, r[i].host, r[i].profile, r[i].region)
    {
      assert es[i] in es && r[i] == Named(base, es, i);
    }
  }
}
