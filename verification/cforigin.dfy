/**
 * The Cloudflare rules and the DNS record of one mapped origin: cf-origin-api.ts
 * and the stored intent around it in cf-origin.service.ts.
 */
module CfOrigin {
  import opened Common
  import opened Identified

  datatype Phase = ORIGIN | TLS

  // The expression names one host, in the two spellings that are recognised, or is free text.
  datatype Expression = HostIs(host: string, bracketed: bool) | Free(text: string)
  datatype Params = Port(port: int) | Ssl(value: string) | Other(text: string, ssl: bool)
  datatype Content = Content(expression: Expression, action: string, enabled: bool, params: Params)
  datatype Rule = Rule(id: string, ref: Option<string>, content: Content)
  datatype Ruleset = Ruleset(id: string, rules: seq<Rule>)
  datatype Record = Record(id: string, name: string, content: string, proxied: bool, comment: Option<string>)

  datatype Zone = Zone(origin: Option<Ruleset>, tls: Option<Ruleset>, records: seq<Record>)

  // What the panel remembers of a phase.
  datatype Ids = Ids(ruleset: Option<string>, rule: Option<string>)

  datatype Route = Route(ref: string, domain: string, port: int, origin: Ids, tls: Ids)

  datatype Failure = NoAnswer | Changed | Overlap | Duplicate | Drift | Removed | Unconfirmed

  const NOTHING := Ids(None, None)

  function Across(p: Phase): Phase {
    if p == ORIGIN then TLS else ORIGIN
  }

  function RefOf(r: Route, p: Phase): string {
    if p == ORIGIN then r.ref else r.ref + "_tls"
  }

  function IdsOf(r: Route, p: Phase): Ids {
    if p == ORIGIN then r.origin else r.tls
  }

  function WithIds(r: Route, p: Phase, ids: Ids): Route {
    if p == ORIGIN then r.(origin := ids) else r.(tls := ids)
  }

  // originRuleSpec and originTlsRuleSpec
  function Wanted(r: Route, p: Phase): Content {
    Content(HostIs(r.domain, true), if p == ORIGIN then "route"
       else "set_config", true, if p == ORIGIN then Port(r.port) else Ssl("strict"))
  }

  function SetOf(z: Zone, p: Phase): Option<Ruleset> {
    if p == ORIGIN then z.origin else z.tls
  }

  function WithSet(z: Zone, p: Phase, s: Ruleset): Zone {
    if p == ORIGIN then z.(origin := Some(s)) else z.(tls := Some(s))
  }

  function RulesOf(s: Option<Ruleset>): seq<Rule> {
    if s.Some? then s.value.rules else []
  }

  // The rules with a reference, or those without it.
  function Select(rules: seq<Rule>, ref: string, own: bool): seq<Rule> {
    Keep(rules, Carries(ref, own))
  }

  function Carries(ref: string, own: bool): Rule -> bool {
    (x: Rule) => (x.ref == Some(ref)) == own
  }

  function Own(z: Zone, r: Route, p: Phase): seq<Rule> {
    Select(RulesOf(SetOf(z, p)), RefOf(r, p), true)
  }

  function Theirs(z: Zone, r: Route, p: Phase): seq<Rule> {
    Select(RulesOf(SetOf(z, p)), RefOf(r, p), false)
  }

  function RuleId(): Rule -> string {
    (x: Rule) => x.id
  }

  function RecordId(): Record -> string {
    (x: Record) => x.id
  }

  predicate DistinctIds(rules: seq<Rule>) {
    Distinct(rules, RuleId())
  }

  predicate DistinctRecords(records: seq<Record>) {
    Distinct(records, RecordId())
  }

  // Deleting one owned rule keeps the others, in order.
  lemma DeleteOwned(rules: seq<Rule>, x: Rule, ref: string)
    requires DistinctIds(rules) && x in rules && x.ref == Some(ref)
    ensures Select(Without(rules, RuleId(), x.id), ref, false) == Select(rules, ref, false)
    ensures |Select(Without(rules, RuleId(), x.id), ref, true)| == |Select(rules, ref, true)| - 1
  {
    DeleteOne(rules, x, Carries(ref, false), RuleId());
    DeleteOne(rules, x, Carries(ref, true), RuleId());
  }

  // ── Checks ───────────────────────────────────────────────────────────────

  // The rules that can route the hostname elsewhere.
  predicate Concerns(p: Phase, x: Rule) {
    p == ORIGIN || x.content.params.Ssl? || (x.content.params.Other? && x.content.params.ssl)
  }

  predicate Overlaps(r: Route, p: Phase, x: Rule) {
    && x.content.enabled && x.ref != Some(RefOf(r, p)) && Concerns(p, x)
    && (x.content.expression.HostIs? ==> x.content.expression.host == r.domain)
  }

  predicate Isolated(r: Route, p: Phase, rules: seq<Rule>) {
    forall x <- rules :: !Overlaps(r, p, x)
  }

  predicate Verified(r: Route, p: Phase, x: Rule) {
    x.content == Wanted(r, p) && (IdsOf(r, p).rule.Some? ==> IdsOf(r, p).rule == Some(x.id))
  }

  predicate SameSet(r: Route, p: Phase, s: Option<Ruleset>) {
    IdsOf(r, p).ruleset.Some? ==> s.Some? && IdsOf(r, p).ruleset == Some(s.value.id)
  }

  // The phase is as the panel left it: its ruleset, at most one owned rule,
  // unchanged, and that one there if it was ever confirmed.
  ghost predicate Consistent(z: Zone, r: Route, p: Phase) {
    Sound(z, r, p) && (Own(z, r, p) == [] ==> IdsOf(r, p).rule.None?)
  }

  ghost predicate Healthy(z: Zone, r: Route, p: Phase) {
    Consistent(z, r, p) && Isolated(r, p, RulesOf(SetOf(z, p)))
  }

  // Exactly one owned rule, as wanted, with these ids.
  ghost predicate Exactly(z: Zone, r: Route, p: Phase, ids: Ids) {
    && SetOf(z, p).Some? && ids.ruleset == Some(SetOf(z, p).value.id)
    && |Own(z, r, p)| == 1 && Own(z, r, p)[0].content == Wanted(r, p) && ids.rule == Some(Own(z, r, p)[0].id)
  }

  // What a removal accepts.
  ghost predicate Removable(z: Zone, r: Route, p: Phase) {
    SetOf(z, p).None? || Sound(z, r, p)
  }

  ghost predicate GoodZone(z: Zone) {
    DistinctIds(RulesOf(z.origin)) && DistinctIds(RulesOf(z.tls))
  }

  // The owned rule in what was read, after the checks on the way to it.
  function Find(r: Route, p: Phase, s: Option<Ruleset>, alone: bool): Result<Option<Rule>, Failure> {
    var matches := Select(RulesOf(s), RefOf(r, p), true);
    if !SameSet(r, p, s) then Err(Changed)
    else if alone && !Isolated(r, p, RulesOf(s)) then Err(Overlap)
    else if |matches| > 1 then Err(Duplicate)
    else if matches == [] then Ok(None)
    else if !Verified(r, p, matches[0]) then Err(Drift)
    else Ok(Some(matches[0]))
  }

  // At most one owned rule, and that one as wanted.
  ghost predicate Sound(z: Zone, r: Route, p: Phase) {
    SameSet(r, p, SetOf(z, p)) && |Own(z, r, p)| <= 1 && forall x <- Own(z, r, p) :: Verified(r, p, x)
  }

  lemma FindIs(z: Zone, r: Route, p: Phase, alone: bool)
    ensures Find(r, p, SetOf(z, p), alone).Ok? <==> Sound(z, r, p) && (alone ==> Isolated(r, p, RulesOf(SetOf(z, p))))
    ensures Find(r, p, SetOf(z, p), alone).Ok? ==>
      var x := Find(r, p, SetOf(z, p), alone).value; Own(z, r, p) == if x.Some? then [x.value] else []
  {
    var own := Own(z, r, p);
    if |own| == 1 {
      assert own == [own[0]];
      assert own[0] in own;
    }
  }

  // ── Effects of the requests ──────────────────────────────────────────────

  // One more owned rule at the end; only a missing ruleset is created.
  function Posted(z: Zone, r: Route, p: Phase, ruleset: string, rule: string): Zone {
    var s := SetOf(z, p);
    WithSet(z, p, Ruleset(if s.Some? then s.value.id else ruleset, RulesOf(s) + [Added(r, p, rule)]))
  }

  function Deleted(z: Zone, p: Phase, rule: string): Zone
    requires SetOf(z, p).Some?
  {
    WithSet(z, p, SetOf(z, p).value.(rules := Without(RulesOf(SetOf(z, p)), RuleId(), rule)))
  }

  // What is not owned, and the other phase, stays as it is.
  ghost predicate OnlyOwn(before: Zone, after: Zone, r: Route, p: Phase) {
    && after.records == before.records
    && Theirs(after, r, ORIGIN) == Theirs(before, r, ORIGIN) && Theirs(after, r, TLS) == Theirs(before, r, TLS)
    && SetOf(after, Across(p)) == SetOf(before, Across(p))
  }

  function Added(r: Route, p: Phase, rule: string): Rule {
    Rule(rule, Some(RefOf(r, p)), Wanted(r, p))
  }

  lemma PostedIs(z: Zone, r: Route, p: Phase, ruleset: string, rule: string)
    requires GoodZone(z) && forall x <- RulesOf(SetOf(z, p)) :: x.id != rule
    ensures GoodZone(Posted(z, r, p, ruleset, rule)) && OnlyOwn(z, Posted(z, r, p, ruleset, rule), r, p)
    ensures Own(Posted(z, r, p, ruleset, rule), r, p) == Own(z, r, p) + [Added(r, p, rule)]
  {
    var rules := RulesOf(SetOf(z, p));
    assert RulesOf(SetOf(Posted(z, r, p, ruleset, rule), p)) == rules + [Added(r, p, rule)];
    KeepAppend(rules, Added(r, p, rule), Carries(RefOf(r, p), true));
    KeepAppend(rules, Added(r, p, rule), Carries(RefOf(r, p), false));
    AppendDistinct(rules, Added(r, p, rule), RuleId());
  }

  lemma PostedIsolated(z: Zone, r: Route, p: Phase, ruleset: string, rule: string)
    ensures Isolated(r, p, RulesOf(SetOf(z, p))) ==> Isolated(r, p, RulesOf(SetOf(Posted(z, r, p, ruleset, rule), p)))
  {
    var rules := RulesOf(SetOf(z, p));
    assert RulesOf(SetOf(Posted(z, r, p, ruleset, rule), p)) == rules + [Added(r, p, rule)];
    assert !Overlaps(r, p, Added(r, p, rule));
    assert forall x <- rules + [Added(r, p, rule)] :: x in rules || x == Added(r, p, rule);
  }

  lemma DeletedIs(z: Zone, r: Route, p: Phase, x: Rule)
    requires GoodZone(z) && SetOf(z, p).Some? && x in Own(z, r, p)
    ensures GoodZone(Deleted(z, p, x.id)) && OnlyOwn(z, Deleted(z, p, x.id), r, p)
    ensures |Own(Deleted(z, p, x.id), r, p)| == |Own(z, r, p)| - 1
    ensures SetOf(Deleted(z, p, x.id), p).Some? && SetOf(Deleted(z, p, x.id), p).value.id == SetOf(z, p).value.id
  {
    DeleteOwned(RulesOf(SetOf(z, p)), x, RefOf(r, p));
    KeepDistinct(RulesOf(SetOf(z, p)), NotId(RuleId(), x.id), RuleId());
  }

  lemma HealthyAfterPost(before: Zone, after: Zone, r: Route, p: Phase, rule: string)
    requires Healthy(before, r, p) && Own(before, r, p) == [] && Own(after, r, p) == [Added(r, p, rule)]
    requires SetOf(after, p).Some? && (SetOf(before, p).Some? ==> SetOf(after, p).value.id == SetOf(before, p).value.id)
    requires Isolated(r, p, RulesOf(SetOf(after, p)))
    ensures Healthy(after, r, p)
  {
  }

  // The owned rules are the same, in the same ruleset.
  predicate OwnKept(before: Zone, after: Zone, r: Route, p: Phase) {
    && Own(after, r, p) == Own(before, r, p)
    && (SetOf(before, p).Some? ==> SetOf(after, p).Some? && SetOf(after, p).value.id == SetOf(before, p).value.id)
  }

  // ── DNS records ──────────────────────────────────────────────────────────

  function Named(domain: string): Record -> bool {
    (x: Record) => x.name == domain
  }

  // Of this origin: its name and its reference.
  function Mine(domain: string, ref: string): Record -> bool {
    (x: Record) => x.name == domain && x.comment == Some(ref)
  }

  function NotMine(domain: string, ref: string): Record -> bool {
    (x: Record) => !(x.name == domain && x.comment == Some(ref))
  }

  function OwnRecords(z: Zone, r: Route): seq<Record> {
    Keep(z.records, Mine(r.domain, r.ref))
  }

  function TheirRecords(z: Zone, r: Route): seq<Record> {
    Keep(z.records, NotMine(r.domain, r.ref))
  }

  function WithRecord(z: Zone, x: Record): Zone {
    z.(records := z.records + [x])
  }

  lemma WithRecordIs(z: Zone, r: Route, x: Record)
    requires DistinctRecords(z.records) && Mine(r.domain, r.ref)(x) && forall y <- z.records :: y.id != x.id
    ensures DistinctRecords(WithRecord(z, x).records)
    ensures OwnRecords(WithRecord(z, x), r) == OwnRecords(z, r) + [x]
    ensures TheirRecords(WithRecord(z, x), r) == TheirRecords(z, r)
  {
    KeepAppend(z.records, x, Mine(r.domain, r.ref));
    KeepAppend(z.records, x, NotMine(r.domain, r.ref));
    AppendDistinct(z.records, x, RecordId());
  }

  function WithoutRecord(z: Zone, x: Record): Zone {
    z.(records := Without(z.records, RecordId(), x.id))
  }

  lemma WithoutRecordIs(z: Zone, r: Route, x: Record)
    requires DistinctRecords(z.records) && x in z.records && Mine(r.domain, r.ref)(x)
    ensures DistinctRecords(WithoutRecord(z, x).records)
    ensures |OwnRecords(WithoutRecord(z, x), r)| == |OwnRecords(z, r)| - 1
    ensures TheirRecords(WithoutRecord(z, x), r) == TheirRecords(z, r)
  {
    DeleteOne(z.records, x, Mine(r.domain, r.ref), RecordId());
    DeleteOne(z.records, x, NotMine(r.domain, r.ref), RecordId());
    KeepDistinct(z.records, NotId(RecordId(), x.id), RecordId());
  }

  // Own records are among those of the name.
  lemma {:induction false} OwnAmongNamed(records: seq<Record>, r: Route)
    ensures var named, own := Keep(records, Named(r.domain)), Keep(records, Mine(r.domain, r.ref));
      && (named == [] ==> own == [])
      && (|named| == 1 ==> own == if named[0].comment == Some(r.ref) then named else [])
      && |own| <= |named|
  {
    if records != [] {
      OwnAmongNamed(records[1..], r);
    }
  }

  lemma NoneNamed(z: Zone, r: Route)
    requires Keep(z.records, Named(r.domain)) == []
    ensures OwnRecords(z, r) == []
  {
    OwnAmongNamed(z.records, r);
  }

  lemma OneNamed(z: Zone, r: Route, x: Record)
    requires Keep(z.records, Named(r.domain)) == [x]
    ensures x.name == r.domain && OwnRecords(z, r) == if x.comment == Some(r.ref) then [x] else []
  {
    OwnAmongNamed(z.records, r);
    assert x in Keep(z.records, Named(r.domain));
  }

  predicate Aims(r: Route, address: string, x: Record) {
    x.name == r.domain && x.content == address && x.proxied && x.comment == Some(r.ref)
  }

  // The hostname is free or already leads where it should.
  predicate DnsReady(z: Zone, r: Route, address: string) {
    var named := Keep(z.records, Named(r.domain));
    |named| <= 1 && forall x <- named :: Aims(r, address, x)
  }

  predicate DnsRemovable(z: Zone, r: Route) {
    var named := Keep(z.records, Named(r.domain));
    |named| <= 1 && forall x <- named :: x.comment == Some(r.ref)
  }

  // The owned rules of a phase are as they were, or the first one was added.
  ghost predicate OwnGrew(before: Zone, after: Zone, r: Route, p: Phase) {
    && (SetOf(before, p).Some? ==> SetOf(after, p).Some? && SetOf(after, p).value.id == SetOf(before, p).value.id)
    && (Own(after, r, p) == Own(before, r, p)
        || (Own(before, r, p) == [] && SetOf(after, p).Some? && |Own(after, r, p)| == 1
           && Own(after, r, p)[0].content == Wanted(r, p)))
  }

  lemma FirstPosted(z: Zone, r: Route, p: Phase, ruleset: string, rule: string)
    requires GoodZone(z) && Own(z, r, p) == [] && forall x <- RulesOf(SetOf(z, p)) :: x.id != rule
    ensures var t := Posted(z, r, p, ruleset, rule);
      && OwnGrew(z, t, r, p) && OwnKept(z, t, r, Across(p)) && t.records == z.records
      && SetOf(t, Across(p)) == SetOf(z, Across(p)) && |Own(t, r, p)| == 1 && (Healthy(z, r, p) ==> Healthy(t, r, p))
  {
    PostedIs(z, r, p, ruleset, rule);
    PostedIsolated(z, r, p, ruleset, rule);
    if Healthy(z, r, p) {
      HealthyAfterPost(z, Posted(z, r, p, ruleset, rule), r, p, rule);
    }
  }

  // The panel's own record is as it was, or it is the first one.
  ghost predicate RecordsGrew(before: Zone, after: Zone, r: Route, address: string) {
    || OwnRecords(after, r) == OwnRecords(before, r)
    || (OwnRecords(before, r) == [] && |OwnRecords(after, r)| == 1 && Aims(r, address, OwnRecords(after, r)[0]))
  }

  ghost predicate Grew(before: Zone, after: Zone, r: Route, address: string) {
    OwnGrew(before, after, r, ORIGIN) && OwnGrew(before, after, r, TLS) && RecordsGrew(before, after, r, address)
  }

  // The two routes differ in nothing but what is remembered.
  predicate SameOrigin(x: Route, r: Route) {
    x == r.(origin := x.origin, tls := x.tls)
  }

  // What is remembered agrees with the zone.
  ghost predicate Known(z: Zone, x: Route) {
    Consistent(z, x, ORIGIN) && Consistent(z, x, TLS) && |OwnRecords(z, x)| <= 1
  }

  ghost predicate Nothing(z: Zone, x: Route) {
    Own(z, x, ORIGIN) == [] && Own(z, x, TLS) == [] && OwnRecords(z, x) == []
  }

  lemma SameOwn(z: Zone, x: Route, r: Route)
    requires SameOrigin(x, r)
    ensures forall p :: Own(z, x, p) == Own(z, r, p) && Wanted(x, p) == Wanted(r, p)
    ensures OwnRecords(z, x) == OwnRecords(z, r)
  {
  }

  lemma StaysConsistent(before: Zone, after: Zone, x: Route, r: Route, p: Phase)
    requires SameOrigin(x, r) && Consistent(before, x, p) && OwnGrew(before, after, r, p)
    ensures Consistent(after, x, p)
  {
    SameOwn(before, x, r);
    SameOwn(after, x, r);
    assert Own(after, r, p) == Own(before, r, p) || Own(before, r, p) == [];
  }

  lemma StaysKnown(before: Zone, after: Zone, x: Route, r: Route, address: string)
    requires SameOrigin(x, r) && Known(before, x) && Grew(before, after, r, address)
    ensures Known(after, x)
  {
    SameOwn(before, x, r);
    SameOwn(after, x, r);
    StaysConsistent(before, after, x, r, ORIGIN);
    StaysConsistent(before, after, x, r, TLS);
  }

  // Ids that were just verified can be remembered.
  lemma KnownWithIds(z: Zone, r: Route, p: Phase, ids: Ids)
    requires Known(z, r) && Exactly(z, r, p, ids)
    ensures Known(z, WithIds(r, p, ids)) && SameOrigin(WithIds(r, p, ids), r)
  {
    var x := WithIds(r, p, ids);
    SameOwn(z, x, r);
    assert Own(z, x, p) == [Own(z, x, p)[0]];
  }

  // Everything that does not carry the reference, in order.
  datatype Foreign = Foreign(origin: seq<Rule>, tls: seq<Rule>, records: seq<Record>)

  function ForeignOf(z: Zone, r: Route): Foreign {
    Foreign(Theirs(z, r, ORIGIN), Theirs(z, r, TLS), TheirRecords(z, r))
  }

  // The zone's ids are distinct, and what is not owned is what others left there.
  ghost predicate Accounted(z: Zone, r: Route, left: Foreign) {
    GoodZone(z) && DistinctRecords(z.records) && ForeignOf(z, r) == left
  }

  lemma StaysAccounted(before: Zone, after: Zone, r: Route, p: Phase, left: Foreign)
    requires Accounted(before, r, left) && OnlyOwn(before, after, r, p) && GoodZone(after)
    ensures Accounted(after, r, left)
  {
  }

  // The id is new, and the zone is as it was seen: with that ruleset, or without one.
  predicate Postable(z: Zone, p: Phase, seen: Option<string>, id: string) {
    && (forall x <- RulesOf(SetOf(z, p)) :: x.id != id)
    && if seen.Some? then SetOf(z, p).Some? && SetOf(z, p).value.id == seen.value else SetOf(z, p).None?
  }

  lemma PostedAccounted(z: Zone, r: Route, p: Phase, ruleset: string, rule: string, left: Foreign)
    requires Accounted(z, r, left) && forall x <- RulesOf(SetOf(z, p)) :: x.id != rule
    ensures Accounted(Posted(z, r, p, ruleset, rule), r, left)
  {
    PostedIs(z, r, p, ruleset, rule);
    StaysAccounted(z, Posted(z, r, p, ruleset, rule), r, p, left);
  }

  lemma DeletedAccounted(z: Zone, r: Route, p: Phase, x: Rule, left: Foreign)
    requires Accounted(z, r, left) && SetOf(z, p).Some? && x in Own(z, r, p)
    ensures Accounted(Deleted(z, p, x.id), r, left)
  {
    DeletedIs(z, r, p, x);
    StaysAccounted(z, Deleted(z, p, x.id), r, p, left);
  }

  // ── Requests ─────────────────────────────────────────────────────────────

  // Only Post and Delete change the zone; each request may fail before or after
  // its effect. Meanwhile others may edit whatever does not carry the reference:
  // their edits are given beforehand, edits(n) being what the n-th one leaves.
  class OriginApi {
    const edits: nat -> Foreign
    var z: Zone
    // The edits that were made so far.
    var turn: nat
    // How often a request failed or others came between.
    ghost var disturbed: nat

    // At any time, whatever is not owned is exactly what the others left.
    ghost predicate Valid(r: Route)
      reads this
    {
      Accounted(z, r, edits(turn))
    }

    // Every further edit by others counts as a disturbance.
    twostate predicate Passed()
      reads this
    {
      turn >= old(turn) && disturbed - old(disturbed) >= turn - old(turn)
    }

    // What is not owned is what it was, as long as nobody edited.
    twostate lemma ForeignKept(r: Route)
      requires old(Valid(r)) && Valid(r) && Passed()
      ensures disturbed == old(disturbed) ==> ForeignOf(z, r) == ForeignOf(old(z), r)
    {
    }

    constructor (r: Route, z: Zone, edits: nat -> Foreign)
      requires GoodZone(z) && DistinctRecords(z.records) && edits(0) == ForeignOf(z, r)
      ensures Valid(r) && this.z == z && this.edits == edits && turn == 0 && disturbed == 0
    {
      this.z, this.edits, turn, disturbed := z, edits, 0, 0;
    }

    // Others edit the rules that are not owned, or create a missing ruleset.
    method Others(r: Route)
      requires Valid(r)
      modifies this
      ensures Valid(r) && Passed() && (disturbed == old(disturbed) ==> z == old(z))
      ensures z.records == old(z.records) && OwnKept(old(z), z, r, ORIGIN) && OwnKept(old(z), z, r, TLS)
    {
      var edited: Zone := *;
      if edited.records == z.records && DistinctIds(RulesOf(edited.origin)) && DistinctIds(RulesOf(edited.tls))
         && OwnKept(z, edited, r, ORIGIN) && OwnKept(z, edited, r, TLS) && ForeignOf(edited, r) == edits(turn + 1) {
        z, turn, disturbed := edited, turn + 1, disturbed + 1;
      }
    }

    method GetEntrypoint(p: Phase) returns (s: Result<Option<Ruleset>, Failure>)
      modifies this`disturbed
      ensures Passed() && (s.Err? ==> disturbed > old(disturbed))
      ensures s.Ok? ==> s.value == SetOf(z, p)
    {
      var answered: bool := *;
      if answered {
        return Ok(SetOf(z, p));
      }
      disturbed := disturbed + 1;
      s := Err(NoAnswer);
    }

    // Posts the wanted rule into the ruleset that was seen, or a ruleset with it.
    method Post(r: Route, p: Phase, seen: Option<string>)
      returns (ok: bool, ghost ruleset: string, ghost rule: Option<string>)
      requires Valid(r)
      modifies this`z, this`disturbed
      ensures Valid(r) && Passed() && (ok ==> rule.Some?) && (!ok ==> disturbed > old(disturbed))
      ensures rule.None? ==> z == old(z)
      ensures rule.Some? ==>
        z == Posted(old(z), r, p, ruleset, rule.value) && forall x <- RulesOf(SetOf(old(z), p)) :: x.id != rule.value
    {
      var newRuleset: string := *;
      var id: string := *;
      var delivered: bool := *;
      var answered: bool := *;
      delivered := delivered && Postable(z, p, seen, id);
      ok, ruleset, rule := delivered && answered, newRuleset, if delivered then Some(id) else None;
      if !ok {
        disturbed := disturbed + 1;
      }
      if delivered {
        PostedAccounted(z, r, p, newRuleset, id, edits(turn));
        Put(r, Posted(z, r, p, newRuleset, id));
      }
    }

    // Deletes a rule that was seen as owned; one that is gone counts as deleted.
    method Delete(r: Route, p: Phase, x: Rule) returns (ok: bool, ghost gone: bool)
      requires Valid(r) && SetOf(z, p).Some? && x in Own(z, r, p)
      modifies this`z, this`disturbed
      ensures Valid(r) && Passed() && (ok ==> gone)
      ensures !gone ==> z == old(z)
      ensures gone ==> z == Deleted(old(z), p, x.id)
      ensures !ok ==> disturbed > old(disturbed)
    {
      var delivered: bool := *;
      var answered: bool := *;
      ok, gone := delivered && answered, delivered;
      if !ok {
        disturbed := disturbed + 1;
      }
      if delivered {
        DeletedAccounted(z, r, p, x, edits(turn));
        Put(r, Deleted(z, p, x.id));
      }
    }

    // The zone as a request leaves it.
    method Put(r: Route, next: Zone)
      requires Accounted(next, r, edits(turn))
      modifies this`z
      ensures Valid(r) && z == next
    {
      z := next;
    }

    method Look(r: Route, p: Phase, alone: bool)
      returns (s: Result<Option<Ruleset>, Failure>, found: Result<Option<Rule>, Failure>)
      requires Valid(r)
      modifies this
      ensures Valid(r) && Passed() && z.records == old(z.records)
      ensures disturbed == old(disturbed) ==> z == old(z) && s.Ok?
      ensures OwnKept(old(z), z, r, ORIGIN) && OwnKept(old(z), z, r, TLS)
      ensures s.Ok? ==> s.value == SetOf(z, p)
      ensures s.Ok? ==> (found.Ok? <==> Sound(z, r, p) && (alone ==> Isolated(r, p, RulesOf(SetOf(z, p)))))
      ensures found.Ok? ==> s.Ok? && Own(z, r, p) == if found.value.Some? then [found.value.value] else []
    {
      Others(r);
      s := GetEntrypoint(p);
      if s.Err? {
        return s, Err(s.error);
      }
      FindIs(z, r, p, alone);
      found := Find(r, p, s.value, alone);
    }

    method PostFirst(r: Route, p: Phase, seen: Option<string>) returns (ok: bool)
      requires Valid(r) && Own(z, r, p) == []
      modifies this
      ensures Valid(r) && Passed() && z.records == old(z.records) && (ok || disturbed > old(disturbed))
      ensures OwnGrew(old(z), z, r, p) && OwnKept(old(z), z, r, Across(p))
      ensures disturbed == old(disturbed) && Healthy(old(z), r, p) ==> Healthy(z, r, p) && |Own(z, r, p)| == 1
      ensures disturbed == old(disturbed) ==> SetOf(z, Across(p)) == SetOf(old(z), Across(p))
    {
      Others(r);
      ghost var before := z;
      var sent, ruleset, rule := Post(r, p, seen);
      ok := sent;
      if rule.Some? {
        FirstPosted(before, r, p, ruleset, rule.value);
      }
    }

    // Looks for the owned rule; posts it if it was never confirmed and is not there.
    method EnsureRule(r: Route, p: Phase) returns (e: Option<Failure>)
      requires Valid(r)
      modifies this
      ensures Valid(r) && Passed() && z.records == old(z.records)
      ensures OwnGrew(old(z), z, r, p) && OwnKept(old(z), z, r, Across(p))
      ensures disturbed == old(disturbed) ==> (e.None? <==> Healthy(old(z), r, p))
      ensures disturbed == old(disturbed) && e.None? ==> Healthy(z, r, p) && |Own(z, r, p)| == 1
      ensures disturbed == old(disturbed) ==> SetOf(z, Across(p)) == SetOf(old(z), Across(p))
      ensures disturbed == old(disturbed) ==> ForeignOf(z, r) == ForeignOf(old(z), r)
    {
      e := EnsureOnce(r, p);
      ForeignKept(r);
    }

    method EnsureOnce(r: Route, p: Phase) returns (e: Option<Failure>)
      requires Valid(r)
      modifies this
      ensures Valid(r) && Passed() && z.records == old(z.records)
      ensures OwnGrew(old(z), z, r, p) && OwnKept(old(z), z, r, Across(p))
      ensures disturbed == old(disturbed) ==> (e.None? <==> Healthy(old(z), r, p))
      ensures disturbed == old(disturbed) && e.None? ==> Healthy(z, r, p) && |Own(z, r, p)| == 1
      ensures disturbed == old(disturbed) ==> SetOf(z, Across(p)) == SetOf(old(z), Across(p))
    {
      var s, found := Look(r, p, true);
      if found.Err? {
        return Some(found.error);
      }
      if found.value.Some? {
        return None;
      }
      if IdsOf(r, p).rule.Some? {
        return Some(Removed);
      }
      var ok := PostFirst(r, p, if s.value.Some? then Some(s.value.value.id) else None);
      e := if ok then None else Some(NoAnswer);
    }

    // Exactly one owned rule, unchanged, in the ruleset that is known.
    method VerifyRuleset(r: Route, p: Phase) returns (ids: Result<Ids, Failure>)
      requires Valid(r)
      modifies this
      ensures Valid(r) && Passed() && z.records == old(z.records)
      ensures disturbed == old(disturbed) ==> z == old(z)
      ensures OwnKept(old(z), z, r, ORIGIN) && OwnKept(old(z), z, r, TLS)
      ensures ids.Ok? ==> Exactly(z, r, p, ids.value)
      ensures disturbed == old(disturbed) ==> (ids.Ok? <==> Healthy(z, r, p) && |Own(z, r, p)| == 1)
      ensures disturbed == old(disturbed) ==> ForeignOf(z, r) == ForeignOf(old(z), r)
    {
      var s, found := Look(r, p, true);
      if found.Err? {
        return Err(found.error);
      }
      if s.value.None? {
        return Err(Changed);
      }
      if found.value.None? {
        return Err(Duplicate);
      }
      SoundIsExact(z, r, p, found.value.value);
      ids := Ok(Ids(Some(s.value.value.id), Some(found.value.value.id)));
    }

    lemma SoundIsExact(z: Zone, r: Route, p: Phase, x: Rule)
      requires Sound(z, r, p) && Own(z, r, p) == [x] && SetOf(z, p).Some?
      ensures Exactly(z, r, p, Ids(Some(SetOf(z, p).value.id), Some(x.id)))
    {
      assert x in Own(z, r, p);
    }

    // ensureTls, and ensure with its verify: post if needed, then look again. The
    // origin rule counts only beside the TLS rule that is remembered.
    method Ensure(r: Route, p: Phase) returns (ids: Result<Ids, Failure>)
      requires Valid(r)
      modifies this
      ensures Valid(r) && Passed() && z.records == old(z.records)
      ensures OwnGrew(old(z), z, r, p) && OwnKept(old(z), z, r, Across(p))
      ensures ids.Ok? ==> Exactly(z, r, p, ids.value)
      ensures disturbed == old(disturbed) ==> SetOf(z, Across(p)) == SetOf(old(z), Across(p))
      ensures disturbed == old(disturbed) ==>
        (ids.Ok? <==>
           Healthy(old(z), r, p) && (p == ORIGIN && r.tls != NOTHING ==> Healthy(z, r, TLS) && |Own(z, r, TLS)| == 1))
      ensures disturbed == old(disturbed) && ids.Ok? ==> Healthy(z, r, p)
    {
      var e := EnsureRule(r, p);
      if e.Some? {
        return Err(e.value);
      }
      if p == ORIGIN && r.tls != NOTHING {
        var tls := VerifyRuleset(r, TLS);
        if tls.Err? {
          return Err(tls.error);
        }
      }
      ids := VerifyRuleset(r, p);
    }

    // Removes the owned rule of a phase and looks again.
    method RemoveRule(r: Route, p: Phase) returns (e: Option<Failure>)
      requires Valid(r)
      modifies this
      ensures Valid(r) && Passed() && z.records == old(z.records)
      ensures OwnShrank(old(z), z, r, p) && OwnKept(old(z), z, r, Across(p))
      ensures e.None? ==> Own(z, r, p) == []
      ensures disturbed == old(disturbed) ==> (e.None? <==> Removable(old(z), r, p))
      ensures disturbed == old(disturbed) ==> SetOf(z, Across(p)) == SetOf(old(z), Across(p))
      ensures disturbed == old(disturbed) ==> ForeignOf(z, r) == ForeignOf(old(z), r)
    {
      e := RemoveOwned(r, p);
      ForeignKept(r);
    }

    method RemoveOwned(r: Route, p: Phase) returns (e: Option<Failure>)
      requires Valid(r)
      modifies this
      ensures Valid(r) && Passed() && z.records == old(z.records)
      ensures OwnShrank(old(z), z, r, p) && OwnKept(old(z), z, r, Across(p))
      ensures e.None? ==> Own(z, r, p) == []
      ensures disturbed == old(disturbed) ==> (e.None? <==> Removable(old(z), r, p))
      ensures disturbed == old(disturbed) ==> SetOf(z, Across(p)) == SetOf(old(z), Across(p))
    {
      var s, found := Look(r, p, false);
      if s == Ok(None) {
        return None;
      }
      if found.Err? {
        return Some(found.error);
      }
      if found.value.None? {
        return None;
      }
      e := DeleteFound(r, p, found.value.value);
    }

    // The origin rule first, then the TLS rule.
    method RemoveRules(r: Route) returns (e: Option<Failure>)
      requires Valid(r)
      modifies this
      ensures Valid(r) && Passed() && z.records == old(z.records)
      ensures OwnShrank(old(z), z, r, ORIGIN) && OwnShrank(old(z), z, r, TLS)
      ensures e.None? ==> Own(z, r, ORIGIN) == [] && Own(z, r, TLS) == []
      ensures disturbed == old(disturbed) ==> (e.None? <==> Removable(old(z), r, ORIGIN) && Removable(old(z), r, TLS))
    {
      e := RemoveRule(r, ORIGIN);
      if e.None? {
        e := RemoveRule(r, TLS);
      }
    }

    method DeleteFound(r: Route, p: Phase, x: Rule) returns (e: Option<Failure>)
      requires Valid(r) && Own(z, r, p) == [x]
      modifies this
      ensures Valid(r) && Passed() && z.records == old(z.records)
      ensures Own(z, r, p) == [] || Own(z, r, p) == [x]
      ensures SetOf(old(z), p).Some? && SetOf(z, p).Some? && SetOf(z, p).value.id == SetOf(old(z), p).value.id
      ensures OwnKept(old(z), z, r, Across(p))
      ensures e.None? ==> Own(z, r, p) == []
      ensures disturbed == old(disturbed) ==> e.None? && SetOf(z, Across(p)) == SetOf(old(z), Across(p))
    {
      Others(r);
      e := DeleteSeen(r, p, x);
    }

    method DeleteSeen(r: Route, p: Phase, x: Rule) returns (e: Option<Failure>)
      requires Valid(r) && Own(z, r, p) == [x] && SetOf(z, p).Some?
      modifies this
      ensures Valid(r) && Passed() && z.records == old(z.records)
      ensures Own(z, r, p) == [] || Own(z, r, p) == [x]
      ensures SetOf(z, p).Some? && SetOf(z, p).value.id == SetOf(old(z), p).value.id
      ensures OwnKept(old(z), z, r, Across(p))
      ensures e.None? ==> Own(z, r, p) == []
      ensures disturbed == old(disturbed) ==> e.None? && SetOf(z, Across(p)) == SetOf(old(z), Across(p))
    {
      assert x in Own(z, r, p);
      DeletedIs(z, r, p, x);
      var ok, gone := Delete(r, p, x);
      if !ok {
        return Some(NoAnswer);
      }
      e := Confirm(r, p);
    }

    method Confirm(r: Route, p: Phase) returns (e: Option<Failure>)
      requires Valid(r)
      modifies this
      ensures Valid(r) && Passed() && z.records == old(z.records)
      ensures OwnKept(old(z), z, r, ORIGIN) && OwnKept(old(z), z, r, TLS)
      ensures e.None? ==> Own(z, r, p) == []
      ensures disturbed == old(disturbed) ==> z == old(z) && (e.None? <==> Own(z, r, p) == [])
    {
      Others(r);
      var after := GetEntrypoint(p);
      if after.Err? {
        return Some(after.error);
      }
      e := if Select(RulesOf(after.value), RefOf(r, p), true) == [] then None else Some(Unconfirmed);
    }

    // ── DNS ────────────────────────────────────────────────────────────────

    method OthersDns(r: Route)
      requires Valid(r)
      modifies this
      ensures Valid(r) && Passed() && (disturbed == old(disturbed) ==> z == old(z))
      ensures z == old(z).(records := z.records) && OwnRecords(z, r) == OwnRecords(old(z), r)
    {
      var edited: seq<Record> := *;
      if DistinctRecords(edited) && Keep(edited, Mine(r.domain, r.ref)) == Keep(z.records, Mine(r.domain, r.ref))
         && ForeignOf(z.(records := edited), r) == edits(turn + 1) {
        z, turn, disturbed := z.(records := edited), turn + 1, disturbed + 1;
      }
    }

    method GetRecords(r: Route) returns (s: Result<seq<Record>, Failure>)
      requires Valid(r)
      modifies this
      ensures Valid(r) && Passed() && (disturbed == old(disturbed) ==> z == old(z) && s.Ok?)
      ensures z == old(z).(records := z.records) && OwnRecords(z, r) == OwnRecords(old(z), r)
      ensures s.Ok? ==> s.value == Keep(z.records, Named(r.domain))
    {
      OthersDns(r);
      var answered: bool := *;
      if answered {
        return Ok(Keep(z.records, Named(r.domain)));
      }
      disturbed := disturbed + 1;
      s := Err(NoAnswer);
    }

    method PostRecord(r: Route, address: string) returns (answer: Option<Record>, ghost added: Option<Record>)
      requires Valid(r)
      modifies this`z, this`disturbed
      ensures Valid(r) && Passed() && (disturbed == old(disturbed) ==> answer.Some?)
      ensures added.None? ==> z == old(z)
      ensures added.Some? ==> Aims(r, address, added.value) && z == WithRecord(old(z), added.value)
      ensures added.Some? ==> OwnRecords(z, r) == OwnRecords(old(z), r) + [added.value]
      ensures answer.Some? ==> answer == added
    {
      var id: string := *;
      var delivered: bool := *;
      var answered: bool := *;
      answer, added := None, None;
      if delivered && forall x <- z.records :: x.id != id {
        var x := Record(id, r.domain, address, true, Some(r.ref));
        WithRecordIs(z, r, x);
        z := WithRecord(z, x);
        added := Some(x);
        answer := if answered then Some(x) else None;
      }
      if answer.None? {
        disturbed := disturbed + 1;
      }
    }

    // Finds the record of the hostname or creates it; never overwrites one.
    method EnsureDns(r: Route, address: string) returns (id: Result<string, Failure>)
      requires Valid(r)
      modifies this
      ensures Valid(r) && Passed() && z == old(z).(records := z.records)
      ensures RecordsGrew(old(z), z, r, address)
      ensures id.Ok? ==> exists x <- OwnRecords(z, r) :: Aims(r, address, x) && x.id == id.value
      ensures disturbed == old(disturbed) ==> (id.Ok? <==> DnsReady(old(z), r, address))
      ensures disturbed == old(disturbed) && id.Ok? ==> DnsReady(z, r, address)
      ensures disturbed == old(disturbed) ==> ForeignOf(z, r) == ForeignOf(old(z), r)
    {
      id := EnsureRecordOnce(r, address);
      ForeignKept(r);
    }

    method EnsureRecordOnce(r: Route, address: string) returns (id: Result<string, Failure>)
      requires Valid(r)
      modifies this
      ensures Valid(r) && Passed() && z == old(z).(records := z.records)
      ensures RecordsGrew(old(z), z, r, address)
      ensures id.Ok? ==> exists x <- OwnRecords(z, r) :: Aims(r, address, x) && x.id == id.value
      ensures disturbed == old(disturbed) ==> (id.Ok? <==> DnsReady(old(z), r, address))
      ensures disturbed == old(disturbed) && id.Ok? ==> DnsReady(z, r, address)
    {
      var s := GetRecords(r);
      if s.Err? {
        return Err(s.error);
      }
      if |s.value| > 1 {
        return Err(Duplicate);
      }
      if s.value != [] {
        JudgeRecord(z, r, address, s.value[0]);
        return if Aims(r, address, s.value[0]) then Ok(s.value[0].id) else Err(Changed);
      }
      NoneNamed(z, r);
      id := CreateRecord(r, address);
    }

    lemma JudgeRecord(z: Zone, r: Route, address: string, x: Record)
      requires Keep(z.records, Named(r.domain)) == [x]
      ensures DnsReady(z, r, address) <==> Aims(r, address, x)
      ensures Aims(r, address, x) ==> x in OwnRecords(z, r)
    {
      OneNamed(z, r, x);
    }

    method CreateRecord(r: Route, address: string) returns (id: Result<string, Failure>)
      requires Valid(r) && Keep(z.records, Named(r.domain)) == [] && OwnRecords(z, r) == []
      modifies this
      ensures Valid(r) && Passed() && z == old(z).(records := z.records)
      ensures RecordsGrew(old(z), z, r, address)
      ensures id.Ok? ==> exists x <- OwnRecords(z, r) :: Aims(r, address, x) && x.id == id.value
      ensures disturbed == old(disturbed) ==> id.Ok? && DnsReady(z, r, address)
    {
      OthersDns(r);
      ghost var before := z;
      var answer, added := PostRecord(r, address);
      if added.Some? {
        assert added.value in OwnRecords(z, r);
        KeepAppend(before.records, added.value, Named(r.domain));
      }
      id := if answer.Some? then Ok(answer.value.id) else Err(NoAnswer);
    }

    method DeleteRecord(r: Route, x: Record) returns (ok: bool, ghost gone: bool)
      requires Valid(r) && x in z.records && Mine(r.domain, r.ref)(x)
      modifies this`z, this`disturbed
      ensures Valid(r) && Passed() && (disturbed == old(disturbed) ==> ok) && (ok ==> gone)
      ensures z == if gone then WithoutRecord(old(z), x) else old(z)
      ensures |OwnRecords(z, r)| == |OwnRecords(old(z), r)| - if gone then 1 else 0
    {
      var delivered: bool := *;
      ok, gone := false, false;
      if delivered {
        WithoutRecordIs(z, r, x);
        z := WithoutRecord(z, x);
        gone := true;
        ok := *;
      }
      if !ok {
        disturbed := disturbed + 1;
      }
    }

    // Removes the record if it is the panel's own, and looks again.
    method RemoveDns(r: Route) returns (e: Option<Failure>)
      requires Valid(r)
      modifies this
      ensures Valid(r) && Passed() && z == old(z).(records := z.records)
      ensures |OwnRecords(z, r)| <= |OwnRecords(old(z), r)|
      ensures e.None? ==> Keep(z.records, Named(r.domain)) == [] && OwnRecords(z, r) == []
      ensures disturbed == old(disturbed) ==> (e.None? <==> DnsRemovable(old(z), r))
      ensures disturbed == old(disturbed) ==> ForeignOf(z, r) == ForeignOf(old(z), r)
    {
      var s := GetRecords(r);
      if s.Err? {
        return Some(s.error);
      }
      if |s.value| > 1 {
        return Some(Duplicate);
      }
      if s.value == [] {
        NoneNamed(z, r);
        return None;
      }
      var x := s.value[0];
      OneNamed(z, r, x);
      if x.comment != Some(r.ref) {
        return Some(Changed);
      }
      e := DeleteOwnRecord(r, x);
    }

    method DeleteOwnRecord(r: Route, x: Record) returns (e: Option<Failure>)
      requires Valid(r) && Keep(z.records, Named(r.domain)) == [x] && OwnRecords(z, r) == [x]
      modifies this
      ensures Valid(r) && Passed() && z == old(z).(records := z.records)
      ensures |OwnRecords(z, r)| <= 1
      ensures e.None? ==> Keep(z.records, Named(r.domain)) == [] && OwnRecords(z, r) == []
      ensures disturbed == old(disturbed) ==> e.None?
    {
      OthersDns(r);
      ghost var before := z;
      assert x in OwnRecords(z, r);
      var ok, gone := DeleteRecord(r, x);
      if !ok {
        return Some(NoAnswer);
      }
      DeleteOne(before.records, x, Named(r.domain), RecordId());
      var after := GetRecords(r);
      if after.Err? {
        return Some(after.error);
      }
      if after.value != [] {
        return Some(Unconfirmed);
      }
      NoneNamed(z, r);
      return None;
    }
  }

  // ── The stored intent ────────────────────────────────────────────────────

  // One node's mapped origin: what its row stores, and the zone.
  class OriginService {
    const api: OriginApi
    const origin: Route
    const address: string
    var row: Option<Route>
    var recordId: Option<string>

    constructor (origin: Route, address: string, z: Zone, edits: nat -> Foreign)
      requires edits(0) == ForeignOf(z, origin) && GoodZone(z) && DistinctRecords(z.records) && Nothing(z, origin)
        && origin.origin == NOTHING && origin.tls == NOTHING
      ensures Valid() && Kept() && row.None? && fresh(api) && api.z == z && api.edits == edits
    {
      this.origin, this.address, row, recordId := origin, address, None, None;
      api := new OriginApi(origin, z, edits);
    }

    ghost predicate Valid()
      reads this, api
    {
      api.Valid(origin) && origin.origin == NOTHING && origin.tls == NOTHING
        && (row.Some? ==> SameOrigin(row.value, origin))
    }

    // Nothing is in the zone before the row says so, and what it says agrees with the zone.
    ghost predicate Kept()
      reads this, api
    {
      if row.None? then Nothing(api.z, origin) else Known(api.z, row.value)
    }

    // What is not owned is what the others left, and as before if nobody came between.
    twostate predicate LeftAlone()
      reads this, api
    {
      && ForeignOf(api.z, origin) == api.edits(api.turn)
      && (api.disturbed == old(api.disturbed) ==> ForeignOf(api.z, origin) == ForeignOf(old(api.z), origin))
    }

    twostate lemma ValidLeavesAlone()
      requires old(Valid()) && Valid() && api.Passed()
      ensures LeftAlone()
    {
    }

    lemma StaysKept(before: Zone)
      requires Valid() && (if row.None? then Nothing(before, origin) else Known(before, row.value))
      requires OwnKept(before, api.z, origin, ORIGIN) && OwnKept(before, api.z, origin, TLS)
        && api.z.records == before.records
      ensures Kept()
    {
      if row.Some? {
        StaysKnown(before, api.z, row.value, origin, address);
      }
    }

    // The route of an attempt, and the row, agree with the zone.
    ghost predicate Working(r: Route)
      reads this, api
    {
      Valid() && row.Some? && Known(api.z, row.value) && SameOrigin(r, origin) && Known(api.z, r)
    }

    lemma StaysWorking(before: Zone, r: Route)
      requires Valid() && SameOrigin(r, origin) && row.Some? && Known(before, row.value) && Known(before, r)
      requires Grew(before, api.z, r, address)
      ensures Working(r)
    {
      StaysKnown(before, api.z, r, r, address);
      StaysKnown(before, api.z, row.value, r, address);
    }

    lemma AnyRoute(r: Route)
      requires SameOrigin(r, origin)
      ensures api.Valid(r) <==> api.Valid(origin)
    {
    }

    // The database write may fail before or after its effect.
    method Persist(r: Route) returns (ok: bool)
      requires Valid() && SameOrigin(r, origin)
      modifies this`row, api`disturbed
      ensures Valid() && api.Passed() && (ok || api.disturbed > old(api.disturbed))
      ensures row == old(row) || row == Some(r)
      ensures ok ==> row == Some(r)
    {
      var delivered: bool := *;
      ok := false;
      if delivered {
        row := Some(r);
        ok := *;
      }
      if !ok {
        api.disturbed := api.disturbed + 1;
      }
    }

    // Before the first write: both phases leave the hostname alone.
    method Isolation(r: Route, p: Phase) returns (ok: bool)
      requires Valid() && SameOrigin(r, origin)
      modifies api
      ensures Valid() && api.Passed() && api.z.records == old(api.z).records
      ensures OwnKept(old(api.z), api.z, r, ORIGIN) && OwnKept(old(api.z), api.z, r, TLS)
      ensures api.disturbed == old(api.disturbed) ==>
        api.z == old(api.z) && (ok <==> Isolated(r, p, RulesOf(SetOf(api.z, p))))
    {
      AnyRoute(r);
      api.Others(r);
      var s := api.GetEntrypoint(p);
      ok := s.Ok? && Isolated(r, p, RulesOf(s.value));
    }

    method EnsurePhase(r: Route, p: Phase) returns (next: Result<Route, Failure>)
      requires Working(r)
      modifies api
      ensures api.Passed() && Working(r) && Grew(old(api.z), api.z, r, address) && api.z.records == old(api.z).records
      ensures OwnKept(old(api.z), api.z, r, Across(p))
      ensures next.Ok? ==>
        Working(next.value) && Exactly(api.z, r, p, IdsOf(next.value, p))
        && next.value == WithIds(r, p, IdsOf(next.value, p))
      ensures api.disturbed == old(api.disturbed) ==> SetOf(api.z, Across(p)) == SetOf(old(api.z), Across(p))
      ensures api.disturbed == old(api.disturbed) ==>
        (next.Ok? <==>
         (Healthy(old(api.z), r, p)
            && (p == ORIGIN && r.tls != NOTHING ==> Healthy(api.z, r, TLS) && |Own(api.z, r, TLS)| == 1)))
      ensures api.disturbed == old(api.disturbed) && next.Ok? ==> Healthy(api.z, r, p)
    {
      ghost var before := api.z;
      AnyRoute(r);
      var ids := api.Ensure(r, p);
      StaysWorking(before, r);
      if ids.Err? {
        return Err(ids.error);
      }
      KnownWithIds(api.z, r, p, ids.value);
      next := Ok(WithIds(r, p, ids.value));
    }

    method EnsureRecord(r: Route) returns (ok: bool)
      requires Working(r)
      modifies api, this`recordId
      ensures api.Passed() && Working(r) && Grew(old(api.z), api.z, r, address)
      ensures api.z == old(api.z).(records := api.z.records)
      ensures ok ==>
        recordId.Some? && exists x <- OwnRecords(api.z, origin) :: Aims(origin, address, x) && recordId == Some(x.id)
      ensures api.disturbed == old(api.disturbed) ==> (ok <==> DnsReady(old(api.z), r, address))
    {
      var id := FindRecord(r);
      ok := false;
      if id.Ok? {
        ok := StoreRecord(r, id.value);
      }
    }

    method FindRecord(r: Route) returns (id: Result<string, Failure>)
      requires Working(r)
      modifies api
      ensures api.Passed() && Working(r) && Grew(old(api.z), api.z, r, address)
      ensures api.z == old(api.z).(records := api.z.records)
      ensures id.Ok? ==> exists x <- OwnRecords(api.z, origin) :: Aims(origin, address, x) && x.id == id.value
      ensures api.disturbed == old(api.disturbed) ==> (id.Ok? <==> DnsReady(old(api.z), r, address))
    {
      ghost var before := api.z;
      AnyRoute(r);
      id := api.EnsureDns(r, address);
      StaysWorking(before, r);
    }

    // node.update with the record's id
    method StoreRecord(r: Route, id: string) returns (ok: bool)
      requires Working(r)
      modifies this`recordId, api`disturbed
      ensures api.Passed() && (ok || api.disturbed > old(api.disturbed))
      ensures Working(r) && (ok ==> recordId == Some(id))
    {
      var delivered: bool := *;
      ok := false;
      if delivered {
        recordId := Some(id);
        ok := *;
      }
      if !ok {
        api.disturbed := api.disturbed + 1;
      }
    }

    // Reads the record by its id, and the TLS rule without relying on its stored ids.
    method Prerequisites(r: Route) returns (ok: bool)
      requires Working(r) && Recorded()
      modifies api
      ensures api.Passed() && Working(r) && Grew(old(api.z), api.z, r, address) && api.z.records == old(api.z).records
      ensures OwnKept(old(api.z), api.z, r, TLS)
      ensures api.disturbed == old(api.disturbed) ==> api.z == old(api.z)
      ensures api.disturbed == old(api.disturbed) && Healthy(api.z, r, TLS) && |Own(api.z, r, TLS)| == 1 ==> ok
    {
      ghost var before := api.z;
      var bare := WithIds(r, TLS, NOTHING);
      AnyRoute(bare);
      var answered: bool := *;
      if !answered {
        api.disturbed := api.disturbed + 1;
        return false;
      }
      if !exists x <- api.z.records :: Some(x.id) == recordId && Aims(origin, address, x) {
        return false;
      }
      BareIsHealthy(api.z, r);
      var tls := api.VerifyRuleset(bare, TLS);
      SameOwn(before, bare, r);
      SameOwn(api.z, bare, r);
      StaysWorking(before, r);
      ok := tls.Ok?;
    }

    lemma BareIsHealthy(z: Zone, r: Route)
      ensures Healthy(z, r, TLS) && |Own(z, r, TLS)| == 1 ==>
        Healthy(z, WithIds(r, TLS, NOTHING), TLS) && |Own(z, WithIds(r, TLS, NOTHING), TLS)| == 1
    {
      SameOwn(z, WithIds(r, TLS, NOTHING), r);
    }

    // The stored record id is that of the panel's own record.
    ghost predicate Recorded()
      reads this, api
    {
      recordId.Some? && exists x <- OwnRecords(api.z, origin) :: Aims(origin, address, x) && recordId == Some(x.id)
    }

    // One rule in each phase and one record, all as wanted, and all remembered.
    ghost predicate Confirmed(r: Route)
      reads this, api
    {
      AllThere(api.z, origin, r) && Recorded()
    }

    ghost predicate Preparable(z: Zone, r: Route) {
      Healthy(z, r, ORIGIN) && Healthy(z, r, TLS) && DnsReady(z, r, address)
    }

    // Checks that write nothing.
    method Preflight(r: Route) returns (ok: bool)
      requires Valid() && Kept() && SameOrigin(r, origin)
      modifies api
      ensures api.Passed() && Valid() && Kept() && api.z.records == old(api.z).records
      ensures api.disturbed == old(api.disturbed) ==>
        api.z == old(api.z)
          && (ok <==> Isolated(r, TLS, RulesOf(api.z.tls)) && Isolated(r, ORIGIN, RulesOf(api.z.origin)))
    {
      ghost var before := api.z;
      ok := Isolation(r, TLS);
      StaysKept(before);
      if ok {
        ghost var between := api.z;
        ok := Isolation(r, ORIGIN);
        StaysKept(between);
      }
      if ok {
        ok := *;
        if !ok {
          api.disturbed := api.disturbed + 1;
        }
      }
    }

    // The intent is stored before the first write to the cloud.
    method Start(r: Route) returns (ok: bool)
      requires Valid() && Kept() && r == row.GetOr(origin)
      modifies this`row, api
      ensures api.Passed() && Valid() && Kept() && api.z.records == old(api.z).records
      ensures row == old(row) || row == Some(r)
      ensures Known(api.z, r) && SameOrigin(r, origin) && (ok ==> Working(r))
      ensures api.disturbed == old(api.disturbed) ==>
        api.z == old(api.z)
          && (ok <==> Isolated(r, TLS, RulesOf(api.z.tls)) && Isolated(r, ORIGIN, RulesOf(api.z.origin)))
    {
      ok := Preflight(r);
      NothingIsKnown();
      if ok {
        ok := Persist(r);
      }
    }

    // A first attempt's route agrees with a zone that holds nothing.
    lemma NothingIsKnown()
      requires Valid() && Kept()
      ensures Known(api.z, row.GetOr(origin))
    {
    }

    lemma StaysRecorded(before: Zone)
      requires api.z.records == before.records
      requires recordId.Some? && exists x <- OwnRecords(before, origin) ::
        Aims(origin, address, x) && recordId == Some(x.id)
      ensures Recorded()
    {
    }

    lemma RememberedTls(z: Zone, r: Route, next: Route)
      requires SameOrigin(r, origin) && next == WithIds(r, TLS, next.tls) && Exactly(z, r, TLS, next.tls)
        && Known(z, next)
      ensures Healthy(z, r, TLS) ==> Healthy(z, next, TLS)
      ensures Own(z, next, TLS) == Own(z, r, TLS) && |Own(z, next, TLS)| == 1 && next.tls != NOTHING
      ensures Healthy(z, r, ORIGIN) <==> Healthy(z, next, ORIGIN)
      ensures Exactly(z, next, TLS, next.tls) && SameOrigin(next, origin)
    {
      SameOwn(z, next, r);
    }

    lemma StaysExact(before: Zone, after: Zone, r: Route, p: Phase, ids: Ids)
      requires Exactly(before, r, p, ids) && OwnKept(before, after, r, p)
      ensures Exactly(after, r, p, ids)
    {
    }

    // The TLS rule, and its ids stored.
    method TlsRule(r: Route) returns (last: Route, ok: bool)
      requires Working(r)
      modifies this`row, api
      ensures api.Passed() && Working(last) && api.z.records == old(api.z).records
      ensures ok ==> Exactly(api.z, last, TLS, last.tls) && last.tls != NOTHING
      ensures api.disturbed == old(api.disturbed) ==> (ok <==> Healthy(old(api.z), r, TLS))
      ensures api.disturbed == old(api.disturbed) && ok ==>
        Healthy(api.z, last, TLS) && (Healthy(api.z, last, ORIGIN) <==> Healthy(old(api.z), r, ORIGIN))
    {
      var tls := TlsPhase(r);
      if tls.Err? {
        return r, false;
      }
      last := tls.value;
      ok := Persist(last);
    }

    method TlsPhase(r: Route) returns (next: Result<Route, Failure>)
      requires Working(r)
      modifies api
      ensures api.Passed() && Working(r) && api.z.records == old(api.z).records
      ensures next.Ok? ==>
        Working(next.value) && Exactly(api.z, next.value, TLS, next.value.tls) && next.value.tls != NOTHING
      ensures api.disturbed == old(api.disturbed) ==> (next.Ok? <==> Healthy(old(api.z), r, TLS))
      ensures api.disturbed == old(api.disturbed) && next.Ok? ==>
        Healthy(api.z, next.value, TLS) && (Healthy(api.z, next.value, ORIGIN) <==> Healthy(old(api.z), r, ORIGIN))
    {
      ghost var before := api.z;
      next := EnsurePhase(r, TLS);
      if next.Ok? {
        RememberedTls(api.z, r, next.value);
        SameHealth(before, api.z, r, ORIGIN);
      }
    }

    lemma SameHealth(before: Zone, after: Zone, r: Route, p: Phase)
      ensures SetOf(before, p) == SetOf(after, p) ==> (Healthy(before, r, p) <==> Healthy(after, r, p))
    {
    }

    lemma ExactForOrigin(z: Zone, r: Route, p: Phase, ids: Ids)
      requires SameOrigin(r, origin)
      ensures Exactly(z, r, p, ids) <==> Exactly(z, origin, p, ids)
    {
      SameOwn(z, r, origin);
    }

    // If tls says that the TLS phase is healthy, healthy says whether the other one is.
    method OriginRule(r: Route, ghost tls: bool, ghost healthy: bool) returns (result: Result<Route, Failure>)
      requires Working(r) && Recorded() && Exactly(api.z, r, TLS, r.tls) && r.tls != NOTHING
      requires tls ==> Healthy(api.z, r, TLS) && (healthy <==> Healthy(api.z, r, ORIGIN))
      modifies this`row, api
      ensures api.Passed() && Working(r)
      ensures result.Ok? ==> row == Some(result.value) && Confirmed(result.value)
      ensures api.disturbed == old(api.disturbed) && tls ==> (result.Ok? <==> healthy)
    {
      result := OriginPhase(r, tls, healthy);
      if result.Ok? {
        var ok := Store(r, result.value);
        if !ok {
          result := Err(NoAnswer);
        }
      }
    }

    method OriginPhase(r: Route, ghost tls: bool, ghost healthy: bool) returns (next: Result<Route, Failure>)
      requires Working(r) && Recorded() && Exactly(api.z, r, TLS, r.tls) && r.tls != NOTHING
      requires tls ==> Healthy(api.z, r, TLS) && (healthy <==> Healthy(api.z, r, ORIGIN))
      modifies api
      ensures api.Passed() && Working(r)
      ensures next.Ok? ==> Confirmed(next.value) && Working(next.value)
      ensures api.disturbed == old(api.disturbed) && tls ==> (next.Ok? <==> healthy)
    {
      ghost var before := api.z;
      next := EnsurePhase(r, ORIGIN);
      StaysExact(before, api.z, r, TLS, r.tls);
      SameHealth(before, api.z, r, TLS);
      StaysRecorded(before);
      if next.Ok? {
        ExactForOrigin(api.z, r, TLS, r.tls);
        ExactForOrigin(api.z, r, ORIGIN, next.value.origin);
      }
    }

    method Store(r: Route, next: Route) returns (ok: bool)
      requires Working(r) && Working(next) && Confirmed(next)
      modifies this`row, api`disturbed
      ensures api.Passed() && (ok || api.disturbed > old(api.disturbed))
      ensures Working(r) && Confirmed(next) && (ok ==> row == Some(next))
    {
      ghost var z := api.z;
      assert Known(z, next) && AllThere(z, origin, next);
      ok := Persist(next);
      assert api.z == z;
    }

    method Rules(r: Route) returns (last: Route, result: Result<Route, Failure>)
      requires Working(r) && Recorded()
      modifies this`row, api
      ensures api.Passed() && Working(last)
      ensures result.Ok? ==> row == Some(result.value) && Confirmed(result.value)
      ensures api.disturbed == old(api.disturbed) ==>
        (result.Ok? <==> Healthy(old(api.z), r, TLS) && Healthy(old(api.z), r, ORIGIN))
    {
      ghost var before := api.z;
      var next, ok := TlsRule(r);
      last := next;
      if !ok {
        return last, Err(Unconfirmed);
      }
      StaysRecorded(before);
      ok := Checked(last);
      if !ok {
        return last, Err(Unconfirmed);
      }
      result := OriginRule(last, Healthy(api.z, last, TLS), Healthy(api.z, last, ORIGIN));
    }

    // What must hold before traffic.
    method Checked(r: Route) returns (ok: bool)
      requires Working(r) && Recorded() && Exactly(api.z, r, TLS, r.tls)
      modifies api
      ensures api.Passed() && Working(r) && Recorded() && Exactly(api.z, r, TLS, r.tls)
      ensures api.disturbed == old(api.disturbed) ==> api.z == old(api.z) && (Healthy(api.z, r, TLS) ==> ok)
    {
      ghost var before := api.z;
      ok := Prerequisites(r);
      StaysRecorded(before);
      StaysExact(before, api.z, r, TLS, r.tls);
    }

    // Isolation, intent, record, TLS rule, prerequisites, origin rule, in this order.
    method Prepare() returns (result: Result<Route, Failure>)
      requires Valid() && Kept()
      modifies this, api
      ensures Valid() && Kept() && api.Passed()
      ensures result.Ok? ==> row == Some(result.value) && Confirmed(result.value)
      ensures api.disturbed == old(api.disturbed) ==> (result.Ok? <==> Preparable(old(api.z), old(row).GetOr(origin)))
      ensures LeftAlone()
    {
      result := PrepareOnce();
      ValidLeavesAlone();
    }

    method PrepareOnce() returns (result: Result<Route, Failure>)
      requires Valid() && Kept()
      modifies this, api
      ensures Valid() && Kept() && api.Passed()
      ensures result.Ok? ==> row == Some(result.value) && Confirmed(result.value)
      ensures api.disturbed == old(api.disturbed) ==> (result.Ok? <==> Preparable(old(api.z), old(row).GetOr(origin)))
    {
      var r := row.GetOr(origin);
      var ok := Start(r);
      if !ok {
        Fail(r);
        return Err(Unconfirmed);
      }
      var last, done := Publish(r);
      result := done;
      if result.Err? {
        Fail(last);
      }
    }

    method Publish(r: Route) returns (last: Route, result: Result<Route, Failure>)
      requires Working(r)
      modifies this, api
      ensures api.Passed() && Working(last)
      ensures result.Ok? ==> row == Some(result.value) && Confirmed(result.value)
      ensures api.disturbed == old(api.disturbed) ==> (result.Ok? <==> Preparable(old(api.z), r))
    {
      ghost var before := api.z;
      var ok := EnsureRecord(r);
      SameHealth(before, api.z, r, TLS);
      SameHealth(before, api.z, r, ORIGIN);
      if !ok {
        return r, Err(Unconfirmed);
      }
      last, result := Rules(r);
    }

    // The failure is stored with what is known so far.
    method Fail(r: Route)
      requires Valid() && Kept() && SameOrigin(r, origin) && Known(api.z, r)
      modifies this`row, api`disturbed
      ensures Valid() && Kept() && api.Passed()
    {
      var _ := Persist(r);
    }

    // Removes the origin rule, the TLS rule and the record of a stored route.
    method Remove() returns (e: Option<Failure>)
      requires Valid() && row.Some?
      modifies api
      ensures Valid() && api.Passed()
      ensures OwnShrank(old(api.z), api.z, origin, ORIGIN) && OwnShrank(old(api.z), api.z, origin, TLS)
      ensures |OwnRecords(api.z, origin)| <= |OwnRecords(old(api.z), origin)|
      ensures e.None? ==> Nothing(api.z, origin)
      ensures api.disturbed == old(api.disturbed) ==>
        (e.None? <==>
           Removable(old(api.z), row.value, ORIGIN) && Removable(old(api.z), row.value, TLS)
             && DnsRemovable(old(api.z), row.value))
      ensures LeftAlone()
      // Whatever failed, the next removal can go on from here.
      ensures Known(old(api.z), row.value) ==> Removable(api.z, row.value, ORIGIN) && Removable(api.z, row.value, TLS)
    {
      ghost var before := api.z;
      e := RemoveOnce();
      ValidLeavesAlone();
      SameShrinking(before, api.z, row.value, ORIGIN);
      SameShrinking(before, api.z, row.value, TLS);
      if Known(before, row.value) {
        RetryRemoves(before, api.z, row.value);
      }
    }

    method RemoveOnce() returns (e: Option<Failure>)
      requires Valid() && row.Some?
      modifies api
      ensures Valid() && api.Passed()
      ensures OwnShrank(old(api.z), api.z, origin, ORIGIN) && OwnShrank(old(api.z), api.z, origin, TLS)
      ensures |OwnRecords(api.z, origin)| <= |OwnRecords(old(api.z), origin)|
      ensures e.None? ==> Nothing(api.z, origin)
      ensures api.disturbed == old(api.disturbed) ==>
        (e.None? <==>
           Removable(old(api.z), row.value, ORIGIN) && Removable(old(api.z), row.value, TLS)
             && DnsRemovable(old(api.z), row.value))
    {
      var r := row.value;
      AnyRoute(r);
      ghost var before := api.z;
      e := api.RemoveRules(r);
      SameShrinking(before, api.z, r, ORIGIN);
      SameShrinking(before, api.z, r, TLS);
      SameOwn(before, r, origin);
      SameOwn(api.z, r, origin);
      if e.None? {
        e := api.RemoveDns(r);
        SameOwn(api.z, r, origin);
      }
    }

    lemma SameShrinking(before: Zone, after: Zone, r: Route, p: Phase)
      requires SameOrigin(r, origin)
      ensures OwnShrank(before, after, r, p) <==> OwnShrank(before, after, origin, p)
    {
      SameOwn(before, r, origin);
      SameOwn(after, r, origin);
    }
  }

  ghost predicate AllThere(z: Zone, origin: Route, r: Route) {
    Exactly(z, origin, ORIGIN, r.origin) && Exactly(z, origin, TLS, r.tls)
  }

  // Whatever failed before: with a row that agrees with the zone, the next attempt
  // that is not disturbed succeeds exactly if the hostname is left alone.
  lemma RetryPreparesIff(z: Zone, origin: Route, row: Option<Route>)
    requires origin.origin == NOTHING && origin.tls == NOTHING && (row.Some? ==> SameOrigin(row.value, origin))
    requires if row.None? then Nothing(z, origin) else Known(z, row.value)
    ensures var r := row.GetOr(origin); forall p ::
      Healthy(z, r, p) <==> Isolated(r, p, RulesOf(SetOf(z, p)))
  {
    var r := row.GetOr(origin);
    forall p
      ensures Consistent(z, r, p)
    {
      if row.None? {
        assert Own(z, origin, p) == [];
      }
    }
  }

  // A row that agrees with the zone can be removed, and after a part of it was
  // removed the rest still can.
  lemma RetryRemoves(before: Zone, after: Zone, r: Route)
    requires Known(before, r)
    requires OwnShrank(before, after, r, ORIGIN) && OwnShrank(before, after, r, TLS)
    ensures Removable(before, r, ORIGIN) && Removable(before, r, TLS)
    ensures Removable(after, r, ORIGIN) && Removable(after, r, TLS)
  {
  }

  // As it was, or without its owned rule.
  ghost predicate OwnShrank(before: Zone, after: Zone, r: Route, p: Phase) {
    && (SetOf(before, p).Some? ==> SetOf(after, p).Some? && SetOf(after, p).value.id == SetOf(before, p).value.id)
    && (Own(after, r, p) == Own(before, r, p) || Own(after, r, p) == [])
  }

  // Removal forgets no ids: once a rule was confirmed and removed, the same row
  // never prepares again, even in an empty zone.
  lemma RemovedIsNotPreparable(z: Zone, r: Route, p: Phase)
    requires Own(z, r, p) == [] && IdsOf(r, p).rule.Some?
    ensures !Healthy(z, r, p)
  {
  }
}
