/**
 * Per-credential users of a core: the rewriting of its configuration
 * (usage-config.ts) and the reconciliation of disk and runtime with the
 * credentials (usage-provisioner.service.ts).
 */
module UsageProvisioning {
  import opened Common
  import Text

  type Id = string

  // A client entry; rest stands for its other fields.
  datatype Client = Client(email: Option<string>, id: string, level: Option<nat>, rest: string)

  datatype Value = Yes | No | Other(text: string)
  type Level = map<string, Value>

  // fits: the tagged inbound is VLESS over TLS with ws or xhttp, and the API
  // inbound listens on the local stats port. rest: whatever is left alone.
  datatype Config = Config(fits: bool, clients: seq<Client>, services: seq<string>, levels: map<string, Level>,
    rest: string)

  datatype User = User(email: string, id: string)

  datatype Failure = CredentialLimit | Unsupported | ReservedLevel

  const LIMIT := 500
  const LEGACY := "np-legacy"
  const OWN := "np-usage-"
  const STATS := "StatsService"
  const HANDLER := "HandlerService"
  const OWN_LEVEL: nat := 4242

  // ── usageConfig ──────────────────────────────────────────────────────────

  predicate StartsWith(s: string, prefix: string) {
    |prefix| <= |s| && s[..|prefix|] == prefix
  }

  predicate IsOwn(c: Client) {
    StartsWith(c.email.GetOr(""), OWN)
  }

  function Legacy(clients: seq<Client>): (r: seq<Client>)
    ensures forall c :: c in r <==> c in clients && !IsOwn(c)
  {
    if clients == [] then [] else (if IsOwn(clients[0]) then [] else [clients[0]]) + Legacy(clients[1..])
  }

  // [...new Set(xs)]
  function Unique(xs: seq<string>): (r: seq<string>)
    ensures forall x :: x in r <==> x in xs
    ensures forall i, j :: 0 <= i < j < |r| ==> r[i] != r[j]
  {
    if xs == [] then []
    else
      var front, last := Unique(xs[..|xs| - 1]), xs[|xs| - 1];
      assert xs == xs[..|xs| - 1] + [last];
      if last in front then front else front + [last]
  }

  lemma {:induction false} UniqueOfDistinct(xs: seq<string>)
    requires forall i, j :: 0 <= i < j < |xs| ==> xs[i] != xs[j]
    ensures Unique(xs) == xs
  {
    if xs != [] {
      var front := xs[..|xs| - 1];
      UniqueOfDistinct(front);
      assert xs == front + [xs[|xs| - 1]];
      assert xs[|xs| - 1] !in front;
    }
  }

  function KeyOf(level: nat): string {
    Text.Decimal(level)
  }

  function LevelAt(levels: map<string, Level>, level: nat): Level {
    if KeyOf(level) in levels then levels[KeyOf(level)] else map[]
  }

  predicate On(level: Level, field: string) {
    field in level && level[field] == Yes
  }

  predicate Prepared(c: Config, legacy: Client) {
    && HANDLER in c.services && On(LevelAt(c.levels, OWN_LEVEL), "statsUserUplink")
      && On(LevelAt(c.levels, OWN_LEVEL), "statsUserDownlink")
    && legacy.email == Some(LEGACY) && legacy.level == Some(OWN_LEVEL)
  }

  function Listed(users: seq<User>): seq<Client> {
    seq(|users|, i requires 0 <= i < |users| => Client(Some(users[i].email), users[i].id, Some(OWN_LEVEL), ""))
  }

  function Rewritten(c: Config, legacy: Client, users: seq<User>): Config {
    var own := LevelAt(c.levels, legacy.level.GetOr(0)) + LevelAt(c.levels, OWN_LEVEL) + map["statsUserUplink" := Yes,
      "statsUserDownlink" := Yes];
    c.(clients := [legacy.(email := Some(LEGACY), level := Some(OWN_LEVEL))] + Listed(users),
       services := Unique(c.services + [HANDLER]),
       levels := c.levels[KeyOf(OWN_LEVEL) := own])
  }

  function UsageConfig(c: Config, users: seq<User>): Result<(Config, bool), Failure> {
    if |users| > LIMIT then Err(CredentialLimit)
    else if !c.fits then Err(Unsupported)
    else
      var legacy := Legacy(c.clients);
      if |legacy| != 1 || (legacy[0].email.GetOr("") != "" && legacy[0].email != Some(LEGACY)) then Err(Unsupported)
      else if STATS !in c.services then Err(Unsupported)
      else if !Prepared(c, legacy[0]) && KeyOf(OWN_LEVEL) in c.levels then Err(ReservedLevel)
      else Ok((Rewritten(c, legacy[0], users), Prepared(c, legacy[0])))
  }

  ghost predicate OwnUsers(users: seq<User>) {
    forall u <- users :: StartsWith(u.email, OWN)
  }

  lemma {:induction false} OwnAreNotLegacy(clients: seq<Client>)
    requires forall c <- clients :: IsOwn(c)
    ensures Legacy(clients) == []
  {
    if clients != [] {
      OwnAreNotLegacy(clients[1..]);
    }
  }

  lemma LegacyOfRewritten(c: Config, legacy: Client, users: seq<User>)
    requires OwnUsers(users)
    ensures Legacy(Rewritten(c, legacy, users).clients) == [legacy.(email := Some(LEGACY), level := Some(OWN_LEVEL))]
  {
    var first := legacy.(email := Some(LEGACY), level := Some(OWN_LEVEL));
    assert LEGACY[3] != OWN[3];
    assert !IsOwn(first);
    OwnAreNotLegacy(Listed(users));
    assert ([first] + Listed(users))[1..] == Listed(users);
  }

  // The second run changes nothing and needs no restart, whatever the users.
  lemma SecondRunIsPrepared(c: Config, users: seq<User>, others: seq<User>)
    requires OwnUsers(users) && |others| <= LIMIT && UsageConfig(c, users).Ok?
    ensures var once := UsageConfig(c, users).value.0;
      UsageConfig(once, others) == Ok((once.(clients := [once.clients[0]] + Listed(others)), true))
  {
    var legacy := Legacy(c.clients)[0];
    var once := Rewritten(c, legacy, users);
    var first := legacy.(email := Some(LEGACY), level := Some(OWN_LEVEL));
    LegacyOfRewritten(c, legacy, users);
    PreparedOnce(c, legacy, users);
    RewrittenTwice(c, legacy, users, others);
    assert Legacy(once.clients) == [first] && once.clients[0] == first;
  }

  lemma PreparedOnce(c: Config, legacy: Client, users: seq<User>)
    ensures Prepared(Rewritten(c, legacy, users), legacy.(email := Some(LEGACY), level := Some(OWN_LEVEL)))
    ensures STATS in c.services ==> STATS in Rewritten(c, legacy, users).services
  {
    assert HANDLER in c.services + [HANDLER];
  }

  lemma RewrittenTwice(c: Config, legacy: Client, users: seq<User>, others: seq<User>)
    ensures var once, first := Rewritten(c, legacy, users), legacy.(email := Some(LEGACY), level := Some(OWN_LEVEL));
      Rewritten(once, first, others) == once.(clients := [first] + Listed(others))
  {
    ServicesSettle(c.services);
    LevelsSettle(c, legacy, users);
  }

  lemma ServicesSettle(services: seq<string>)
    ensures Unique(Unique(services + [HANDLER]) + [HANDLER]) == Unique(services + [HANDLER])
  {
    var once := Unique(services + [HANDLER]);
    UniqueOfDistinct(once);
    assert HANDLER in services + [HANDLER];
    assert (once + [HANDLER])[..|once|] == once;
  }

  lemma LevelsSettle(c: Config, legacy: Client, users: seq<User>)
    ensures var once := Rewritten(c, legacy, users);
      once.levels[KeyOf(OWN_LEVEL) := LevelAt(once.levels, OWN_LEVEL) + LevelAt(once.levels, OWN_LEVEL)
                                      + map["statsUserUplink" := Yes, "statsUserDownlink" := Yes]] == once.levels
  {
    var once := Rewritten(c, legacy, users);
    var own := LevelAt(once.levels, OWN_LEVEL);
    assert own + own + map["statsUserUplink" := Yes, "statsUserDownlink" := Yes] == own;
  }

  lemma UsageConfigIsIdempotent(c: Config, users: seq<User>)
    requires OwnUsers(users) && UsageConfig(c, users).Ok?
    ensures UsageConfig(UsageConfig(c, users).value.0, users) == Ok((UsageConfig(c, users).value.0, true))
  {
    SecondRunIsPrepared(c, users, users);
    var once := UsageConfig(c, users).value.0;
    assert once.clients == [once.clients[0]] + Listed(users);
  }

  // Nothing else is touched, and the legacy user keeps its identity.
  lemma OthersUntouched(c: Config, users: seq<User>)
    requires UsageConfig(c, users).Ok?
    ensures var next := UsageConfig(c, users).value.0;
      && next.fits == c.fits && next.rest == c.rest
      && next.clients[0].id == Legacy(c.clients)[0].id && next.clients[0].rest == Legacy(c.clients)[0].rest
      && next.clients[1..] == Listed(users)
      && (forall s :: s in next.services <==> s in c.services || s == HANDLER)
      && (forall k <- c.levels :: k != KeyOf(OWN_LEVEL) ==> k in next.levels && next.levels[k] == c.levels[k])
  {
  }

  // ── runtimeUsers ─────────────────────────────────────────────────────────

  // The answer of the core is a list of email and account; an absent or empty one is refused.
  method RuntimeUsers(users: seq<(string, string)>) returns (r: Option<map<string, string>>)
    ensures r.Some? <==>
      && |users| <= LIMIT + 1 && (forall u <- users :: u.0 != "" && u.1 != "")
      && forall i, j :: 0 <= i < j < |users| ==> users[i].0 != users[j].0
    ensures r.Some? ==> forall e, id :: e in r.value && r.value[e] == id <==> (e, id) in users
  {
    if |users| > LIMIT + 1 {
      return None;
    }
    var result: map<string, string> := map[];
    for i := 0 to |users|
      invariant forall u <- users[..i] :: u.0 != "" && u.1 != ""
      invariant forall j, k :: 0 <= j < k < i ==> users[j].0 != users[k].0
      invariant forall e, id :: e in result && result[e] == id <==> (e, id) in users[..i]
    {
      var (email, id) := users[i];
      assert users[..i + 1] == users[..i] + [users[i]];
      if email == "" || id == "" {
        assert users[i] in users;
        return None;
      }
      if email in result {
        assert (email, result[email]) in users[..i];
        return None;
      }
      result := result[email := id];
    }
    assert users[..|users|] == users;
    r := Some(result);
  }

  // ── Credentials ──────────────────────────────────────────────────────────

  datatype Credential = Credential(id: Id, uuid: string, revoked: bool, installed: bool, removed: bool)

  function UsageEmail(id: Id): string {
    OWN + id
  }

  // The users that the core should have.
  function Users(cs: seq<Credential>): (r: seq<User>)
    ensures OwnUsers(r)
    ensures forall u :: u in r <==> exists c <- cs :: !c.removed && !c.revoked && u == User(UsageEmail(c.id), c.uuid)
  {
    if cs == [] then []
    else
      var c, rest := cs[0], Users(cs[1..]);
      if c.removed || c.revoked then rest
      else
        assert StartsWith(UsageEmail(c.id), OWN);
        [User(UsageEmail(c.id), c.uuid)] + rest
  }

  predicate OwnEmail(e: string) {
    StartsWith(e, OWN) && |e| > |OWN| && forall c <- e[|OWN|..] :: 'a' <= c <= 'z' || '0' <= c <= '9'
  }

  // What one core has: the file, the file that the ownership manifest vouches
  // for, and the users of the running process.
  datatype Core = Core(disk: Config, manifest: Config, runtime: map<string, string>)

  datatype Reason =
    | NotUnchanged | ConfigRefused(failure: Failure) | PreparationRequired
    | RuntimeConflict | CommandFailed | VerificationFailed | RollbackFailed

  function IdsOf(clients: seq<Client>): map<string, string> {
    if clients == [] then map[]
    else
      var front := IdsOf(clients[..|clients| - 1]);
      front[clients[|clients| - 1].email.GetOr("") := clients[|clients| - 1].id]
  }

  predicate Readable(runtime: map<string, string>) {
    |runtime| <= LIMIT + 1 && "" !in runtime && forall e <- runtime :: runtime[e] != ""
  }

  // No user runs under another identity.
  predicate Compatible(runtime: map<string, string>, users: seq<User>) {
    forall u <- users :: u.email in runtime ==> runtime[u.email] == u.id
  }

  // The users that are there, without those that were removed, and the new ones.
  predicate Reconciled(before: map<string, string>, after: map<string, string>, users: seq<User>) {
    && (forall u <- users :: u.email in after && after[u.email] == u.id)
    && (forall e <- after :: OwnEmail(e) ==> exists u <- users :: u.email == e)
    && (forall e :: e in before && !OwnEmail(e) ==> e in after && after[e] == before[e])
    && (forall e :: e in after && !OwnEmail(e) ==> e in before || exists u <- users :: u.email == e)
  }

  // What the final verification demands.
  predicate Verified(runtime: map<string, string>, legacyId: string, cs: seq<Credential>) {
    && LEGACY in runtime && runtime[LEGACY] == legacyId
    && (forall u <- Users(cs) :: u.email in runtime && runtime[u.email] == u.id)
    && (forall c <- cs :: !c.removed && c.revoked ==> UsageEmail(c.id) !in runtime)
  }

  function Settled(cs: seq<Credential>): seq<Credential> {
    seq(|cs|, i requires 0 <= i < |cs| =>
      if cs[i].removed then cs[i] else if cs[i].revoked then cs[i].(removed := true) else cs[i].(installed := true))
  }

  // Ids as the database gives them.
  ghost predicate GoodCredentials(cs: seq<Credential>) {
    && (forall c <- cs :: OwnEmail(UsageEmail(c.id)) && c.uuid != "")
    && forall i, j :: 0 <= i < j < |cs| ==> cs[i].id != cs[j].id
  }

  lemma CredentialUsersDiffer(cs: seq<Credential>)
    requires GoodCredentials(cs)
    ensures DistinctEmails(Users(cs)) && forall u <- Users(cs) :: OwnEmail(u.email) && u.id != "" && u.email != LEGACY
    ensures forall c <- cs :: c.revoked ==> forall u <- Users(cs) :: u.email != UsageEmail(c.id)
  {
    assert LEGACY[3] != OWN[3];
    forall c <- cs, d <- cs | UsageEmail(c.id) == UsageEmail(d.id)
      ensures c == d
    {
      Text.CancelLeft(OWN, c.id, d.id);
    }
  }

  function Emails(users: seq<User>): set<string> {
    set u | u in users :: u.email
  }

  lemma {:induction false} FewEmails(users: seq<User>)
    ensures |Emails(users)| <= |users|
  {
    if users != [] {
      FewEmails(users[1..]);
      assert users == [users[0]] + users[1..];
      assert Emails(users) == {users[0].email} + Emails(users[1..]);
    }
  }

  // A core that starts from the file runs exactly the listed users.
  lemma {:induction false} IdsOfListed(first: Client, users: seq<User>)
    requires first.email == Some(LEGACY) && DistinctEmails(users) && forall u <- users :: u.email != LEGACY
    ensures var ids := IdsOf([first] + Listed(users));
      && ids.Keys == {LEGACY} + Emails(users) && ids[LEGACY] == first.id && forall u <- users :: ids[u.email] == u.id
    decreases |users|
  {
    var clients := [first] + Listed(users);
    if users == [] {
      assert clients[..0] == [];
      assert IdsOf(clients[..0]) == map[];
    } else {
      var front, last := users[..|users| - 1], users[|users| - 1];
      IdsOfListed(first, front);
      assert clients[..|clients| - 1] == [first] + Listed(front);
      assert users == front + [last];
      assert Emails(users) == Emails(front) + {last.email};
    }
  }

  // After a reconciliation: what is not the panel's own, and the users.
  function FinalEmails(runtime: map<string, string>, users: seq<User>): set<string> {
    (set e | e in runtime && !OwnEmail(e)) + Emails(users)
  }

  ghost predicate Exact(runtime: map<string, string>, users: seq<User>) {
    && (forall u <- users :: u.email in runtime && runtime[u.email] == u.id)
    && (forall e <- runtime :: OwnEmail(e) ==> exists u <- users :: u.email == e)
  }

  function LegacyId(c: Config): string
    requires Legacy(c.clients) != []
  {
    Legacy(c.clients)[0].id
  }

  ghost predicate RunsLegacy(core: Core) {
    Legacy(core.disk.clients) != [] && LEGACY in core.runtime && core.runtime[LEGACY] == LegacyId(core.disk)
  }

  // A prepared node that one more synchronisation brings in line.
  ghost predicate Steady(core: Core, cs: seq<Credential>) {
    && core.manifest == core.disk && UsageConfig(core.disk, Users(cs)).Ok? && UsageConfig(core.disk, Users(cs)).value.1
    && Readable(core.runtime) && Compatible(core.runtime, Users(cs)) && RunsLegacy(core)
    && |core.runtime.Keys + Emails(Users(cs))| <= LIMIT + 1
  }

  // What a synchronisation that nothing disturbs succeeds on.
  ghost predicate Syncable(core: Core, cs: seq<Credential>, allowRestart: bool) {
    && core.manifest == core.disk && UsageConfig(core.disk, Users(cs)).Ok?
    && if UsageConfig(core.disk, Users(cs)).value.1 then
         (Readable(core.runtime) && Compatible(core.runtime, Users(cs)) && RunsLegacy(core)
          && |FinalEmails(core.runtime, Users(cs))| <= LIMIT + 1)
       else allowRestart && LegacyId(core.disk) != ""
  }

  predicate Reachable(legacyId: string, runtime: map<string, string>, users: seq<User>) {
    LEGACY in runtime && runtime[LEGACY] == legacyId && |FinalEmails(runtime, users)| <= LIMIT + 1
  }

  lemma Smaller<T>(a: set<T>, b: set<T>)
    requires a <= b
    ensures |a| <= |b|
  {
    assert b == a + (b - a);
  }

  lemma SteadyIsSyncable(core: Core, cs: seq<Credential>, allowRestart: bool)
    requires Steady(core, cs)
    ensures Syncable(core, cs, allowRestart)
  {
    Smaller(FinalEmails(core.runtime, Users(cs)), core.runtime.Keys + Emails(Users(cs)));
  }

  // On the way: no other user is touched, none is renamed, none comes that is not wanted.
  ghost predicate Moved(before: map<string, string>, after: map<string, string>, users: seq<User>) {
    && after.Keys <= before.Keys + Emails(users)
    && (forall e :: e in after && e in before ==> after[e] == before[e])
    && (forall e :: e in before && !OwnEmail(e) ==> e in after)
  }

  lemma LegacyIsNotOwn()
    ensures !OwnEmail(LEGACY)
  {
    assert LEGACY[3] != OWN[3];
  }

  lemma MovedIsReadable(before: map<string, string>, after: map<string, string>, cs: seq<Credential>)
    requires GoodCredentials(cs) && Readable(before) && Moved(before, after, Users(cs)) && Compatible(after, Users(cs))
    requires |after| <= LIMIT + 1
    ensures Readable(after)
  {
    CredentialUsersDiffer(cs);
    forall e <- after
      ensures e != "" && after[e] != ""
    {
      if e !in before {
        var u :| u in Users(cs) && u.email == e;
      }
    }
  }

  lemma MovedIsSteady(core: Core, next: Config, after: map<string, string>, cs: seq<Credential>)
    requires GoodCredentials(cs) && Steady(core, cs) && Moved(core.runtime, after, Users(cs))
      && Compatible(after, Users(cs))
    requires next == core.disk || next == UsageConfig(core.disk, Users(cs)).value.0
    ensures Steady(Core(next, next, after), cs)
  {
    var users := Users(cs);
    NextIsPrepared(core.disk, users);
    LegacyIsNotOwn();
    Smaller(after.Keys + Emails(users), core.runtime.Keys + Emails(users));
    Smaller(after.Keys, core.runtime.Keys + Emails(users));
    assert |after| == |after.Keys|;
    MovedIsReadable(core.runtime, after, cs);
  }

  lemma NextIsPrepared(c: Config, users: seq<User>)
    requires OwnUsers(users) && UsageConfig(c, users).Ok?
    ensures var next := UsageConfig(c, users).value.0;
      UsageConfig(next, users) == Ok((next, true)) && Legacy(next.clients) != [] && LegacyId(next) == LegacyId(c)
        && next.clients[0].id == LegacyId(c)
  {
    UsageConfigIsIdempotent(c, users);
    LegacyOfRewritten(c, Legacy(c.clients)[0], users);
  }

  lemma FinalKeys(before: map<string, string>, after: map<string, string>, users: seq<User>)
    requires Reconciled(before, after, users) && forall u <- users :: OwnEmail(u.email)
    ensures after.Keys == FinalEmails(before, users)
  {
    forall e
      ensures e in after <==> e in FinalEmails(before, users)
    {
    }
  }

  // With exactly the users there, it comes down to the legacy user.
  lemma ExactIsVerified(after: map<string, string>, cs: seq<Credential>, legacyId: string)
    requires GoodCredentials(cs) && Exact(after, Users(cs))
    ensures Verified(after, legacyId, cs) <==> LEGACY in after && after[LEGACY] == legacyId
  {
    CredentialUsersDiffer(cs);
    forall c <- cs | !c.removed && c.revoked
      ensures UsageEmail(c.id) !in after
    {
      assert OwnEmail(UsageEmail(c.id));
    }
  }

  // A reconciliation that nothing disturbs ends with exactly the users.
  lemma ReconciledIsExact(before: map<string, string>, after: map<string, string>, cs: seq<Credential>,
                          legacyId: string)
    requires GoodCredentials(cs) && Readable(before) && Reconciled(before, after, Users(cs))
      && Moved(before, after, Users(cs))
    requires Compatible(after, Users(cs))
    ensures Exact(after, Users(cs))
    ensures Verified(after, legacyId, cs) <==> LEGACY in before && before[LEGACY] == legacyId
    ensures Readable(after) <==> |FinalEmails(before, Users(cs))| <= LIMIT + 1
  {
    CredentialUsersDiffer(cs);
    LegacyIsNotOwn();
    ExactIsVerified(after, cs, legacyId);
    LegacyKept(before, after, Users(cs));
    FinalKeys(before, after, Users(cs));
    assert |after| == |after.Keys|;
    if |after| <= LIMIT + 1 {
      MovedIsReadable(before, after, cs);
    }
  }

  lemma LegacyKept(before: map<string, string>, after: map<string, string>, users: seq<User>)
    requires Moved(before, after, users) && forall u <- users :: u.email != LEGACY
    ensures LEGACY in after <==> LEGACY in before
    ensures LEGACY in after ==> after[LEGACY] == before[LEGACY]
  {
    LegacyIsNotOwn();
  }

  // So does a restart from the new file.
  // A core that starts from this file runs exactly the users and the legacy one.
  ghost predicate StartsExactly(c: Config, legacyId: string, cs: seq<Credential>) {
    var started := IdsOf(c.clients);
    Exact(started, Users(cs)) && Verified(started, legacyId, cs) && (Readable(started) <==> legacyId != "")
  }

  lemma RestartedIsExact(c: Config, cs: seq<Credential>)
    requires GoodCredentials(cs) && UsageConfig(c, Users(cs)).Ok?
    ensures var after := IdsOf(UsageConfig(c, Users(cs)).value.0.clients);
      && Exact(after, Users(cs)) && Verified(after, LegacyId(c), cs)
      && (Readable(after) <==> LegacyId(c) != "")
  {
    var users := Users(cs);
    var next := UsageConfig(c, users).value.0;
    CredentialUsersDiffer(cs);
    IdsOfListed(next.clients[0], users);
    assert next.clients == [next.clients[0]] + Listed(users);
    StartedIsExact(IdsOf(next.clients), LegacyId(c), cs);
  }

  lemma StartedIsExact(after: map<string, string>, legacyId: string, cs: seq<Credential>)
    requires GoodCredentials(cs) && |Users(cs)| <= LIMIT && after.Keys == {LEGACY} + Emails(Users(cs))
      && after[LEGACY] == legacyId
    requires forall u <- Users(cs) :: after[u.email] == u.id
    ensures Exact(after, Users(cs)) && Verified(after, legacyId, cs) && (Readable(after) <==> legacyId != "")
  {
    LegacyIsNotOwn();
    forall e <- after | OwnEmail(e)
      ensures exists u <- Users(cs) :: u.email == e
    {
      assert e in Emails(Users(cs));
    }
    ExactIsVerified(after, cs, legacyId);
    FewEmails(Users(cs));
    StartedIsReadable(after, legacyId, cs);
  }

  lemma StartedIsReadable(after: map<string, string>, legacyId: string, cs: seq<Credential>)
    requires GoodCredentials(cs) && |Emails(Users(cs))| <= LIMIT && after.Keys == {LEGACY} + Emails(Users(cs))
      && after[LEGACY] == legacyId
    requires forall u <- Users(cs) :: after[u.email] == u.id
    ensures Readable(after) <==> legacyId != ""
  {
    CredentialUsersDiffer(cs);
    NamedUsersReadable(after, Users(cs));
    assert |after| == |after.Keys|;
  }

  lemma NamedUsersReadable(after: map<string, string>, users: seq<User>)
    requires after.Keys == {LEGACY} + Emails(users) && forall u <- users ::
      after[u.email] == u.id && u.id != "" && OwnEmail(u.email)
    ensures forall e <- after :: e != "" && (e != LEGACY ==> after[e] != "")
  {
    forall e <- after | e != LEGACY
      ensures e != "" && after[e] != ""
    {
      var u :| u in users && u.email == e;
    }
  }

  // ── Users that no credential knows ───────────────────────────────────────

  // Every own user belongs to a credential that is not removed.
  ghost predicate NoStrangers(runtime: map<string, string>, cs: seq<Credential>) {
    forall e <- runtime :: OwnEmail(e) ==> Belongs(e, cs)
  }

  ghost predicate Belongs(e: string, cs: seq<Credential>) {
    exists c <- cs :: !c.removed && UsageEmail(c.id) == e
  }

  // The same of the process and of what a restart would run.
  ghost predicate Familiar(core: Core, cs: seq<Credential>) {
    NoStrangers(core.runtime, cs) && NoStrangers(IdsOf(core.disk.clients), cs)
  }

  // Of a verified process, exactly the unrevoked users run if and only if no
  // stranger does.
  lemma VerifiedIsExactIff(runtime: map<string, string>, cs: seq<Credential>, legacyId: string)
    requires Verified(runtime, legacyId, cs)
    ensures Exact(runtime, Users(cs)) <==> NoStrangers(runtime, cs)
  {
    if Exact(runtime, Users(cs)) {
      ExactHasNoStrangers(runtime, cs);
    }
    if NoStrangers(runtime, cs) {
      forall e <- runtime | OwnEmail(e)
        ensures exists u <- Users(cs) :: u.email == e
      {
        var c :| c in cs && !c.removed && UsageEmail(c.id) == e;
        assert User(UsageEmail(c.id), c.uuid) in Users(cs);
      }
    }
  }

  lemma ExactHasNoStrangers(runtime: map<string, string>, cs: seq<Credential>)
    requires Exact(runtime, Users(cs))
    ensures NoStrangers(runtime, cs) && NoStrangers(runtime, Settled(cs))
  {
    forall e <- runtime | OwnEmail(e)
      ensures Belongs(e, cs) && Belongs(e, Settled(cs))
    {
      var u :| u in Users(cs) && u.email == e;
      var c :| c in cs && !c.removed && !c.revoked && u == User(UsageEmail(c.id), c.uuid);
      var i :| 0 <= i < |cs| && cs[i] == c;
      assert Settled(cs)[i] in Settled(cs);
    }
  }

  lemma MovedHasNoStrangers(before: map<string, string>, after: map<string, string>, cs: seq<Credential>)
    requires NoStrangers(before, cs) && Moved(before, after, Users(cs))
    ensures NoStrangers(after, cs)
  {
    forall e <- after | OwnEmail(e)
      ensures Belongs(e, cs)
    {
      if e !in before {
        var u :| u in Users(cs) && u.email == e;
      }
    }
  }

  lemma NextHasNoStrangers(c: Config, cs: seq<Credential>)
    requires GoodCredentials(cs) && UsageConfig(c, Users(cs)).Ok?
    ensures var ids := IdsOf(UsageConfig(c, Users(cs)).value.0.clients);
      NoStrangers(ids, cs) && NoStrangers(ids, Settled(cs))
  {
    RestartedIsExact(c, cs);
    ExactHasNoStrangers(IdsOf(UsageConfig(c, Users(cs)).value.0.clients), cs);
  }

  // New credentials, revocations and the removal of removed ones bring no stranger.
  lemma StaysFamiliar(core: Core, cs: seq<Credential>, cs': seq<Credential>)
    requires Familiar(core, cs)
    requires forall c <- cs :: !c.removed ==> exists d <- cs' :: !d.removed && d.id == c.id
    ensures Familiar(core, cs')
  {
    forall e | Belongs(e, cs)
      ensures Belongs(e, cs')
    {
      var c :| c in cs && !c.removed && UsageEmail(c.id) == e;
      var d :| d in cs' && !d.removed && d.id == c.id;
      assert UsageEmail(d.id) == e;
    }
  }

  // A process in which nothing is left to add, with the file that it should have.
  ghost predicate Idle(core: Core, cs: seq<Credential>) {
    && core.manifest == core.disk && UsageConfig(core.disk, Users(cs)) == Ok((core.disk, true))
    && Readable(core.runtime) && Verified(core.runtime, LegacyId(core.disk), cs)
  }

  lemma NothingMissing(users: seq<User>, current: map<string, string>)
    ensures (forall u <- users :: u.email in current) ==> Missing(users, current) == []
  {
  }

  // A stranger among the users of an idle process: a synchronisation whose removal
  // does nothing and answers well succeeds and leaves it there.
  lemma StrangerStays(core: Core, cs: seq<Credential>, e: string)
    requires Idle(core, cs) && e in core.runtime && OwnEmail(e) && !Belongs(e, cs)
    ensures !Exact(core.runtime, Users(cs))
  {
    VerifiedIsExactIff(core.runtime, cs, LegacyId(core.disk));
  }

  // ── Activation ───────────────────────────────────────────────────────────

  // A command fails, or takes effect with its reply lost, or succeeds.
  datatype Reply = Failed | ReplyLost | Replied

  // The upload and its validation, the move into place, the write of the manifest.
  datatype Activation = Activation(staged: bool, move: Reply, write: Reply)

  // The earlier file moved back, with the restart where one is due, and the manifest.
  datatype Undo = Undo(move: Reply, write: Reply)

  // What can go wrong around the users: the connection, the first reading of the
  // users, the new file, the database commit and the undoing.
  datatype Faults = Faults(connected: bool, answered: bool, activation: Activation, commit: Reply, undo: Undo)

  const WELL := Faults(true, true, Activation(true, Replied, Replied), Replied, Undo(Replied, Replied))

  datatype Activated = Activated(core: Core, activated: bool, ownership: Option<Config>)

  function AfterActivation(core: Core, next: Config, f: Activation): Activated {
    if !f.staged || f.move.Failed? then Activated(core, false, None)
    else if f.move.ReplyLost? then Activated(core.(disk := next), false, None)
    else if f.write.Failed? then Activated(core.(disk := next), true, None)
    else Activated(core.(disk := next, manifest := next), true, if f.write.Replied? then Some(core.manifest) else None)
  }

  // Only another file is activated.
  function AfterInstall(core: Core, next: Config, f: Activation): Activated {
    if next == core.disk then Activated(core, false, None) else AfterActivation(core, next, f)
  }

  predicate InPlace(core: Core, next: Config, f: Activation) {
    next == core.disk || AfterInstall(core, next, f).ownership.Some?
  }

  // The manifest is taken back only if this run knows what it was.
  function Undone(core: Core, before: Config, ownership: Option<Config>, u: Undo): Core {
    if u.move.Failed? then core
    else if u.move.Replied? && ownership.Some?
      && !u.write.Failed? then core.(disk := before, manifest := ownership.value)
    else core.(disk := before)
  }

  // File and manifest after a whole attempt, its undoing included.
  function AfterAttempt(core: Core, next: Config, restart: bool, f: Faults, ok: bool): Core {
    var a := AfterInstall(core, next, f.activation);
    if a.activated && !ok && (restart || a.ownership.None?) then Undone(a.core, core.disk, a.ownership, f.undo)
      else a.core
  }

  // The four ways: the move is not known to have happened; the manifest was written
  // unnoticed and the file alone is moved back; it was not written and the file
  // stays; or a restart is undone only half.
  predicate Parts(f: Faults, restart: bool, ok: bool) {
    var a, u := f.activation, f.undo;
    && a.staged
    && (a.move.ReplyLost?
        || (a.move.Replied?
            && match a.write
               case ReplyLost => !u.move.Failed?
               case Failed => u.move.Failed?
               case Replied => restart && !ok && (u.move.ReplyLost? || (u.move.Replied? && u.write.Failed?))))
  }

  lemma AttemptPartsIff(core: Core, next: Config, restart: bool, f: Faults, ok: bool)
    requires core.manifest == core.disk && (ok ==> InPlace(core, next, f.activation))
    ensures var t := AfterAttempt(core, next, restart, f, ok);
      t.manifest != t.disk <==> next != core.disk && Parts(f, restart, ok)
  {
  }

  // What a synchronisation finds before it changes anything: the new file, and
  // whether the process can be brought to it while it runs.
  function Looked(core: Core, cs: seq<Credential>, allowRestart: bool, f: Faults): Result<(Config, bool), Reason> {
    var users := Users(cs);
    var next := UsageConfig(core.disk, users);
    if !f.connected then Err(CommandFailed)
    else if core.manifest != core.disk then Err(NotUnchanged)
    else if next.Err? then Err(ConfigRefused(next.error))
    else if !next.value.1 && !allowRestart then Err(PreparationRequired)
    else if next.value.1 && (!f.answered || !Readable(core.runtime)) then Err(CommandFailed)
    else if next.value.1 && !Compatible(core.runtime, users) then Err(RuntimeConflict)
    else Ok(next.value)
  }

  // An attempt that leaves file and manifest apart.
  predicate Apart(core: Core, cs: seq<Credential>, allowRestart: bool, f: Faults, ok: bool) {
    var seen := Looked(core, cs, allowRestart, f);
    seen.Ok? && seen.value.0 != core.disk && Parts(f, !seen.value.1, ok)
  }

  // The attempt would change the file.
  predicate Changes(core: Core, cs: seq<Credential>, allowRestart: bool) {
    var seen := Looked(core, cs, allowRestart, WELL);
    seen.Ok? && seen.value.0 != core.disk
  }

  // A caller can tell beforehand: some failures do it exactly if the file changes.
  lemma CanPartIff(core: Core, cs: seq<Credential>, allowRestart: bool)
    ensures (exists f :: Apart(core, cs, allowRestart, f, false)) <==> Changes(core, cs, allowRestart)
  {
    if Changes(core, cs, allowRestart) {
      var f := WELL.(activation := Activation(true, Replied, ReplyLost));
      assert Looked(core, cs, allowRestart, f) == Looked(core, cs, allowRestart, WELL);
      assert Apart(core, cs, allowRestart, f, false);
    }
  }

  lemma LookedIs(core: Core, cs: seq<Credential>, allowRestart: bool, f: Faults)
    requires Looked(core, cs, allowRestart, f).Ok?
    ensures core.manifest == core.disk
      && UsageConfig(core.disk, Users(cs)) == Ok(Looked(core, cs, allowRestart, f).value)
    ensures var (next, prepared) := Looked(core, cs, allowRestart, f).value;
      && PreparedFor(core, cs) == prepared
        && (prepared ==> Readable(core.runtime) && Compatible(core.runtime, Users(cs)))
      && (prepared || allowRestart) && (Syncable(core, cs, true) <==> Syncable(core, cs, allowRestart))
  {
  }

  // ── Failed attempts ──────────────────────────────────────────────────────

  // Of a steady node, the next attempt that nothing disturbs succeeds exactly if
  // the last one did not leave file and manifest apart.
  lemma RetryIff(before: Core, after: Core, cs: seq<Credential>, allowRestart: bool)
    requires Steady(before, cs) && (after.manifest == after.disk ==> Steady(after, cs))
    ensures Syncable(after, cs, allowRestart) <==> after.manifest == after.disk
  {
    if after.manifest == after.disk {
      SteadyIsSyncable(after, cs, allowRestart);
    }
  }

  // ── Retrying ─────────────────────────────────────────────────────────────

  function WithUsers(runtime: map<string, string>, users: seq<User>): map<string, string> {
    if users == [] then runtime else WithUsers(runtime, users[1..])[users[0].email := users[0].id]
  }

  lemma {:induction false} WithUsersKeys(runtime: map<string, string>, users: seq<User>)
    ensures WithUsers(runtime, users).Keys == runtime.Keys + Emails(users)
  {
    if users != [] {
      WithUsersKeys(runtime, users[1..]);
      assert users == [users[0]] + users[1..];
      assert Emails(users) == {users[0].email} + Emails(users[1..]);
    }
  }

  lemma {:induction false} WithUsersAt(runtime: map<string, string>, users: seq<User>, e: string, id: string)
    requires forall u <- users :: u.email == e ==> u.id == id
    requires e in Emails(users) || (e in runtime && runtime[e] == id)
    ensures e in WithUsers(runtime, users) && WithUsers(runtime, users)[e] == id
  {
    if users != [] && users[0].email != e {
      assert users == [users[0]] + users[1..];
      WithUsersAt(runtime, users[1..], e, id);
    }
  }

  lemma AllAddedIsMoved(runtime: map<string, string>, users: seq<User>)
    requires DistinctEmails(users) && Compatible(runtime, users)
    ensures var after := WithUsers(runtime, users);
      Moved(runtime, after, users) && Compatible(after, users) && after.Keys == runtime.Keys + Emails(users)
  {
    var after := WithUsers(runtime, users);
    WithUsersKeys(runtime, users);
    forall u <- users
      ensures after[u.email] == u.id
    {
      assert u.email in Emails(users);
      WithUsersAt(runtime, users, u.email, u.id);
    }
    forall e | e in runtime
      ensures after[e] == runtime[e]
    {
      WithUsersAt(runtime, users, e, runtime[e]);
    }
  }

  // The bound of a steady node is exact: whatever an unfinished attempt left among
  // the users, the next one that nothing disturbs succeeds, if and only if old and
  // new users together stay within what can be read.
  lemma RetryConvergesIff(core: Core, cs: seq<Credential>, allowRestart: bool)
    requires GoodCredentials(cs) && Syncable(core, cs, allowRestart) && UsageConfig(core.disk, Users(cs)).value.1
    ensures (forall after :: Moved(core.runtime, after, Users(cs)) && Compatible(after, Users(cs)) ==>
               Syncable(core.(runtime := after), cs, allowRestart))
      <==> |core.runtime.Keys + Emails(Users(cs))| <= LIMIT + 1
  {
    var users := Users(cs);
    if |core.runtime.Keys + Emails(users)| <= LIMIT + 1 {
      forall after | Moved(core.runtime, after, users) && Compatible(after, users)
        ensures Syncable(core.(runtime := after), cs, allowRestart)
      {
        MovedIsSteady(core, core.disk, after, cs);
        SteadyIsSyncable(Core(core.disk, core.disk, after), cs, allowRestart);
      }
    } else {
      var after := WithUsers(core.runtime, users);
      CredentialUsersDiffer(cs);
      AllAddedIsMoved(core.runtime, users);
      assert |after| == |after.Keys|;
      assert !Readable(after);
    }
  }

  // One node under its locks. Every command may fail, before or after its effect.
  // Where an attempt is deaf, nothing fails but that removals of users, which
  // answer well, do nothing.
  class Provisioner {
    var core: Core
    var credentials: seq<Credential>
    var error: Option<Reason>
    // Failures so far.
    ghost var disturbed: nat

    constructor (core: Core, credentials: seq<Credential>)
      ensures this.core == core && this.credentials == credentials && error == None && disturbed == 0
    {
      this.core, this.credentials, error, disturbed := core, credentials, None, 0;
    }

    method Command(deaf: bool := false) returns (ok: bool)
      modifies this`disturbed
      ensures if ok then disturbed == old(disturbed) else disturbed == old(disturbed) + 1
      ensures deaf ==> ok
    {
      ok := *;
      ok := ok || deaf;
      if !ok {
        disturbed := disturbed + 1;
      }
    }

    method ReadUsers(deaf: bool := false) returns (r: Option<map<string, string>>)
      modifies this`disturbed
      ensures deaf && Readable(core.runtime) ==> r.Some?
      ensures disturbed >= old(disturbed)
      ensures r.Some? ==> r.value == core.runtime && Readable(core.runtime)
      ensures disturbed == old(disturbed) ==> (r.Some? <==> Readable(core.runtime))
    {
      var ok := Command(deaf);
      r := if ok && Readable(core.runtime) then Some(core.runtime) else None;
    }

    // Adds users; an exit code of zero does not prove that all were added.
    method AddUsers(missing: seq<User>) returns (ok: bool)
      modifies this`core, this`disturbed
      ensures disturbed >= old(disturbed) && (ok || disturbed > old(disturbed))
      ensures core == old(core).(runtime := core.runtime)
      ensures forall e :: e in old(core).runtime ==> e in core.runtime && core.runtime[e] == old(core).runtime[e]
      ensures forall e :: e in core.runtime && e !in old(core).runtime ==> User(e, core.runtime[e]) in missing
      ensures disturbed == old(disturbed) ==> forall u <- missing :: u.email in core.runtime
    {
      var added: nat := 0;
      for i := 0 to |missing|
        invariant core == old(core).(runtime := core.runtime) && added <= i && disturbed == old(disturbed)
        invariant forall e :: e in old(core).runtime ==> e in core.runtime && core.runtime[e] == old(core).runtime[e]
        invariant forall e :: e in core.runtime && e !in old(core).runtime ==> User(e, core.runtime[e]) in missing
        invariant added == i ==> forall u <- missing[..i] :: u.email in core.runtime
      {
        var reached: bool := *;
        if reached {
          if missing[i].email !in core.runtime {
            core := core.(runtime := core.runtime[missing[i].email := missing[i].id]);
          }
          added := added + 1;
        }
      }
      ok := *;
      if !ok || added < |missing| {
        disturbed := disturbed + 1;
      }
    }

    // An exit code of zero does not prove that any was removed, either.
    method RemoveUsers(removed: set<string>, deaf: bool := false) returns (ok: bool)
      modifies this`core, this`disturbed
      ensures deaf ==> ok && core == old(core)
      ensures disturbed >= old(disturbed) && (ok || disturbed > old(disturbed))
      ensures core == old(core).(runtime := core.runtime)
      ensures forall e :: e in core.runtime ==> e in old(core).runtime && core.runtime[e] == old(core).runtime[e]
      ensures forall e :: e in old(core).runtime && e !in core.runtime ==> e in removed
      ensures disturbed == old(disturbed) ==> core.runtime.Keys !! removed
    {
      var reached: set<string> := *;
      if deaf {
        reached := {};
      }
      core := core.(runtime := core.runtime - (removed * reached));
      ok := *;
      ok := ok || deaf;
      if !ok || !(removed <= reached) {
        disturbed := disturbed + 1;
      }
    }

    // Brings the running process to the users, without a restart.
    method Reconcile(current: map<string, string>, users: seq<User>, deaf: bool := false) returns (ok: bool)
      requires current == core.runtime && Compatible(current, users)
      modifies this`core, this`disturbed
      ensures deaf && Missing(users, current) == [] ==> ok && core == old(core)
      ensures disturbed >= old(disturbed) && (ok || disturbed > old(disturbed))
      ensures core == old(core).(runtime := core.runtime)
      ensures Compatible(core.runtime, users) || !DistinctEmails(users)
      ensures forall e :: e in old(core).runtime && !OwnEmail(e) ==>
        e in core.runtime && core.runtime[e] == old(core).runtime[e]
      ensures core.runtime.Keys <= old(core).runtime.Keys + Emails(users)
      ensures forall e :: e in core.runtime && e in old(core).runtime ==> core.runtime[e] == old(core).runtime[e]
      ensures disturbed == old(disturbed) && DistinctEmails(users) ==>
        Reconciled(old(core).runtime, core.runtime, users)
    {
      var missing := Missing(users, current);
      ok := true;
      if missing != [] {
        ok := AddUsers(missing);
        if !ok {
          return;
        }
      }
      var removed := set e | e in current && OwnEmail(e) && !exists u <- users :: u.email == e;
      ghost var between := core.runtime;
      if removed != {} {
        ok := RemoveUsers(removed, deaf);
      }
      forall e <- core.runtime | disturbed == old(disturbed) && OwnEmail(e)
        ensures exists u <- users :: u.email == e
      {
        assert e !in removed;
        if e !in current {
          assert User(e, between[e]) in missing;
        }
      }
    }

    // Moves the new file into place and has the manifest vouch for it.
    method Activate(next: Config, f: Activation) returns (activated: bool, ownership: Option<Config>)
      modifies this`core, this`disturbed
      ensures Activated(core, activated, ownership) == AfterActivation(old(core), next, f)
      ensures disturbed >= old(disturbed) && (ownership.Some? || disturbed > old(disturbed))
    {
      activated, ownership := false, None;
      if !f.staged {
        disturbed := disturbed + 1;
        return;
      }
      if f.move != Failed {
        core := core.(disk := next);
      }
      if f.move != Replied {
        disturbed := disturbed + 1;
        return;
      }
      activated := true;
      var previous := core.manifest;
      if f.write != Failed {
        core := core.(manifest := next);
      }
      if f.write != Replied {
        disturbed := disturbed + 1;
        return;
      }
      ownership := Some(previous);
    }

    method RestartCore(deaf: bool := false) returns (ok: bool)
      modifies this`core, this`disturbed
      ensures deaf ==> ok
      ensures disturbed >= old(disturbed) && (ok || disturbed > old(disturbed))
      ensures core == old(core).(runtime := core.runtime)
      ensures ok ==> core.runtime == IdsOf(core.disk.clients)
      ensures core.runtime in {old(core).runtime, map[], IdsOf(core.disk.clients)}
    {
      // A failed restart leaves the old process, none, or the new one.
      var stopped: bool := *;
      var started: bool := *;
      ok := Command(deaf);
      if ok || started {
        core := core.(runtime := IdsOf(core.disk.clients));
      } else if stopped {
        core := core.(runtime := map[]);
      }
    }

    method ReadAfterRestart(deaf: bool := false) returns (r: Option<map<string, string>>)
      modifies this`disturbed
      ensures deaf && Readable(core.runtime) ==> r.Some?
      ensures disturbed >= old(disturbed)
      ensures disturbed == old(disturbed) ==> (r.Some? <==> Readable(core.runtime))
    {
      r := None;
      for attempt := 0 to 5
        invariant disturbed >= old(disturbed) && r.None?
        invariant (deaf || disturbed == old(disturbed)) && Readable(core.runtime) ==> attempt == 0
      {
        r := ReadUsers(deaf);
        if r.Some? {
          return;
        }
      }
    }

    // Puts the old file back, restarts if the new one was started, and takes the
    // manifest back if it is known to have been written.
    method Restore(before: Config, restart: bool, ownership: Option<Config>, u: Undo) returns (ok: bool)
      modifies this`core, this`disturbed
      ensures disturbed >= old(disturbed) && (ok || disturbed > old(disturbed))
      ensures core == Undone(old(core), before, ownership, u).(runtime := core.runtime)
      ensures !restart || u.move.Failed? ==> core.runtime == old(core).runtime
      ensures restart && u.move.Replied? ==> core.runtime == IdsOf(before.clients)
      ensures core.runtime in {old(core).runtime, map[], IdsOf(before.clients)}
    {
      if u.move != Failed {
        core := core.(disk := before);
        if restart {
          RestartBack(u.move == Replied);
        }
      }
      if u.move == Replied && ownership.Some? && u.write != Failed {
        core := core.(manifest := ownership.value);
      }
      ok := u.move == Replied && (ownership.None? || u.write == Replied);
      if !ok {
        disturbed := disturbed + 1;
      }
    }

    // The restart in the command that moves the file back.
    method RestartBack(answered: bool)
      modifies this`core
      ensures core == old(core).(runtime := core.runtime)
      ensures answered ==> core.runtime == IdsOf(core.disk.clients)
      ensures core.runtime in {old(core).runtime, map[], IdsOf(core.disk.clients)}
    {
      var stopped: bool := *;
      var started: bool := *;
      if answered || started {
        core := core.(runtime := IdsOf(core.disk.clients));
      } else if stopped {
        core := core.(runtime := map[]);
      }
    }

    // Reads the users again and settles the credentials in one transaction.
    method Confirm(legacyId: string, commit: Reply, deaf: bool := false) returns (ok: bool)
      modifies this`disturbed, this`credentials
      ensures disturbed >= old(disturbed)
      ensures credentials == old(credentials)
        || (commit != Failed && credentials == Settled(old(credentials))
           && Verified(core.runtime, legacyId, old(credentials)))
      ensures ok ==>
        Readable(core.runtime) && Verified(core.runtime, legacyId, old(credentials))
        && credentials == Settled(old(credentials))
      ensures disturbed == old(disturbed) ==>
        (ok <==> Readable(core.runtime) && Verified(core.runtime, legacyId, old(credentials)))
      ensures deaf && Readable(core.runtime) && Verified(core.runtime, legacyId, old(credentials)) ==>
        ok == commit.Replied? && credentials == if commit.Failed? then old(credentials) else Settled(old(credentials))
    {
      var verified := ReadUsers(deaf);
      if verified.None? || !Verified(verified.value, legacyId, credentials) {
        return false;
      }
      if commit != Failed {
        credentials := Settled(credentials);
      }
      ok := commit == Replied;
      if !ok {
        disturbed := disturbed + 1;
      }
    }

    // What a synchronisation finds before it changes anything.
    method Inspect(allowRestart: bool, f: Faults) returns (r: Result<(Config, bool), Reason>)
      modifies this`disturbed
      ensures r == Looked(core, credentials, allowRestart, f)
      ensures disturbed >= old(disturbed)
      ensures disturbed == old(disturbed) && Syncable(core, credentials, allowRestart) ==> r.Ok?
    {
      if !f.connected {
        disturbed := disturbed + 1;
        return Err(CommandFailed);
      }
      if core.manifest != core.disk {
        return Err(NotUnchanged);
      }
      var users := Users(credentials);
      var next := UsageConfig(core.disk, users);
      if next.Err? {
        return Err(ConfigRefused(next.error));
      }
      if !next.value.1 && !allowRestart {
        return Err(PreparationRequired);
      }
      if next.value.1 {
        if !f.answered {
          disturbed := disturbed + 1;
          return Err(CommandFailed);
        }
        if !Readable(core.runtime) {
          return Err(CommandFailed);
        }
        if !Compatible(core.runtime, users) {
          return Err(RuntimeConflict);
        }
      }
      r := Ok(next.value);
    }

    // The new file, if it is another.
    method Install(next: Config, f: Activation) returns (done: bool, activated: bool, ownership: Option<Config>)
      modifies this`core, this`disturbed
      ensures disturbed >= old(disturbed) && (done || disturbed > old(disturbed))
      ensures Activated(core, activated, ownership) == AfterInstall(old(core), next, f)
      ensures done == InPlace(old(core), next, f)
    {
      done, activated, ownership := true, false, None;
      if next != core.disk {
        activated, ownership := Activate(next, f);
        done := ownership.Some?;
      }
    }

    method ReconcileAll(legacyId: string, deaf: bool) returns (ok: bool)
      requires GoodCredentials(credentials) && Readable(core.runtime) && Compatible(core.runtime, Users(credentials))
      modifies this`core, this`disturbed
      ensures disturbed >= old(disturbed) && core == old(core).(runtime := core.runtime)
      ensures Moved(old(core).runtime, core.runtime, Users(credentials)) && Compatible(core.runtime, Users(credentials))
      ensures disturbed == old(disturbed) ==> ok && Exact(core.runtime, Users(credentials))
      ensures disturbed == old(disturbed) ==>
        (Readable(core.runtime) && Verified(core.runtime, legacyId, credentials) <==>
           Reachable(legacyId, old(core).runtime, Users(credentials)))
      ensures deaf && Missing(Users(credentials), old(core).runtime) == [] ==> ok && core == old(core)
    {
      ghost var before := core.runtime;
      ok := ReconcileOnce(deaf);
      if disturbed == old(disturbed) {
        ReconciledIsExact(before, core.runtime, credentials, legacyId);
      }
    }

    method ReconcileOnce(deaf: bool) returns (ok: bool)
      requires GoodCredentials(credentials) && Compatible(core.runtime, Users(credentials))
      modifies this`core, this`disturbed
      ensures disturbed >= old(disturbed) && core == old(core).(runtime := core.runtime)
      ensures Moved(old(core).runtime, core.runtime, Users(credentials)) && Compatible(core.runtime, Users(credentials))
      ensures disturbed == old(disturbed) ==> ok && Reconciled(old(core).runtime, core.runtime, Users(credentials))
      ensures deaf && Missing(Users(credentials), old(core).runtime) == [] ==> ok && core == old(core)
    {
      CredentialUsersDiffer(credentials);
      ok := Reconcile(core.runtime, Users(credentials), deaf);
    }

    method RestartAll(legacyId: string, deaf: bool) returns (ok: bool)
      requires StartsExactly(core.disk, legacyId, credentials)
      modifies this`core, this`disturbed
      ensures disturbed >= old(disturbed) && core == old(core).(runtime := core.runtime)
      ensures core.runtime in {old(core).runtime, map[], IdsOf(core.disk.clients)}
      ensures disturbed == old(disturbed) ==> (ok <==> legacyId != "")
      ensures ok || disturbed == old(disturbed) ==> Exact(core.runtime, Users(credentials))
      ensures disturbed == old(disturbed) ==>
        (Readable(core.runtime) && Verified(core.runtime, legacyId, credentials) <==> legacyId != "")
      ensures deaf && legacyId != "" ==> ok && Readable(core.runtime) && Verified(core.runtime, legacyId, credentials)
    {
      ok := RestartRead(deaf);
    }

    method RestartRead(deaf: bool := false) returns (ok: bool)
      modifies this`core, this`disturbed
      ensures deaf && Readable(IdsOf(core.disk.clients)) ==> ok
      ensures disturbed >= old(disturbed) && core == old(core).(runtime := core.runtime)
      ensures core.runtime in {old(core).runtime, map[], IdsOf(core.disk.clients)}
      ensures ok || disturbed == old(disturbed) ==> core.runtime == IdsOf(core.disk.clients)
      ensures disturbed == old(disturbed) ==> (ok <==> Readable(core.runtime))
    {
      ok := RestartCore(deaf);
      if ok {
        var read := ReadAfterRestart(deaf);
        ok := read.Some?;
      }
    }

    // What the credentials or the process may look like after a try to reach them.
    ghost predicate Tried(restart: bool, before: Core, after: Core, cs: seq<Credential>, cs': seq<Credential>,
                          legacyId: string) {
      && (cs' == cs || (cs' == Settled(cs) && Verified(after.runtime, legacyId, cs)))
      && (if restart then after.runtime in {before.runtime, map[], IdsOf(after.disk.clients)}
          else Moved(before.runtime, after.runtime, Users(cs)) && Compatible(after.runtime, Users(cs)))
    }

    // Brings the core to the users, by a restart from the new file or while it
    // runs, and confirms it.
    method Reach(restart: bool, legacyId: string, commit: Reply, deaf: bool) returns (ok: bool)
      requires GoodCredentials(credentials) && (restart ==> StartsExactly(core.disk, legacyId, credentials))
      requires !restart ==> Readable(core.runtime) && Compatible(core.runtime, Users(credentials))
      modifies this`core, this`disturbed, this`credentials
      ensures disturbed >= old(disturbed) && core == old(core).(runtime := core.runtime)
      ensures Tried(restart, old(core), core, old(credentials), credentials, legacyId)
      ensures credentials == old(credentials) || commit != Failed
      ensures ok ==> Verified(core.runtime, legacyId, old(credentials)) && credentials == Settled(old(credentials))
      ensures ok && restart ==> Exact(core.runtime, Users(old(credentials)))
      ensures disturbed == old(disturbed) ==>
        (ok <==> if restart then legacyId != "" else Reachable(legacyId, old(core).runtime, Users(old(credentials))))
      ensures disturbed == old(disturbed) && ok ==> Exact(core.runtime, Users(old(credentials)))
      ensures deaf && !restart && commit.Replied? && Verified(old(core).runtime, legacyId, old(credentials)) ==>
        ok && core == old(core)
      ensures deaf && restart && commit.ReplyLost? && legacyId != "" ==> !ok && credentials == Settled(old(credentials))
    {
      NothingMissing(Users(credentials), core.runtime);
      if restart {
        ok := RestartAll(legacyId, deaf);
      } else {
        ok := ReconcileAll(legacyId, deaf);
      }
      if ok {
        ok := Confirm(legacyId, commit, deaf);
      }
    }

    // Undoes a new file that was started, or that the manifest is not known to
    // vouch for.
    method Handle(before: Config, restart: bool, activated: bool, ownership: Option<Config>, u: Undo)
      returns (restored: bool)
      modifies this`core, this`disturbed
      ensures disturbed >= old(disturbed) && (restored || disturbed > old(disturbed))
      ensures core.runtime in {old(core).runtime, map[], IdsOf(before.clients)}
        && (!restart ==> core.runtime == old(core).runtime)
      ensures activated && restart && u.move.Replied? ==> core.runtime == IdsOf(before.clients)
      ensures !(activated && (restart || ownership.None?)) ==> core == old(core)
      ensures core.(runtime := old(core).runtime) ==
        if activated && (restart || ownership.None?) then Undone(old(core), before, ownership, u) else old(core)
    {
      restored := true;
      if activated && (restart || ownership.None?) {
        restored := Restore(before, restart, ownership, u);
      }
    }

    // f: what goes wrong around the users, whatever it is; where an attempt is deaf,
    // nothing else does, but that removals of users, which answer well, do nothing.
    method Sync(allowRestart: bool, f: Faults, deaf: bool := false) returns (r: Result<nat, Reason>)
      requires GoodCredentials(credentials)
      modifies this
      ensures disturbed >= old(disturbed)
      ensures r.Ok? ==>
        Synced(old(core), core, old(credentials)) && credentials == Settled(old(credentials)) && error == None
      // Whatever was swallowed, the own users are exact if no stranger was there, or
      // the core was restarted, or nothing was swallowed.
      ensures r.Ok?
        && (NoStrangers(old(core).runtime, old(credentials)) || !PreparedFor(old(core), old(credentials))
            || disturbed == old(disturbed))
        ==> Exact(core.runtime, Users(old(credentials)))
      // No stranger comes, but by a commit whose reply is lost on the way to a
      // restart, of users that are still in the file or the process.
      ensures Familiar(old(core), old(credentials))
        && (r.Ok? || credentials == old(credentials) || PreparedFor(old(core), old(credentials))
            || Familiar(old(core), Settled(old(credentials))))
        ==> Familiar(core, credentials)
      ensures credentials == old(credentials) || (f.commit != Failed && credentials == Settled(old(credentials)))
      ensures disturbed == old(disturbed) ==> (r.Ok? <==> Syncable(old(core), old(credentials), allowRestart))
      ensures old(core).manifest != old(core).disk ==> r.Err? && core == old(core) && credentials == old(credentials)
      // File and manifest come apart exactly so.
      ensures old(core).manifest == old(core).disk ==>
        (core.manifest != core.disk <==> Apart(old(core), old(credentials), allowRestart, f, r.Ok?))
      ensures Steady(old(core), old(credentials)) ==>
        (Syncable(core, old(credentials), allowRestart) <==>
           !Apart(old(core), old(credentials), allowRestart, f, r.Ok?))
      ensures Steady(old(core), old(credentials)) && core.manifest == core.disk ==> Steady(core, old(credentials))
      ensures deaf && f == WELL && Idle(old(core), old(credentials)) ==> r.Ok? && core == old(core)
      ensures deaf && CommitIsLost(old(core), old(credentials), allowRestart, f) ==>
        r.Err? && credentials == Settled(old(credentials)) && core.runtime == IdsOf(old(core).disk.clients)
    {
      ghost var before, cs := core, credentials;
      r := SyncOnce(allowRestart, f, deaf);
      if Steady(before, cs) {
        RetryIff(before, core, cs, allowRestart);
      }
      error := if r.Ok? then None else Some(r.error);
    }

    method SyncOnce(allowRestart: bool, f: Faults, deaf: bool) returns (r: Result<nat, Reason>)
      requires GoodCredentials(credentials)
      modifies this`core, this`disturbed, this`credentials
      ensures disturbed >= old(disturbed)
      ensures r.Ok? ==> Synced(old(core), core, old(credentials)) && credentials == Settled(old(credentials))
      ensures r.Ok?
        && (NoStrangers(old(core).runtime, old(credentials)) || !PreparedFor(old(core), old(credentials))
            || disturbed == old(disturbed))
        ==> Exact(core.runtime, Users(old(credentials)))
      ensures Familiar(old(core), old(credentials))
        && (r.Ok? || credentials == old(credentials) || PreparedFor(old(core), old(credentials))
            || Familiar(old(core), Settled(old(credentials))))
        ==> Familiar(core, credentials)
      ensures credentials == old(credentials) || (f.commit != Failed && credentials == Settled(old(credentials)))
      ensures disturbed == old(disturbed) ==> (r.Ok? <==> Syncable(old(core), old(credentials), allowRestart))
      ensures old(core).manifest != old(core).disk ==> r.Err? && core == old(core) && credentials == old(credentials)
      ensures old(core).manifest == old(core).disk ==>
        (core.manifest != core.disk <==> Apart(old(core), old(credentials), allowRestart, f, r.Ok?))
      ensures Steady(old(core), old(credentials)) && core.manifest == core.disk ==> Steady(core, old(credentials))
      ensures deaf && f == WELL && Idle(old(core), old(credentials)) ==> r.Ok? && core == old(core)
      ensures deaf && CommitIsLost(old(core), old(credentials), allowRestart, f) ==>
        r.Err? && credentials == Settled(old(credentials)) && core.runtime == IdsOf(old(core).disk.clients)
    {
      var seen := Inspect(allowRestart, f);
      if seen.Err? {
        r := Err(seen.error);
      } else {
        LookedIs(core, credentials, allowRestart, f);
        r := Carry(seen.value.0, !seen.value.1, f, deaf);
      }
    }

    method Carry(next: Config, restart: bool, f: Faults, deaf: bool) returns (r: Result<nat, Reason>)
      requires GoodCredentials(credentials) && core.manifest == core.disk
      requires UsageConfig(core.disk, Users(credentials)) == Ok((next, !restart))
      requires !restart ==> Readable(core.runtime) && Compatible(core.runtime, Users(credentials))
      modifies this`core, this`disturbed, this`credentials
      ensures disturbed >= old(disturbed)
      ensures r.Ok? ==> Synced(old(core), core, old(credentials)) && credentials == Settled(old(credentials))
      ensures r.Ok? && (NoStrangers(old(core).runtime, old(credentials)) || restart || disturbed == old(disturbed))
        ==> Exact(core.runtime, Users(old(credentials)))
      ensures Familiar(old(core), old(credentials))
        && (r.Ok? || credentials == old(credentials) || !restart || Familiar(old(core), Settled(old(credentials))))
        ==> Familiar(core, credentials)
      ensures credentials == old(credentials) || (f.commit != Failed && credentials == Settled(old(credentials)))
      ensures disturbed == old(disturbed) ==> (r.Ok? <==> Syncable(old(core), old(credentials), true))
      ensures core.manifest != core.disk <==> next != old(core).disk && Parts(f, restart, r.Ok?)
      ensures Steady(old(core), old(credentials)) && core.manifest == core.disk ==> Steady(core, old(credentials))
      ensures deaf && f == WELL && Idle(old(core), old(credentials)) && next == old(core).disk && !restart ==>
        r.Ok? && core == old(core)
      ensures deaf && restart && LegacyId(old(core).disk) != "" && next != old(core).disk && LosesCommit(f) ==>
        r.Err? && credentials == Settled(old(credentials)) && core.runtime == IdsOf(old(core).disk.clients)
    {
      ghost var before, cs := core, credentials;
      StartsFrom(core.disk, next, credentials);
      r := ApplyOrUndo(next, LegacyId(core.disk), restart, f, deaf);
      AfterCarry(before, core, next, cs, credentials, restart, r.Ok?, disturbed == old(disturbed));
      AttemptPartsIff(before, next, restart, f, r.Ok?);
    }

    method ApplyOrUndo(next: Config, legacyId: string, restart: bool, f: Faults, deaf: bool)
      returns (r: Result<nat, Reason>)
      requires GoodCredentials(credentials) && core.manifest == core.disk
      requires restart ==> StartsExactly(next, legacyId, credentials)
      requires !restart ==> Readable(core.runtime) && Compatible(core.runtime, Users(credentials))
      modifies this`core, this`disturbed, this`credentials
      ensures disturbed >= old(disturbed)
      ensures core.(runtime := old(core).runtime) == AfterAttempt(old(core), next, restart, f, r.Ok?)
      ensures r.Ok? ==> InPlace(old(core), next, f.activation) && core.disk == next && core.manifest == next
      ensures r.Ok? ==> Verified(core.runtime, legacyId, old(credentials)) && credentials == Settled(old(credentials))
      ensures r.Ok? && (restart || disturbed == old(disturbed)) ==> Exact(core.runtime, Users(old(credentials)))
      ensures Carried(next, legacyId, restart, old(core), core, old(credentials), credentials)
      ensures credentials == old(credentials) || (f.commit != Failed && credentials == Settled(old(credentials)))
      ensures disturbed == old(disturbed) ==>
        (r.Ok? <==> if restart then legacyId != "" else Reachable(legacyId, old(core).runtime, Users(old(credentials))))
      ensures deaf && f == WELL && !restart && next == old(core).disk
        && Verified(old(core).runtime, legacyId, old(credentials))
        ==> r.Ok? && core == old(core)
      ensures deaf && restart && legacyId != "" && next != old(core).disk && LosesCommit(f) ==>
        r.Err? && credentials == Settled(old(credentials)) && core.runtime == IdsOf(old(core).disk.clients)
    {
      ghost var start, cs := core, credentials;
      var before := core.disk;
      var ok, activated, ownership := Apply(next, legacyId, restart, f, deaf);
      if ok {
        return Ok(|Users(credentials)|);
      }
      var restored := TakeBack(before, next, legacyId, restart, activated, ownership, f, start, cs);
      return Err(if restored then CommandFailed else RollbackFailed);
    }

    method TakeBack(before: Config, ghost next: Config, ghost legacyId: string, restart: bool, activated: bool,
                    ownership: Option<Config>, f: Faults, ghost start: Core, ghost cs: seq<Credential>) returns (restored: bool)
      requires before == start.disk && Carried(next, legacyId, restart, start, core, cs, credentials)
      requires credentials != cs && activated ==> ownership.Some?
      requires Activated(core.(runtime := start.runtime), activated, ownership) == AfterInstall(start, next,
        f.activation)
      modifies this`core, this`disturbed
      ensures disturbed >= old(disturbed)
      ensures core.(runtime := start.runtime) == AfterAttempt(start, next, restart, f, false)
      ensures Carried(next, legacyId, restart, start, core, cs, credentials)
      ensures activated && restart && f.undo.move.Replied? ==> core.runtime == IdsOf(before.clients)
    {
      ghost var reached := core;
      restored := Handle(before, restart, activated, ownership, f.undo);
      UndoneIsCarried(next, legacyId, restart, start, reached, core, cs, credentials, activated, ownership);
    }

    method Apply(next: Config, legacyId: string, restart: bool, f: Faults, deaf: bool)
      returns (ok: bool, activated: bool, ownership: Option<Config>)
      requires GoodCredentials(credentials) && core.manifest == core.disk
      requires restart ==> StartsExactly(next, legacyId, credentials)
      requires !restart ==> Readable(core.runtime) && Compatible(core.runtime, Users(credentials))
      modifies this`core, this`disturbed, this`credentials
      ensures disturbed >= old(disturbed)
      ensures Activated(core.(runtime := old(core).runtime), activated, ownership) == AfterInstall(old(core), next,
        f.activation)
      ensures ok ==> InPlace(old(core), next, f.activation) && core.disk == next && core.manifest == next
      ensures ok ==> Verified(core.runtime, legacyId, old(credentials)) && credentials == Settled(old(credentials))
      ensures ok && (restart || disturbed == old(disturbed)) ==> Exact(core.runtime, Users(old(credentials)))
      ensures Carried(next, legacyId, restart, old(core), core, old(credentials), credentials)
      ensures credentials == old(credentials)
        || (f.commit != Failed && credentials == Settled(old(credentials)) && core.disk == next
           && (activated ==> ownership.Some?))
      ensures disturbed == old(disturbed) ==>
        (ok <==> if restart then legacyId != "" else Reachable(legacyId, old(core).runtime, Users(old(credentials))))
      ensures deaf && f == WELL && !restart && next == old(core).disk
        && Verified(old(core).runtime, legacyId, old(credentials))
        ==> ok && core == old(core)
      ensures deaf && restart && legacyId != "" && next != old(core).disk && LosesCommit(f) ==>
        !ok && activated && credentials == Settled(old(credentials))
    {
      ghost var core0 := core;
      ok, activated, ownership := Install(next, f.activation);
      if ok {
        ok := ReachIn(core0.disk, next, legacyId, restart, f.commit, deaf);
      }
    }

    // The new file is in place.
    method ReachIn(ghost before: Config, next: Config, legacyId: string, restart: bool, commit: Reply, deaf: bool)
      returns (ok: bool)
      requires GoodCredentials(credentials) && core.manifest == core.disk == next
      requires restart ==> StartsExactly(next, legacyId, credentials)
      requires !restart ==> Readable(core.runtime) && Compatible(core.runtime, Users(credentials))
      modifies this`core, this`disturbed, this`credentials
      ensures disturbed >= old(disturbed) && core == old(core).(runtime := core.runtime)
      ensures ok ==> Verified(core.runtime, legacyId, old(credentials)) && credentials == Settled(old(credentials))
      ensures ok && (restart || disturbed == old(disturbed)) ==> Exact(core.runtime, Users(old(credentials)))
      ensures Carried(next, legacyId, restart, Core(before, before, old(core).runtime), core, old(credentials),
        credentials)
      ensures credentials == old(credentials) || (commit != Failed && credentials == Settled(old(credentials)))
      ensures disturbed == old(disturbed) ==>
        (ok <==> if restart then legacyId != "" else Reachable(legacyId, old(core).runtime, Users(old(credentials))))
      ensures deaf && commit.Replied? && !restart && Verified(old(core).runtime, legacyId, old(credentials)) ==>
        ok && core == old(core)
      ensures deaf && commit.ReplyLost? && restart && legacyId != "" ==> !ok && credentials == Settled(old(credentials))
    {
      ok := Reach(restart, legacyId, commit, deaf);
    }
  }

  // All goes well but for the reply to the commit.
  predicate LosesCommit(f: Faults) {
    f == WELL.(commit := ReplyLost)
  }

  predicate CommitIsLost(core: Core, cs: seq<Credential>, allowRestart: bool, f: Faults) {
    && LosesCommit(f) && Changes(core, cs, allowRestart) && !PreparedFor(core, cs) && LegacyId(core.disk) != ""
  }

  // A success after which a stranger still runs.
  method StrangerSurvives(p: Provisioner, e: string, allowRestart: bool) returns (r: Result<nat, Reason>)
    requires GoodCredentials(p.credentials) && Idle(p.core, p.credentials)
    requires e in p.core.runtime && OwnEmail(e) && !Belongs(e, p.credentials)
    modifies p
    ensures r.Ok? && p.core == old(p.core) && !Exact(p.core.runtime, Users(old(p.credentials)))
  {
    StrangerStays(p.core, p.credentials, e);
    r := p.Sync(allowRestart, WELL, true);
  }

  // A revoked user that the file still lists becomes a stranger: the commit of the
  // restarted core takes effect, its reply is lost, and the earlier file is started
  // again.
  method CommitBringsStranger(p: Provisioner, c: Credential) returns (r: Result<nat, Reason>)
    requires GoodCredentials(p.credentials) && p.core.manifest == p.core.disk && Familiar(p.core, p.credentials)
    requires UsageConfig(p.core.disk, Users(p.credentials)).Ok? && !PreparedFor(p.core, p.credentials)
      && LegacyId(p.core.disk) != ""
    requires c in p.credentials && c.revoked && !c.removed && UsageEmail(c.id) in IdsOf(p.core.disk.clients)
    modifies p
    ensures r.Err? && UsageEmail(c.id) in p.core.runtime && !Familiar(p.core, p.credentials)
  {
    RevokedIsUnlisted(p.core.disk, p.credentials, c);
    SettledIsStrange(p.credentials, c);
    r := p.Sync(true, WELL.(commit := ReplyLost), true);
  }

  lemma RevokedIsUnlisted(config: Config, cs: seq<Credential>, c: Credential)
    requires GoodCredentials(cs) && UsageConfig(config, Users(cs)).Ok? && c in cs && c.revoked
    ensures UsageEmail(c.id) !in IdsOf(UsageConfig(config, Users(cs)).value.0.clients)
  {
    RestartedIsExact(config, cs);
    CredentialUsersDiffer(cs);
  }

  lemma SettledIsStrange(cs: seq<Credential>, c: Credential)
    requires GoodCredentials(cs) && c in cs && c.revoked && !c.removed
    ensures OwnEmail(UsageEmail(c.id)) && !Belongs(UsageEmail(c.id), Settled(cs))
  {
    forall d <- Settled(cs) | !d.removed
      ensures UsageEmail(d.id) != UsageEmail(c.id)
    {
      var i :| 0 <= i < |cs| && Settled(cs)[i] == d;
      assert cs[i] != c;
      if UsageEmail(d.id) == UsageEmail(c.id) {
        Text.CancelLeft(OWN, d.id, c.id);
      }
    }
  }

  // Any file that can be prepared gives such a process.
  lemma StrangersArePossible(c: Config, e: string)
    requires UsageConfig(c, []).Ok? && LegacyId(c) != "" && OwnEmail(e)
    ensures var next := UsageConfig(c, []).value.0;
      var core := Core(next, next, map[LEGACY := LegacyId(c), e := "stranger"]);
      Idle(core, []) && !Belongs(e, [])
  {
    assert Users([]) == [];
    NextIsPrepared(c, []);
    PairIsVerified(LegacyId(c), e);
  }

  lemma PairIsVerified(legacyId: string, e: string)
    requires legacyId != "" && OwnEmail(e)
    ensures var runtime := map[LEGACY := legacyId, e := "stranger"];
      Readable(runtime) && Verified(runtime, legacyId, [])
  {
    LegacyIsNotOwn();
    assert Users([]) == [];
    PairIsReadable(map[LEGACY := legacyId, e := "stranger"], e);
  }

  lemma PairIsReadable(runtime: map<string, string>, e: string)
    requires runtime.Keys == {LEGACY, e} && e != "" && runtime[LEGACY] != "" && runtime[e] != ""
    ensures Readable(runtime)
  {
    assert |runtime| == |runtime.Keys|;
  }

  // The files and processes that an attempt can leave, whatever fails.
  ghost predicate Carried(next: Config, legacyId: string, restart: bool, before: Core, after: Core, cs: seq<Credential>,
                          cs': seq<Credential>)
  {
    && after.disk in {before.disk, next}
    && (cs' == cs || (cs' == Settled(cs) && (restart || (after.disk == next && Verified(after.runtime, legacyId, cs)))))
    && (if restart then after.runtime in {before.runtime, map[], IdsOf(before.disk.clients), IdsOf(next.clients)}
        else Moved(before.runtime, after.runtime, Users(cs)) && Compatible(after.runtime, Users(cs)))
  }

  lemma UndoneIsCarried(next: Config, legacyId: string, restart: bool, before: Core, reached: Core, after: Core,
                        cs: seq<Credential>, cs': seq<Credential>, activated: bool, ownership: Option<Config>)
    requires Carried(next, legacyId, restart, before, reached, cs, cs')
    requires cs' != cs && activated ==> ownership.Some?
    requires after.disk in {reached.disk, before.disk} && (restart || after.runtime == reached.runtime)
    requires after.runtime in {reached.runtime, map[], IdsOf(before.disk.clients)}
    requires !(activated && (restart || ownership.None?)) ==> after == reached
    ensures Carried(next, legacyId, restart, before, after, cs, cs')
  {
  }

  predicate PreparedFor(core: Core, cs: seq<Credential>) {
    UsageConfig(core.disk, Users(cs)).Ok? && UsageConfig(core.disk, Users(cs)).value.1
  }

  lemma CarriedIsExact(before: Core, after: Core, cs: seq<Credential>, restart: bool, ok: bool)
    requires ok ==> Synced(before, after, cs)
    requires !restart ==> Moved(before.runtime, after.runtime, Users(cs))
    ensures ok && !restart && NoStrangers(before.runtime, cs) ==> Exact(after.runtime, Users(cs))
  {
    if ok && !restart && NoStrangers(before.runtime, cs) {
      MovedHasNoStrangers(before.runtime, after.runtime, cs);
      VerifiedIsExactIff(after.runtime, cs, LegacyId(before.disk));
    }
  }

  lemma CarriedIsFamiliar(before: Core, after: Core, cs: seq<Credential>, cs': seq<Credential>, restart: bool, ok: bool)
    requires GoodCredentials(cs) && UsageConfig(before.disk, Users(cs)).Ok? && Familiar(before, cs)
    requires Carried(UsageConfig(before.disk, Users(cs)).value.0, LegacyId(before.disk), restart, before, after, cs,
      cs')
    requires ok ==> Synced(before, after, cs) && cs' == Settled(cs) && (restart ==> Exact(after.runtime, Users(cs)))
    requires ok || cs' == cs || !restart || Familiar(before, Settled(cs))
    ensures Familiar(after, cs')
  {
    NextHasNoStrangers(before.disk, cs);
    if restart && !ok && cs' != cs {
      assert cs' == Settled(cs);
    } else if cs' != cs || ok {
      if !restart {
        MovedHasNoStrangers(before.runtime, after.runtime, cs);
        VerifiedIsExactIff(after.runtime, cs, LegacyId(before.disk));
      }
      ExactHasNoStrangers(after.runtime, cs);
    } else if !restart {
      MovedHasNoStrangers(before.runtime, after.runtime, cs);
    }
  }

  // What any attempt keeps, a failed one on a steady node included.
  lemma AfterCarry(before: Core, after: Core, next: Config, cs: seq<Credential>, cs': seq<Credential>, restart: bool,
                   ok: bool, calm: bool)
    requires GoodCredentials(cs) && UsageConfig(before.disk, Users(cs)) == Ok((next, !restart))
      && before.manifest == before.disk
    requires !restart ==> Readable(before.runtime) && Compatible(before.runtime, Users(cs))
    requires Carried(next, LegacyId(before.disk), restart, before, after, cs, cs')
    requires ok ==> after.disk == next && after.manifest == next && Verified(after.runtime, LegacyId(before.disk), cs)
    requires ok ==> cs' == Settled(cs) && (restart ==> Exact(after.runtime, Users(cs)))
    requires calm ==>
      (ok <==>
         if restart then LegacyId(before.disk) != "" else Reachable(LegacyId(before.disk), before.runtime, Users(cs)))
    ensures ok ==> Synced(before, after, cs)
    ensures ok && !restart && NoStrangers(before.runtime, cs) ==> Exact(after.runtime, Users(cs))
    ensures Familiar(before, cs) && (ok || cs' == cs || !restart || Familiar(before, Settled(cs))) ==>
      Familiar(after, cs')
    ensures after.manifest == after.disk && Steady(before, cs) ==> Steady(after, cs)
    ensures calm ==> (ok <==> Syncable(before, cs, true))
  {
    CarriedIsExact(before, after, cs, restart, ok);
    if Familiar(before, cs) && (ok || cs' == cs || !restart || Familiar(before, Settled(cs))) {
      CarriedIsFamiliar(before, after, cs, cs', restart, ok);
    }
    if after.manifest == after.disk && Steady(before, cs) {
      MovedIsSteady(before, after.disk, after.runtime, cs);
    }
  }

  lemma StartsFrom(c: Config, next: Config, cs: seq<Credential>)
    requires GoodCredentials(cs) && UsageConfig(c, Users(cs)).Ok? && UsageConfig(c, Users(cs)).value.0 == next
    ensures StartsExactly(next, LegacyId(c), cs)
  {
    RestartedIsExact(c, cs);
  }

  // File and manifest are the new ones, the legacy user is the old one, and the
  // process was seen with every user and without any that was revoked.
  ghost predicate Synced(before: Core, after: Core, cs: seq<Credential>) {
    && UsageConfig(before.disk, Users(cs)).Ok?
    && after.disk == UsageConfig(before.disk, Users(cs)).value.0 && after.manifest == after.disk
    && Verified(after.runtime, LegacyId(before.disk), cs)
  }

  predicate DistinctEmails(users: seq<User>) {
    forall u <- users, v <- users :: u.email == v.email ==> u == v
  }

  function Missing(users: seq<User>, current: map<string, string>): (r: seq<User>)
    ensures forall u :: u in r <==> u in users && u.email !in current
  {
    if users == [] then [] else (if users[0].email in current then [] else [users[0]]) + Missing(users[1..], current)
  }
}
