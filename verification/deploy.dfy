/**
 * The transactional deployment of one node: entry host, optional chain exit
 * host, certificate pair, firewall rules, ownership manifests and the database
 * commit (deployExclusive and its helpers in node-deploy.service.ts).
 */
module NodeDeploy {
  import opened Common
  import opened RemoteHost
  import opened CertPush

  datatype Plan = Plan(
    config: Text, unit: Text, manifest: Text, rules: seq<Rule>, retired: seq<Rule>,
    managedCert: bool, newCert: Text, newKey: Text, staged: bool,
    chain: bool, exitConfig: Text, exitUnit: Text, exitManifest: Text, exitRule: Rule)

  datatype FirewallChange = FirewallChange(rule: Rule, added: bool)

  // What is kept about a deployed chain exit until the entry side is decided.
  datatype ExitDeployment = ExitDeployment(rollback: RollbackPoint, firewallAdded: bool, previous: File)

  datatype Outcome = Returned(success: bool, rollbackFailed: bool) | Threw(rollbackFailed: bool)

  // How the guarded block ends.
  datatype Attempted = Done(active: bool) | NotInstalled | Raised(thrown: Thrown)

  function AddedRules(changes: seq<FirewallChange>): set<Rule> {
    set i | 0 <= i < |changes| && changes[i].added :: changes[i].rule
  }

  // A rollback point can bring the service back, or it is back; before the
  // point was used (`spent`) nothing but backups differs at all.
  ghost predicate FilesCovered(s: State, b: State, rb: Option<RollbackPoint>, spent: bool) {
    match rb
    case Some(point) => Holds(s, point, b) && !spent
    case None =>
      if spent then FilesBack(s, b)
      else SameFiles(s, b) && !s.faults.misprobedActive && !s.faults.misprobedEnabled
  }

  ghost predicate SameFiles(s: State, b: State) {
    s.config == b.config && s.unit == b.unit && s.running == b.running && s.enabled == b.enabled
  }

  // The service is where it was.  It is running if it was (and was seen to be),
  // and unless a stop request was ignored it runs on the earlier files.
  ghost predicate FilesBack(s: State, b: State) {
    && s.config == b.config && s.unit == b.unit
    && (b.running.Some? && b.unit.Some? && !s.faults.misprobedActive ==> s.running.Some?)
    && (b.enabled && b.unit.Some? && !s.faults.misprobedEnabled ==> s.enabled)
    && (s.running.Some? && !s.faults.stuck ==> s.running == b.running || s.running == Some(b.OnDisk()))
  }

  // Exactly the earlier rules, those a handle knows it added, and those lost, which
  // are planned ones that were not there.
  ghost predicate RulesCovered(s: State, b: State, added: set<Rule>, planned: set<Rule>) {
    && s.faults.lostRules <= planned
    && s.rules == b.rules + s.faults.lostRules + added
    && added !! (b.rules + s.faults.lostRules) && b.rules !! s.faults.lostRules
  }

  ghost predicate ManifestCovered(s: State, b: State, handle: Option<File>, text: Text) {
    match handle
    case Some(previous) => previous == b.manifest && !s.faults.lostManifest
    case None => s.manifest == if s.faults.lostManifest then Some(text) else b.manifest
  }

  // Everything a failed deployment owes a host, fault by fault.
  ghost predicate Restored(s: State, b: State, text: Text, planned: set<Rule>) {
    && FilesBack(s, b)
    && s.cert == b.cert && s.key == b.key
    && RulesCovered(s, b, {}, planned)
    && ManifestCovered(s, b, None, text)
  }

  // Unless a stop request was ignored, what runs was started from the files on disk.
  ghost predicate RunsOnDisk(s: State) {
    s.running.Some? && !s.faults.stuck ==> s.running == Some(s.OnDisk())
  }

  ghost predicate Replaced(s: State, config: Text, unit: Text, manifest: Text) {
    && s.config == Some(config) && s.unit == Some(unit) && s.manifest == Some(manifest)
    && s.running.Some? && RunsOnDisk(s)
  }

  ghost predicate ExitCovered(s: State, b: State, d: Option<ExitDeployment>, spent: bool, rule: Rule, text: Text) {
    && s.cert == b.cert && s.key == b.key
    && FilesCovered(s, b, if d.Some? then Some(d.value.rollback) else None, spent)
    && RulesCovered(s, b, if d.Some? && d.value.firewallAdded then {rule} else {}, {rule})
    && ManifestCovered(s, b, if d.Some? then Some(d.value.previous) else None, text)
  }

  class Deployment {
    const plan: Plan
    const matching: Matching
    const entry: Host
    const exit: Host
    const push: CertUpdate

    var stagedConfig: bool
    var deploymentRollback: Option<RollbackPoint>
    var chainExit: Option<ExitDeployment>
    var certUpdate: Option<bool>  // Some(changed)
    var firewallChanges: seq<FirewallChange>
    var rollbackFailed: bool
    var ownershipUpdate: Option<File>
    var committed: bool

    // The hosts as the deployment found them.
    ghost const entry0: State
    ghost const exit0: State
    // The rollback points have been used.
    ghost var spent: bool
    ghost var exitSpent: bool

    constructor (plan: Plan, matching: Matching, entry: Host, exit: Host)
      requires entry != exit && entry.s.NoFaults() && exit.s.NoFaults()
      ensures this.plan == plan && this.matching == matching && this.entry == entry && this.exit == exit
      ensures entry0 == entry.s && exit0 == exit.s
      ensures fresh(push) && Ready()
    {
      this.plan, this.matching, this.entry, this.exit := plan, matching, entry, exit;
      var update := new CertUpdate(entry, plan.newCert, plan.newKey);
      push := update;
      stagedConfig, rollbackFailed, committed := false, false, false;
      deploymentRollback, chainExit, certUpdate, ownershipUpdate := None, None, None, None;
      firewallChanges := [];
      spent, exitSpent := false, false;
      entry0, exit0 := entry.s, exit.s;
    }

    ghost predicate NoHandles()
      reads this
    {
      deploymentRollback.None? && chainExit.None? && certUpdate != Some(true) && firewallChanges == []
        && ownershipUpdate.None?
    }

    // The state a deployment starts from.
    ghost predicate Ready()
      reads this, entry, exit, push
    {
      && Wired() && NoHandles() && certUpdate.None? && push.state == Pending
      && entry.s == entry0 && entry0.NoFaults() && exit.s == exit0 && exit0.NoFaults()
      && !spent && !exitSpent && !rollbackFailed && !committed
    }

    ghost predicate Wired() {
      entry != exit && push.host == entry && push.newCert == plan.newCert && push.newKey == plan.newKey
    }

    ghost function CertBefore(): Pair {
      Pair(entry0.cert, entry0.key)
    }

    // Every handle that is still held can be used, once.
    ghost predicate Structure()
      reads this, entry, exit, push
    {
      Wired() && ServiceReady() && CertReady() && ExitReady()
    }

    ghost predicate ServiceReady()
      reads this, entry
    {
      deploymentRollback.Some? ==> Holds(entry.s, deploymentRollback.value, entry0) && !spent
    }

    ghost predicate CertReady()
      reads this, push
    {
      certUpdate == Some(true) ==> push.Restorable(CertBefore())
    }

    ghost predicate ExitReady()
      reads this, exit
    {
      chainExit.Some? ==> Holds(exit.s, chainExit.value.rollback, exit0) && !exitSpent
    }

    // Whatever differs from the start is undone by the handles now held.
    ghost predicate Coverage()
      reads this, entry, exit
    {
      EntryCovered() && CertCovered() && ExitSideCovered()
    }

    ghost predicate EntryCovered()
      reads this, entry
    {
      && FilesCovered(entry.s, entry0, deploymentRollback, spent)
      && RulesCovered(entry.s, entry0, AddedRules(firewallChanges), Planned())
      && ManifestCovered(entry.s, entry0, ownershipUpdate, plan.manifest)
    }

    ghost predicate CertCovered()
      reads this, entry
    {
      certUpdate != Some(true) ==> entry.s.cert == entry0.cert && entry.s.key == entry0.key
    }

    ghost predicate ExitSideCovered()
      reads this, exit
    {
      ExitCovered(exit.s, exit0, chainExit, exitSpent, plan.exitRule, plan.exitManifest)
    }

    ghost function Planned(): set<Rule> {
      set rule | rule in plan.rules
    }

    // A plain deployment of one host on which a fixed mishap is all that happens.
    ghost predicate Calm() {
      entry.Calm() && !plan.managedCert && !plan.chain && !plan.staged
    }

    // No reply to a new rule is lost.
    ghost predicate Heard()
      requires entry.Calm()
    {
      forall rule <- plan.rules :: rule in entry0.rules || rule !in entry.mishap.value.deafTo
    }

    // Nothing that the mishap spoils is needed.
    ghost predicate WouldSucceed()
      requires entry.Calm()
    {
      Heard() && !entry.mishap.value.blind && !entry.mishap.value.deafManifest
    }

    // ── Forward steps ────────────────────────────────────────────────────

    // Step 5 of the source: push the managed certificate pair.
    method ProvisionCert() returns (thrown: Option<Thrown>)
      requires Ready()
      modifies this`certUpdate, push, entry
      ensures CertReady() && (thrown != Some(RollbackFailure) ==> CertCovered())
      ensures entry.s == entry0.(cert := entry.s.cert, key := entry.s.key)
      ensures thrown.None? && !plan.managedCert ==> entry.s == entry0
      ensures thrown.None? && plan.managedCert ==>
        entry.s.cert == Some(plan.newCert) && entry.s.key == Some(plan.newKey) && ValidPair(matching, push.Installed())
      ensures !plan.managedCert ==> thrown.None? && certUpdate.None?
    {
      if !plan.managedCert {
        return None;
      }
      assert push.Installed() == CertBefore();
      var pushed := push.Push(matching);
      match pushed
      case Failed(t) =>
        return Some(t);
      case Unchanged =>
        certUpdate := Some(false);
        return None;
      case Changed =>
        certUpdate := Some(true);
        return None;
    }

    // New config and unit in place, service stopped, started and listening.
    method ReplaceExitService() returns (up: bool)
      modifies exit
      ensures SameButService(exit.s, old(exit.s))
      ensures up ==> exit.s.config == Some(plan.exitConfig) && exit.s.unit == Some(plan.exitUnit)
      ensures up ==> exit.s.running.Some? && RunsOnDisk(exit.s)
    {
      up := exit.ActivateStagedConfig(plan.exitConfig);
      if !up {
        return;
      }
      up := exit.UploadUnit(plan.exitUnit);
      if !up {
        return;
      }
      exit.Stop();
      exit.EnableAndStart();
      up := exit.IsActive();
      var listening: bool := *;
      up := up && listening;
    }

    // The replacement behind a rollback point; None when it failed half-way.
    method InstallExit() returns (previous: Option<File>)
      modifies exit
      ensures previous.Some? ==> previous.value == old(exit.s).manifest
      ensures previous.Some? ==> Replaced(exit.s, plan.exitConfig, plan.exitUnit, plan.exitManifest)
      ensures previous.Some? ==> SameButService(exit.s, old(exit.s).(manifest := exit.s.manifest))
      ensures previous.None? ==>
        || SameButService(exit.s, old(exit.s))
        || SameButService(exit.s, LostManifest(old(exit.s), plan.exitManifest))
    {
      var up := ReplaceExitService();
      if up {
        previous := exit.Register(plan.exitManifest);
      } else {
        previous := None;
      }
    }

    // deployChainExit: replaces the exit service, and undoes that itself when
    // it fails before handing its rollback over.
    method DeployChainExit() returns (thrown: Option<Thrown>)
      requires chainExit.None? && !exitSpent && exit.s == exit0 && exit0.NoFaults()
      modifies this`chainExit, this`exitSpent, exit
      ensures ExitReady() && (thrown != Some(RollbackFailure) ==> ExitSideCovered())
      ensures thrown.None? ==> chainExit.Some? && !chainExit.value.firewallAdded
      ensures thrown.None? ==> Replaced(exit.s, plan.exitConfig, plan.exitUnit, plan.exitManifest)
      ensures thrown.Some? ==> chainExit.None?
    {
      var reached: bool := *;
      if !reached {
        return Some(Plain);
      }
      var point := exit.PrepareRollback();
      if point.None? {
        return Some(Plain);
      }
      thrown := InstallBehind(point.value);
    }

    method InstallBehind(point: RollbackPoint) returns (thrown: Option<Thrown>)
      requires chainExit.None? && !exitSpent && Holds(exit.s, point, exit0)
      requires SameButRollback(exit.s, exit0) && exit0.NoFaults() && SameFiles(exit.s, exit0) && !exit.s.faults.stuck
      modifies this`chainExit, this`exitSpent, exit
      ensures ExitReady() && (thrown != Some(RollbackFailure) ==> ExitSideCovered())
      ensures thrown.None? ==> chainExit.Some? && !chainExit.value.firewallAdded
      ensures thrown.None? ==> Replaced(exit.s, plan.exitConfig, plan.exitUnit, plan.exitManifest)
      ensures thrown.Some? ==> chainExit.None?
    {
      var previous := InstallExit();
      if previous.Some? {
        chainExit := Some(ExitDeployment(point, false, previous.value));
        return None;
      }
      exitSpent := true;
      var restored := exit.RestoreRollback(point, exit0);
      return Some(if restored then Plain else RollbackFailure);
    }

    // prepareChainFirewall: one allow rule for the entry address.
    method PrepareChainFirewall() returns (thrown: Option<Thrown>)
      requires ExitReady() && ExitSideCovered() && chainExit.Some? && !chainExit.value.firewallAdded
      modifies this`chainExit, exit
      ensures exit.s == old(exit.s).(rules := exit.s.rules,
        faults := old(exit.s).faults.(lostRules := exit.s.faults.lostRules))
      ensures ExitReady() && (thrown != Some(RollbackFailure) ==> ExitSideCovered())
    {
      var answer := exit.OpenFirewall(plan.exitRule);
      match answer
      case Err(t) =>
        return Some(t);
      case Ok(added) =>
        chainExit := Some(chainExit.value.(firewallAdded := added));
        return None;
    }

    // Steps 5 to 8 behind a rollback point: config, unit, stop, enable, start.
    method ReplaceEntryService() returns (up: bool)
      modifies this`stagedConfig, entry
      ensures SameButService(entry.s, old(entry.s))
      ensures up ==> entry.s.config == Some(plan.config) && entry.s.unit == Some(plan.unit) && RunsOnDisk(entry.s)
      ensures entry.Calm() ==> up && entry.s.running.Some?
    {
      if plan.staged {
        up := entry.ActivateStagedConfig(plan.config);
        stagedConfig := stagedConfig && !up;
      } else {
        up := entry.UploadConfig(plan.config);
      }
      if !up {
        return;
      }
      up := entry.UploadUnit(plan.unit);
      if !up {
        return;
      }
      entry.Stop();
      var portsFree := entry.Any(true);
      if !portsFree {
        return false;
      }
      entry.EnableAndStart();
    }

    // Only what a rollback point and its use may change differs.
    static ghost predicate SameButRollback(s: State, t: State) {
      SameButService(s, t.(backups := s.backups,
        faults := t.faults.(misprobedActive := s.faults.misprobedActive,
          misprobedEnabled := s.faults.misprobedEnabled)))
    }

    method ReplaceService() returns (thrown: bool)
      requires deploymentRollback.None? && !spent && FilesCovered(entry.s, entry0, None, false)
      modifies this`deploymentRollback, this`stagedConfig, entry
      ensures ServiceReady() && FilesCovered(entry.s, entry0, deploymentRollback, false)
      ensures SameButRollback(entry.s, old(entry.s))
      ensures !thrown ==> entry.s.config == Some(plan.config) && entry.s.unit == Some(plan.unit) && RunsOnDisk(entry.s)
      ensures entry.Calm() ==> !thrown && entry.s.running.Some? && deploymentRollback.Some?
      ensures entry.Calm() ==> entry.s.faults.misprobedActive == (entry0.running.Some? && entry.mishap.value.blind)
    {
      var point := entry.PrepareRollback();
      if point.None? {
        return true;
      }
      deploymentRollback := point;
      var up := ReplaceEntryService();
      return !up;
    }

    ghost predicate FirewallCovered()
      reads this, entry
    {
      RulesCovered(entry.s, entry0, AddedRules(firewallChanges), Planned())
    }

    // Step 9: open the port for every transport.
    method OpenPorts() returns (thrown: Option<Thrown>)
      requires FirewallCovered()
      modifies this`firewallChanges, entry
      ensures entry.s == old(entry.s).(rules := entry.s.rules,
        faults := old(entry.s).faults.(lostRules := entry.s.faults.lostRules))
      ensures thrown != Some(RollbackFailure) ==> FirewallCovered()
      ensures thrown.None? ==> forall r <- plan.rules :: r in entry.s.rules
      ensures entry.Calm() && old(entry.s).faults.lostRules == {} && old(entry.s).rules == entry0.rules ==>
        if Heard() then thrown.None? && entry.s.faults.lostRules == {}
          else thrown == Some(Plain) && entry.s.faults.lostRules != {}
    {
      for i := 0 to |plan.rules|
        invariant FirewallCovered()
        invariant entry.s == old(entry.s).(rules := entry.s.rules,
          faults := old(entry.s).faults.(lostRules := entry.s.faults.lostRules))
        invariant forall k :: 0 <= k < i ==> plan.rules[k] in entry.s.rules
        invariant entry.Calm() && old(entry.s).rules == entry0.rules ==>
          forall r <- entry.s.rules :: r in entry0.rules || r !in entry.mishap.value.deafTo
        invariant entry.Calm() && old(entry.s).faults.lostRules == {} && old(entry.s).rules == entry0.rules ==>
          entry.s.faults.lostRules == {} && forall k :: 0 <= k < i ==>
            plan.rules[k] in entry0.rules || plan.rules[k] !in entry.mishap.value.deafTo
      {
        thrown := OpenPort(plan.rules[i]);
        if thrown.Some? {
          return;
        }
      }
      return None;
    }

    method OpenPort(rule: Rule) returns (thrown: Option<Thrown>)
      requires FirewallCovered() && rule in plan.rules
      modifies this`firewallChanges, entry
      ensures entry.s == old(entry.s).(rules := entry.s.rules,
        faults := old(entry.s).faults.(lostRules := entry.s.faults.lostRules))
      ensures thrown != Some(RollbackFailure) ==> FirewallCovered()
      ensures thrown.None? ==> entry.s.rules == old(entry.s).rules + {rule}
      ensures old(entry.s).rules <= entry.s.rules
      ensures entry.Calm() ==>
        if rule in old(entry.s).rules || rule !in entry.mishap.value.deafTo
        then thrown.None? && entry.s.faults == old(entry.s).faults
        else thrown == Some(Plain) && rule in entry.s.faults.lostRules
    {
      ghost var before := entry.s;
      var answer := entry.OpenFirewall(rule);
      match answer
      case Err(t) =>
        if entry.s != before && t != RollbackFailure {
          LostIsCovered(before, entry0, AddedRules(firewallChanges), Planned(), rule);
        }
        return Some(t);
      case Ok(added) =>
        Remember(rule, added, before);
        return None;
    }

    // The change is kept for a later rollback.
    method Remember(rule: Rule, added: bool, ghost before: State)
      requires RulesCovered(before, entry0, AddedRules(firewallChanges), Planned())
      requires entry.s == before.(rules := before.rules + {rule}) && added == (rule !in before.rules)
      modifies this`firewallChanges
      ensures FirewallCovered()
    {
      AddedRulesAppend(firewallChanges, FirewallChange(rule, added));
      NewIsCovered(before, entry0, AddedRules(firewallChanges), Planned(), rule);
      firewallChanges := firewallChanges + [FirewallChange(rule, added)];
    }

    // ── Rollback ─────────────────────────────────────────────────────────

    // Newest change first; a failed close does not stop the others.
    method RollbackFirewallChanges() returns (restored: bool)
      modifies entry
      ensures entry.s == old(entry.s).(rules := entry.s.rules)
      ensures restored ==> entry.s.rules == old(entry.s).rules - AddedRules(firewallChanges)
      ensures entry.Calm() ==> restored
    {
      restored := true;
      var i := |firewallChanges|;
      while i > 0
        invariant 0 <= i <= |firewallChanges|
        invariant entry.s == old(entry.s).(rules := entry.s.rules)
        invariant restored ==> entry.s.rules == old(entry.s).rules - AddedRules(firewallChanges[i..])
        invariant entry.Calm() ==> restored
      {
        i := i - 1;
        AddedRulesPrepend(firewallChanges[i], firewallChanges[i + 1..]);
        assert firewallChanges[i..] == [firewallChanges[i]] + firewallChanges[i + 1..];
        if firewallChanges[i].added {
          var closed := entry.CloseFirewall(firewallChanges[i].rule);
          restored := restored && closed;
        }
      }
      assert firewallChanges[0..] == firewallChanges;
    }

    method RollbackFirewall()
      requires !rollbackFailed ==> FirewallCovered()
      modifies this`firewallChanges, this`rollbackFailed, entry
      ensures entry.s == old(entry.s).(rules := entry.s.rules)
      ensures !rollbackFailed ==> FirewallCovered()
      ensures firewallChanges == [] && (old(rollbackFailed) ==> rollbackFailed)
      ensures entry.Calm() ==> rollbackFailed == old(rollbackFailed)
    {
      var restored := RollbackFirewallChanges();
      rollbackFailed := rollbackFailed || !restored;
      firewallChanges := [];
    }

    method RollbackCert()
      requires Wired() && CertReady() && (!rollbackFailed ==> CertCovered())
      modifies this`certUpdate, this`rollbackFailed, push, entry
      ensures entry.s == old(entry.s).(cert := entry.s.cert, key := entry.s.key)
      ensures !rollbackFailed ==> CertCovered()
      ensures certUpdate != Some(true) && (old(rollbackFailed) ==> rollbackFailed)
      ensures old(certUpdate) != Some(true) ==> entry.s == old(entry.s) && rollbackFailed == old(rollbackFailed)
    {
      if certUpdate == Some(true) {
        var restored := push.Rollback(CertBefore());
        rollbackFailed := rollbackFailed || !restored;
        certUpdate := None;
      }
    }

    // The point was made by a probe that a calm host's mishap decides.
    ghost predicate Probed()
      requires entry.Calm()
      reads this, entry
    {
      deploymentRollback.Some? ==> entry.s.faults.misprobedActive == (entry0.running.Some? && entry.mishap.value.blind)
    }

    // The certificate must be back before the earlier service starts on it.
    method RestoreService()
      requires ServiceReady() && (!rollbackFailed ==> FilesCovered(entry.s, entry0, deploymentRollback, spent))
      requires certUpdate != Some(true) && (!rollbackFailed ==> CertCovered())
      modifies this`deploymentRollback, this`rollbackFailed, this`spent, entry
      ensures SameButService(entry.s, old(entry.s).(backups := entry.s.backups))
      ensures !rollbackFailed ==> FilesCovered(entry.s, entry0, None, spent)
      ensures deploymentRollback.None? && (old(rollbackFailed) ==> rollbackFailed)
      ensures entry.Calm() && old(Probed()) ==>
        rollbackFailed == old(rollbackFailed) && entry.s.faults == old(entry.s).faults
      ensures entry.Calm() && old(Probed()) && entry.mishap.value.blind && old(deploymentRollback).Some? ==>
        entry.s.running.None?
    {
      if deploymentRollback.Some? {
        assert !spent;
        spent := true;
        var restored := entry.RestoreRollback(deploymentRollback.value, entry0);
        rollbackFailed := rollbackFailed || !restored;
        deploymentRollback := None;
      }
    }

    method RollbackChainExit()
      requires ExitReady() && (!rollbackFailed ==> ExitSideCovered())
      modifies this`chainExit, this`rollbackFailed, this`exitSpent, exit
      ensures !rollbackFailed ==> ExitSideCovered()
      ensures chainExit.None? && (old(rollbackFailed) ==> rollbackFailed)
      ensures old(chainExit).None? ==> rollbackFailed == old(rollbackFailed)
    {
      if chainExit.None? {
        return;
      }
      assert !exitSpent;
      exitSpent := true;
      var d := chainExit.value;
      var restored := true;
      if d.firewallAdded {
        restored := exit.CloseFirewall(plan.exitRule);
      }
      var owner := exit.RollbackManifest(d.previous);
      var service := exit.RestoreRollback(d.rollback, exit0);
      rollbackFailed := rollbackFailed || !restored || !owner || !service;
      chainExit := None;
    }

    method RollbackOwnership()
      requires !rollbackFailed ==> ManifestCovered(entry.s, entry0, ownershipUpdate, plan.manifest)
      modifies this`ownershipUpdate, this`rollbackFailed, entry
      ensures entry.s == old(entry.s).(manifest := entry.s.manifest)
      ensures !rollbackFailed ==> ManifestCovered(entry.s, entry0, None, plan.manifest)
      ensures ownershipUpdate.None? && (old(rollbackFailed) ==> rollbackFailed)
      ensures old(ownershipUpdate).None? ==> rollbackFailed == old(rollbackFailed) && entry.s == old(entry.s)
    {
      if ownershipUpdate.Some? {
        var ok := entry.RollbackManifest(ownershipUpdate.value);
        rollbackFailed := rollbackFailed || !ok;
        ownershipUpdate := None;
      }
    }

    // Of a calm deployment, service and firewall are all that is to be undone.
    ghost predicate OnlyService()
      reads this, entry
    {
      Calm() && Probed() && certUpdate.None? && chainExit.None?
    }

    // Firewall, certificate, service and chain exit, in that order.
    method RollbackAll()
      requires Structure() && (!rollbackFailed ==> Coverage()) && ownershipUpdate.None?
      modifies this`firewallChanges, this`certUpdate, this`deploymentRollback, this`chainExit, this`rollbackFailed,
               this`spent, this`exitSpent, entry, exit, push
      ensures Structure() && (!rollbackFailed ==> Coverage()) && NoHandles()
      ensures old(rollbackFailed) ==> rollbackFailed
      ensures old(OnlyService()) ==> rollbackFailed == old(rollbackFailed) && entry.s.faults == old(entry.s).faults
      ensures old(OnlyService()) && old(deploymentRollback).Some? && entry.mishap.value.blind ==> entry.s.running.None?
    {
      RollbackEntry();
      RollbackChainExit();
    }

    method RollbackEntry()
      requires Wired() && ServiceReady() && CertReady() && ownershipUpdate.None?
      requires !rollbackFailed ==> EntryCovered() && CertCovered()
      modifies this`firewallChanges, this`certUpdate, this`deploymentRollback, this`rollbackFailed, this`spent, entry,
        push
      ensures firewallChanges == [] && certUpdate != Some(true) && deploymentRollback.None?
      ensures !rollbackFailed ==> EntryCovered() && CertCovered()
      ensures old(rollbackFailed) ==> rollbackFailed
      ensures old(OnlyService()) ==> rollbackFailed == old(rollbackFailed) && entry.s.faults == old(entry.s).faults
      ensures old(OnlyService()) && old(deploymentRollback).Some? && entry.mishap.value.blind ==> entry.s.running.None?
    {
      RollbackFirewall();
      RollbackCert();
      RestoreService();
    }

    // ── Database and commit ──────────────────────────────────────────────

    method Finalize(success: bool) returns (ok: bool)
      modifies this`committed
      ensures committed == (old(committed) || (ok && success))
      ensures entry.Calm() ==> ok
    {
      ok := entry.Any(true);
      if ok && success {
        committed := true;
      }
    }

    // Close what the previous shape needed and this one does not, best effort.
    method RetireFirewall()
      modifies entry
      ensures entry.s == old(entry.s).(rules := entry.s.rules)
      ensures forall r <- old(entry.s).rules :: r !in plan.retired || r in plan.rules ==> r in entry.s.rules
    {
      for i := 0 to |plan.retired|
        invariant entry.s == old(entry.s).(rules := entry.s.rules)
        invariant forall r <- old(entry.s).rules :: r !in plan.retired || r in plan.rules ==> r in entry.s.rules
      {
        if plan.retired[i] !in plan.rules {
          var closed := entry.CloseFirewall(plan.retired[i]);
        }
      }
    }

    // After the database commit no step has a way to throw.
    method CommitRemote()
      requires Wired() && CertReady() && committed
      modifies this`chainExit, this`deploymentRollback, this`certUpdate, this`firewallChanges, this`ownershipUpdate,
               this`spent, this`exitSpent, entry, exit, push
      ensures NoHandles()
      ensures old(certUpdate) == Some(true) ==> push.state == Committed
      ensures exit.s == old(exit.s).(backups := exit.s.backups)
      ensures entry.s == old(entry.s).(backups := entry.s.backups, rules := entry.s.rules)
      ensures forall r <- old(entry.s).rules :: r !in plan.retired || r in plan.rules ==> r in entry.s.rules
    {
      if chainExit.Some? {
        exitSpent := true;
        exit.CleanupBackups();
        chainExit := None;
      }
      if deploymentRollback.Some? {
        spent := true;
        entry.CleanupBackups();
        deploymentRollback := None;
      }
      if certUpdate == Some(true) {
        push.Commit();
      }
      certUpdate := None;
      RetireFirewall();
      firewallChanges := [];
      ownershipUpdate := None;
    }

    // ── The whole operation ──────────────────────────────────────────────

    // Certificate and exit side, before the entry service is touched.
    method InstallAround() returns (thrown: Option<Thrown>)
      requires Ready()
      modifies this`stagedConfig, this`chainExit, this`certUpdate, this`exitSpent, entry, exit, push
      ensures Structure() && (thrown != Some(RollbackFailure) ==> Coverage())
      ensures entry.s == entry0.(cert := entry.s.cert, key := entry.s.key)
      ensures thrown.None? && !plan.managedCert ==> entry.s == entry0
      ensures thrown.None? && plan.managedCert ==>
        entry.s.cert == Some(plan.newCert) && entry.s.key == Some(plan.newKey)
      ensures thrown.None? && plan.chain ==> Replaced(exit.s, plan.exitConfig, plan.exitUnit, plan.exitManifest)
      ensures Calm() ==> thrown.None? && entry.s == entry0 && chainExit.None? && certUpdate.None?
    {
      thrown := ProvisionCert();
      if thrown.Some? {
        return;
      }
      if plan.staged {
        stagedConfig := *;
        if !stagedConfig {
          return Some(Plain);
        }
      }
      if plan.chain {
        thrown := InstallExitSide();
      }
    }

    // The exit service and the rule that lets the entry host reach it.
    method InstallExitSide() returns (thrown: Option<Thrown>)
      requires chainExit.None? && !exitSpent && exit.s == exit0 && exit0.NoFaults()
      modifies this`chainExit, this`exitSpent, exit
      ensures ExitReady() && (thrown != Some(RollbackFailure) ==> ExitSideCovered())
      ensures thrown.None? ==> Replaced(exit.s, plan.exitConfig, plan.exitUnit, plan.exitManifest)
    {
      thrown := DeployChainExit();
      if thrown.None? {
        thrown := PrepareChainFirewall();
      }
    }

    // What a calm host's mishap makes of the replacement.
    ghost predicate CalmEnd(r: Attempted)
      requires entry.Calm()
      reads this, entry
    {
      deploymentRollback.Some? && Ends(r)
    }

    ghost predicate Ends(r: Attempted)
      requires entry.Calm()
      reads entry
    {
      var mishap := entry.mishap.value;
      && (entry.s.faults.lostRules == {} <==> Heard())
      && (entry.s.faults.lostManifest <==> Heard() && !mishap.blind && mishap.deafManifest)
      && r == if !Heard() then Raised(Plain) else if mishap.blind then Done(false)
              else if mishap.deafManifest then Raised(Plain) else Done(true)
    }

    // Remote replacement up to the acceptance checks and the manifest.
    method Replace() returns (r: Attempted)
      requires Ready()
      modifies this`stagedConfig, this`deploymentRollback, this`chainExit, this`certUpdate, this`firewallChanges,
               this`ownershipUpdate, this`exitSpent, entry, exit, push
      ensures Structure()
      ensures r != Raised(RollbackFailure) ==> Coverage()
      ensures r == NotInstalled ==> NoHandles()
      ensures r != Done(true) ==> ownershipUpdate.None?
      ensures r == Done(true) ==> Replacement()
      ensures Calm() ==> OnlyService() && CalmEnd(r)
    {
      // SSH connection, ownership and port checks, core installation.
      var early := entry.Any(false);
      var installed: bool := *;
      if early {
        return if installed then Raised(Plain) else NotInstalled;
      }
      var thrown := InstallAround();
      if thrown.Some? {
        return Raised(thrown.value);
      }
      r := ReplaceAndOpen();
    }

    // The certificate and the exit side are in place.
    ghost predicate Around()
      reads this, entry, exit
    {
      && entry0.NoFaults() && entry.s == entry0.(cert := entry.s.cert, key := entry.s.key)
      && (plan.managedCert ==> entry.s.cert == Some(plan.newCert) && entry.s.key == Some(plan.newKey))
      && (plan.chain ==> Replaced(exit.s, plan.exitConfig, plan.exitUnit, plan.exitManifest))
    }

    // The entry service, its ports, and the checks.
    method ReplaceAndOpen() returns (r: Attempted)
      requires Structure() && Coverage() && Around()
      requires deploymentRollback.None? && !spent && firewallChanges == [] && ownershipUpdate.None?
      modifies this`stagedConfig, this`deploymentRollback, this`firewallChanges, this`ownershipUpdate, entry
      ensures Structure()
      ensures r != Raised(RollbackFailure) ==> Coverage()
      ensures r != NotInstalled && (r != Done(true) ==> ownershipUpdate.None?)
      ensures r == Done(true) ==> Replacement()
      ensures Calm() && old(entry.s) == entry0 ==> Probed() && CalmEnd(r)
    {
      var raised := ReplaceService();
      if raised {
        return Raised(Plain);
      }
      r := OpenAndAccept();
    }

    // The rules, then the checks, on a replaced service.
    method OpenAndAccept() returns (r: Attempted)
      requires FirewallCovered() && ownershipUpdate.None? && !entry.s.faults.lostManifest
        && entry.s.manifest == entry0.manifest
      modifies this`firewallChanges, this`ownershipUpdate, entry
      ensures entry.s == old(entry.s).(rules := entry.s.rules, manifest := entry.s.manifest,
        faults := old(entry.s).faults.(lostRules := entry.s.faults.lostRules,
          lostManifest := entry.s.faults.lostManifest))
      ensures r != Raised(RollbackFailure) ==> FirewallCovered()
      ensures ManifestCovered(entry.s, entry0, ownershipUpdate, plan.manifest)
      ensures r != NotInstalled && (r != Done(true) ==> ownershipUpdate.None?)
      ensures r == Done(true) ==> entry.s.manifest == Some(plan.manifest) && entry.s.running.Some?
      ensures r == Done(true) ==> forall rule <- plan.rules :: rule in entry.s.rules
      ensures (entry.Calm() && old(entry.s).running.Some? && old(entry.s).rules == entry0.rules
               && old(entry.s).faults.lostRules == {}) ==> Ends(r)
    {
      var thrown := OpenPorts();
      if thrown.Some? {
        return Raised(thrown.value);
      }
      r := Accept();
    }

    // Everything the plan asked for is in place.
    ghost predicate Replacement()
      reads this, entry, exit
    {
      && Replaced(entry.s, plan.config, plan.unit, plan.manifest)
      && (forall rule <- plan.rules :: rule in entry.s.rules)
      && (plan.managedCert ==> entry.s.cert == Some(plan.newCert) && entry.s.key == Some(plan.newKey))
      && (plan.chain ==> Replaced(exit.s, plan.exitConfig, plan.exitUnit, plan.exitManifest))
    }

    ghost predicate HostsRestored()
      reads this, entry, exit
    {
      Restored(entry.s, entry0, plan.manifest, Planned()) && Restored(exit.s, exit0, plan.exitManifest, {plan.exitRule})
    }

    // Listener, connectivity and origin checks, then the ownership manifest.
    method Accept() returns (r: Attempted)
      requires ownershipUpdate.None? && !entry.s.faults.lostManifest && entry.s.manifest == entry0.manifest
      modifies this`ownershipUpdate, entry
      ensures entry.s == old(entry.s).(manifest := entry.s.manifest,
        faults := old(entry.s).faults.(lostManifest := entry.s.faults.lostManifest))
      ensures ManifestCovered(entry.s, entry0, ownershipUpdate, plan.manifest)
      ensures r == Raised(Plain) || r.Done?
      ensures r == Done(true) ==> entry.s.manifest == Some(plan.manifest) && entry.s.running.Some?
      ensures r != Done(true) ==> ownershipUpdate.None?
      ensures entry.Calm() && (entry.s.running.None? || entry.mishap.value.blind) ==>
        r == Done(false) && entry.s == old(entry.s)
      ensures entry.Calm() && entry.s.running.Some? && !entry.mishap.value.blind ==>
        if entry.mishap.value.deafManifest then r == Raised(Plain) && entry.s.faults.lostManifest
        else r == Done(true) && entry.s.faults == old(entry.s).faults
    {
      var active := entry.IsActive();
      var reply: Reply := *;
      var answered := entry.Any(true);
      reply := if answered then Exit0 else reply;
      if reply == Dropped {
        return Raised(Plain);
      }
      if !active || reply == ExitError {
        return Done(false);
      }
      var previous := entry.Register(plan.manifest);
      if previous.None? {
        return Raised(Plain);
      }
      ownershipUpdate := previous;
      return Done(true);
    }

    // The catch block.
    method Recover(thrown: Thrown) returns (r: Outcome)
      requires Structure() && (thrown != RollbackFailure && !rollbackFailed ==> Coverage())
      modifies this, entry, exit, push
      ensures r.Returned? ==> !r.success
      ensures r.rollbackFailed == rollbackFailed
      ensures !r.rollbackFailed ==> HostsRestored()
      ensures NoHandles() && committed == old(committed)
      ensures old(OnlyService()) && old(ownershipUpdate).None? && thrown == Plain && !old(rollbackFailed) ==>
        r == Returned(false, false) && entry.s.faults == old(entry.s).faults
      ensures (old(OnlyService()) && old(ownershipUpdate).None? && old(deploymentRollback).Some?
               && entry.mishap.value.blind) ==> entry.s.running.None?
    {
      RecoverHosts(thrown);
      var saved := Finalize(false);
      return if saved then Returned(false, rollbackFailed) else Threw(rollbackFailed);
    }

    method RecoverHosts(thrown: Thrown)
      requires Structure() && (thrown != RollbackFailure && !rollbackFailed ==> Coverage())
      modifies this`stagedConfig, this`ownershipUpdate, this`firewallChanges, this`certUpdate, this`deploymentRollback,
        this`chainExit,
               this`rollbackFailed, this`spent, this`exitSpent, entry, exit, push
      ensures NoHandles() && (!rollbackFailed ==> Coverage())
      ensures old(OnlyService()) && old(ownershipUpdate).None? && thrown == Plain && !old(rollbackFailed) ==>
        !rollbackFailed && entry.s.faults == old(entry.s).faults
      ensures (old(OnlyService()) && old(ownershipUpdate).None? && old(deploymentRollback).Some?
               && entry.mishap.value.blind) ==> entry.s.running.None?
    {
      rollbackFailed := rollbackFailed || thrown == RollbackFailure;
      RollbackOwnership();
      stagedConfig := false;
      RollbackAll();
    }

    // Exactly what one mishap on an otherwise calm host leaves behind: a rule, the
    // manifest, or a service that was running and is not any more.
    ghost predicate CalmOutcome()
      requires entry.Calm()
      reads this, entry
    {
      var mishap := entry.mishap.value;
      && (committed <==> WouldSucceed())
      && (!committed ==> (entry.s.rules == entry0.rules <==> Heard()))
      && (!committed && Heard() && !mishap.blind ==> entry.s.manifest == Some(plan.manifest))
      && (!committed && mishap.blind ==> entry.s.running.None?)
    }

    // For every pattern of command failures: success means the replacement is
    // committed everywhere; anything else that does not admit a failed rollback
    // leaves both hosts restored.
    method DeployExclusive() returns (r: Outcome)
      requires Ready()
      modifies this, entry, exit, push
      ensures (r.Returned? && r.success) == committed && r.rollbackFailed == rollbackFailed
      ensures committed ==> !r.rollbackFailed
      ensures committed ==> Replacement()
      ensures !committed && !r.rollbackFailed ==> HostsRestored()
      // Where no rule is new, the rules are exactly the earlier ones.
      ensures !committed && !r.rollbackFailed && Planned() <= entry0.rules ==> entry.s.rules == entry0.rules
      ensures NoHandles()
      ensures Calm() ==> r.Returned? && !r.rollbackFailed && CalmOutcome()
    {
      var attempt := Replace();
      match attempt
      case Raised(thrown) =>
        r := Recover(thrown);
      case NotInstalled =>
        var saved := Finalize(false);
        if saved {
          return Returned(false, false);
        }
        r := Recover(Plain);
      case Done(active) =>
        r := Settle(active);
    }

    // Roll an inactive service back, persist the outcome, commit an active one.
    method Settle(active: bool) returns (r: Outcome)
      requires Structure() && Coverage() && !rollbackFailed && !committed
      requires if active then Replacement() else ownershipUpdate.None?
      modifies this, entry, exit, push
      ensures (r.Returned? && r.success) == committed && r.rollbackFailed == rollbackFailed
      ensures committed ==> !r.rollbackFailed && Replacement()
      ensures !committed && !r.rollbackFailed ==> HostsRestored()
      ensures NoHandles()
      ensures old(OnlyService()) ==> r == Returned(active, false) && (!active ==> entry.s.faults == old(entry.s).faults)
      ensures old(OnlyService()) && !active && old(deploymentRollback).Some? && entry.mishap.value.blind ==>
        entry.s.running.None?
    {
      if !active {
        r := SettleInactive();
        return;
      }
      var saved := Finalize(true);
      if !saved {
        r := Recover(Plain);
        return;
      }
      CommitRemote();
      return Returned(true, rollbackFailed);
    }

    method SettleInactive() returns (r: Outcome)
      requires Structure() && Coverage() && !rollbackFailed && ownershipUpdate.None?
      modifies this, entry, exit, push
      ensures !(r.Returned? && r.success) && r.rollbackFailed == rollbackFailed && committed == old(committed)
      ensures !r.rollbackFailed ==> HostsRestored()
      ensures NoHandles()
      ensures old(OnlyService()) ==> r == Returned(false, false) && entry.s.faults == old(entry.s).faults
      ensures old(OnlyService()) && old(deploymentRollback).Some? && entry.mishap.value.blind ==> entry.s.running.None?
    {
      // Reading the journal can still throw, with every handle intact.
      var raised := entry.Any(false);
      if raised {
        r := Recover(Plain);
        return;
      }
      RollbackAll();
      var saved := Finalize(false);
      if !saved {
        r := Recover(Plain);
        return;
      }
      return Returned(false, rollbackFailed);
    }
  }

  lemma LostIsCovered(s: State, b: State, added: set<Rule>, planned: set<Rule>, rule: Rule)
    requires RulesCovered(s, b, added, planned) && rule !in s.rules && rule in planned
    ensures RulesCovered(Lost(s, rule), b, added, planned)
  {
  }

  lemma NewIsCovered(s: State, b: State, added: set<Rule>, planned: set<Rule>, rule: Rule)
    requires RulesCovered(s, b, added, planned)
    ensures RulesCovered(s.(rules := s.rules + {rule}), b, added + (if rule in s.rules then {} else {rule}), planned)
  {
  }

  lemma AddedRulesAppend(changes: seq<FirewallChange>, c: FirewallChange)
    ensures AddedRules(changes + [c]) == AddedRules(changes) + if c.added then {c.rule} else {}
  {
    var all := changes + [c];
    forall r | r in AddedRules(changes) + (if c.added then {c.rule} else {})
      ensures r in AddedRules(all)
    {
      if r in AddedRules(changes) {
        var i :| 0 <= i < |changes| && changes[i].added && changes[i].rule == r;
        assert all[i] == changes[i];
      } else {
        assert all[|changes|] == c;
      }
    }
  }

  lemma AddedRulesPrepend(c: FirewallChange, changes: seq<FirewallChange>)
    ensures AddedRules([c] + changes) == AddedRules(changes) + if c.added then {c.rule} else {}
  {
    var all := [c] + changes;
    forall r | r in AddedRules(changes) + (if c.added then {c.rule} else {})
      ensures r in AddedRules(all)
    {
      if r in AddedRules(changes) {
        var i :| 0 <= i < |changes| && changes[i].added && changes[i].rule == r;
        assert all[i + 1] == changes[i];
      } else {
        assert all[0] == c;
      }
    }
  }

  // A whole run on a host with one mishap: it ends without a failed rollback, and
  // succeeds, or leaves the rule, the manifest, or the service not as it was.
  method RunWithMishap(plan: Plan, matching: Matching, start: State, other: State, mishap: Mishap)
    returns (r: Outcome, end: State)
    requires start.NoFaults() && other.NoFaults() && !plan.managedCert && !plan.chain && !plan.staged
    ensures r.Returned? && !r.rollbackFailed
    ensures var heard := forall rule <- plan.rules :: rule in start.rules || rule !in mishap.deafTo;
      && (r.success <==> heard && !mishap.blind && !mishap.deafManifest)
      && (!r.success ==> (end.rules == start.rules <==> heard))
      && (!r.success && heard && !mishap.blind ==> end.manifest == Some(plan.manifest))
      && (!r.success && mishap.blind ==> end.running.None?)
  {
    var entry := new Host(start, Some(mishap));
    var exit := new Host(other);
    var d := new Deployment(plan, matching, entry, exit);
    r := d.DeployExclusive();
    end := entry.s;
  }
}
