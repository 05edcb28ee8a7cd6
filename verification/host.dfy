/**
 * A remote host as the deploy code sees it: the two files of one managed
 * service, its certificate pair, its run state, its firewall rules and its
 * ownership manifest.  Every command may fail, and a command whose SSH reply is
 * lost may or may not have taken effect.
 */
module RemoteHost {
  import opened Common

  type Text = string
  type File = Option<Text>

  datatype Rule = Rule(port: nat, udp: bool)

  // A command either exits (code 0 or not) or its reply never arrives.
  datatype Reply = Exit0 | ExitError | Dropped

  // What a process read from disk when it was started.
  datatype Loaded = Loaded(config: File, cert: File, key: File)

  datatype Backups = Backups(config: File, unit: File)

  // What went wrong without any reply saying so.
  datatype Faults = Faults(
    lostRules: set<Rule>,     // added by commands whose reply was lost
    lostManifest: bool,       // written although the reply was lost
    misprobedActive: bool,    // a probe answered "no" about a running service
    misprobedEnabled: bool,   // ... or about an enabled one
    stuck: bool)              // a stop request left the service running

  datatype State = State(config: File, unit: File, cert: File, key: File, running: Option<Loaded>, enabled: bool,
                         rules: set<Rule>, manifest: File, backups: Backups, faults: Faults)
  {
    ghost predicate NoFaults() {
      faults == Faults({}, false, false, false, false)
    }

    function OnDisk(): Loaded {
      Loaded(config, cert, key)
    }
  }

  datatype RollbackPoint = RollbackPoint(hadConfig: bool, hadUnit: bool, wasActive: bool, wasEnabled: bool)

  // The two ways a deploy step throws: plainly, or as a DeploymentRollbackFailureError.
  datatype Thrown = Plain | RollbackFailure

  // The recorded point describes `b`, up to probes that misreported.
  ghost predicate Holds(s: State, rb: RollbackPoint, b: State) {
    && rb.hadConfig == b.config.Some?
    && rb.hadUnit == b.unit.Some?
    && (rb.hadConfig ==> s.backups.config == b.config)
    && (rb.hadUnit ==> s.backups.unit == b.unit)
    && rb.wasActive == (b.running.Some? && !s.faults.misprobedActive)
    && rb.wasEnabled == (b.enabled && !s.faults.misprobedEnabled)
  }

  // Only the service's own files and run state may differ.
  ghost predicate SameButService(s: State, t: State) {
    s == t.(config := s.config, unit := s.unit, running := s.running, enabled := s.enabled,
            faults := t.faults.(stuck := s.faults.stuck))
  }

  // What a believed restore of the point establishes.
  ghost predicate ServiceRestored(s: State, rb: RollbackPoint, b: State) {
    && s.config == b.config && s.unit == b.unit
    && (rb.hadUnit && rb.wasEnabled ==> s.enabled)
    && (rb.hadUnit && rb.wasActive ==> s.running.Some?)
    && (s.running.Some? && !s.faults.stuck ==> s.running == Some(s.OnDisk()))
  }

  // What goes wrong on a host on which everything else goes well.
  datatype Mishap = Mishap(
    deafTo: set<Rule>,        // commands that add these rules lose their reply
    deafManifest: bool,       // and so does the one that writes the manifest
    blind: bool)              // no probe sees a service running

  class Host {
    // None: anything can go wrong.
    const mishap: Option<Mishap>
    var s: State

    constructor (s: State, mishap: Option<Mishap> := None)
      ensures this.s == s && this.mishap == mishap
    {
      this.s, this.mishap := s, mishap;
    }

    ghost predicate Calm() {
      mishap.Some?
    }

    // Whatever is not fixed by the mishap.
    method Any(due: bool) returns (b: bool)
      ensures Calm() ==> b == due
    {
      b := *;
      if mishap.Some? {
        b := due;
      }
    }

    // ── Commands ─────────────────────────────────────────────────────────

    // A shell redirect truncates first, so a failed upload can leave anything.
    method UploadConfig(text: Text) returns (ok: bool)
      modifies this
      ensures s == old(s).(config := s.config)
      ensures ok ==> s.config == Some(text)
      ensures Calm() ==> ok
    {
      var partial: File := *;
      ok := Any(true);
      s := s.(config := if ok then Some(text) else partial);
    }

    method UploadUnit(text: Text) returns (ok: bool)
      modifies this
      ensures s == old(s).(unit := s.unit)
      ensures ok ==> s.unit == Some(text)
      ensures Calm() ==> ok
    {
      var partial: File := *;
      ok := Any(true);
      s := s.(unit := if ok then Some(text) else partial);
    }

    // A rename is atomic, but the reply may be lost after it happened.
    method ActivateStagedConfig(text: Text) returns (ok: bool)
      modifies this
      ensures s == old(s).(config := s.config)
      ensures ok ==> s.config == Some(text)
      ensures Calm() ==> ok
    {
      ok := Any(true);
      var effect: bool := *;
      if ok || effect {
        s := s.(config := Some(text));
      }
    }

    method Stop()
      modifies this
      ensures SameButService(s, old(s)) && s.config == old(s).config && s.unit == old(s).unit
        && s.enabled == old(s).enabled
      ensures s.running == None || (s.running == old(s).running && s.faults.stuck)
      ensures Calm() ==> s.running == None && s.faults == old(s).faults
    {
      var stopped := Any(true);
      s := if stopped then s.(running := None) else s.(faults := s.faults.(stuck := true));
    }

    // Starting a running service does nothing; a started one may crash at once.
    method Start() returns (ok: bool)
      modifies this
      ensures s == old(s).(running := s.running)
      ensures s.running == old(s).running || s.running == Some(s.OnDisk())
      ensures Calm() ==> ok && s.running.Some?
    {
      ok := Any(true);
      var alive := Any(true);
      if s.running == None && alive {
        s := s.(running := Some(s.OnDisk()));
      }
    }

    method EnableAndStart()
      modifies this
      ensures s == old(s).(running := s.running, enabled := s.enabled)
      ensures s.running == old(s).running || s.running == Some(s.OnDisk())
      ensures Calm() ==> s.running.Some?
    {
      var done := Any(true);
      if done {
        s := s.(enabled := true);
        var started := Start();
      }
    }

    // `is-active` never answers yes for a stopped service.
    method IsActive() returns (yes: bool)
      ensures yes ==> s.running.Some?
      ensures Calm() ==> yes == (s.running.Some? && !mishap.value.blind)
    {
      yes := Any(mishap.Some? && !mishap.value.blind);
      yes := yes && s.running.Some?;
    }

    // ── Rollback point ───────────────────────────────────────────────────

    // Nothing but backups is written; a step that fails removes them again.
    method PrepareRollback() returns (r: Option<RollbackPoint>)
      requires !s.faults.misprobedActive && !s.faults.misprobedEnabled
      modifies this
      ensures r.Some? ==> Holds(s, r.value, old(s))
      ensures s == old(s).(backups := s.backups, faults := s.faults)
      ensures s.faults == old(s).faults.(misprobedActive := s.faults.misprobedActive,
        misprobedEnabled := s.faults.misprobedEnabled)
      ensures r.None? ==> s.faults == old(s).faults
      ensures Calm() ==> r.Some? && s.faults.misprobedActive == (s.running.Some? && mishap.value.blind)
    {
      var copied := Any(true);
      if !copied {
        var leftover: Backups := *;
        s := s.(backups := leftover);
        return None;
      }
      s := s.(backups := Backups(s.config, s.unit));
      var active := IsActive();
      var isEnabled: bool := *;
      isEnabled := isEnabled && s.enabled;
      s := s.(faults := s.faults.(misprobedActive := s.running.Some? && !active,
        misprobedEnabled := s.enabled && !isEnabled));
      r := Some(RollbackPoint(s.config.Some?, s.unit.Some?, active, isEnabled));
    }

    // One run of the restore script; the connection may drop at any point of it.
    method RestoreOnce(rb: RollbackPoint, ghost b: State) returns (ok: bool)
      requires Holds(s, rb, b)
      modifies this
      ensures SameButService(s, old(s))
      ensures ok ==> s.config == b.config && s.unit == b.unit
      ensures ok && rb.hadUnit && rb.wasEnabled ==> s.enabled
      ensures ok && s.running.Some? && !s.faults.stuck ==> s.running == Some(s.OnDisk())
      ensures Calm() ==> ok && s.faults == old(s).faults && (s.running.Some? <==> rb.hadUnit && rb.wasActive)
    {
      Stop();
      ok := Any(true);
      if !ok {
        var c: File := *;
        var u: File := *;
        var e: bool := *;
        s := s.(config := c, unit := u, enabled := e);
        var reached: bool := *;
        if reached {
          var begun := Start();
        }
        return false;
      }
      // A failing `disable` is ignored by the script.
      var disabled: bool := *;
      s := s.(config := if rb.hadConfig then s.backups.config else None,
              unit := if rb.hadUnit then s.backups.unit else None,
              enabled := if rb.hadUnit && rb.wasEnabled then true else s.enabled && !disabled);
      if rb.hadUnit && rb.wasActive {
        ok := Start();
      }
    }

    // Two attempts; a service that was running must also pass a health check.
    method RestoreRollback(rb: RollbackPoint, ghost b: State) returns (ok: bool)
      requires Holds(s, rb, b)
      modifies this
      ensures SameButService(s, old(s).(backups := s.backups))
      ensures ok ==> ServiceRestored(s, rb, b)
      // A restore that is not believed keeps the backups.
      ensures !ok ==> Holds(s, rb, b)
      ensures Calm() && (rb.wasActive ==> !mishap.value.blind) ==>
        ok && s.faults == old(s).faults && (s.running.Some? <==> rb.hadUnit && rb.wasActive)
    {
      ok := false;
      var attempt := 1;
      while attempt <= 2 && !ok
        invariant Holds(s, rb, b) && SameButService(s, old(s))
        invariant Calm() && (rb.wasActive ==> !mishap.value.blind) ==>
          s.faults == old(s).faults
            && ((attempt == 1 && !ok) || (ok && (s.running.Some? <==> rb.hadUnit && rb.wasActive)))
        invariant ok ==> ServiceRestored(s, rb, b)
        decreases 3 - attempt
      {
        ok := RestoreOnce(rb, b);
        if ok && rb.hadUnit && rb.wasActive {
          ok := IsActive();
        }
        attempt := attempt + 1;
      }
      if ok {
        CleanupBackups();
      }
    }

    // Best effort: a failure is only logged.
    method CleanupBackups()
      modifies this
      ensures s == old(s).(backups := s.backups)
    {
      var done: bool := *;
      if done {
        s := s.(backups := Backups(None, None));
      }
    }

    // ── Firewall ─────────────────────────────────────────────────────────

    // Closing removes our rule; a reported failure says nothing about the rule.
    method CloseFirewall(rule: Rule) returns (ok: bool)
      modifies this
      ensures s == old(s) || s == old(s).(rules := old(s).rules - {rule})
      ensures ok ==> s.rules == old(s).rules - {rule}
      ensures Calm() ==> ok
    {
      ok := Any(true);
      var effect: bool := *;
      if ok || effect {
        s := s.(rules := s.rules - {rule});
      }
    }

    // Ok(added) says whether the rule is new.  A reply that is lost leaves no
    // trace of a rule the command did add.
    method OpenFirewall(rule: Rule) returns (r: Result<bool, Thrown>)
      modifies this
      ensures s == old(s).(rules := s.rules, faults := old(s).faults.(lostRules := s.faults.lostRules))
      ensures r.Ok? ==> r.value == (rule !in old(s).rules) && s == old(s).(rules := old(s).rules + {rule})
      ensures r.Err? && r.error != RollbackFailure ==>
        s == old(s) || (rule !in old(s).rules && s == Lost(old(s), rule))
      ensures old(s).rules <= s.rules
      ensures Calm() && rule !in old(s).rules && rule in mishap.value.deafTo ==>
        r == Err(Plain) && s == Lost(old(s), rule)
      ensures Calm() && (rule in old(s).rules || rule !in mishap.value.deafTo) ==> r.Ok?
    {
      var isNew := rule !in s.rules;
      var reply: Reply := *;
      var effect := Any(true);
      if mishap.Some? {
        reply := if isNew && rule in mishap.value.deafTo then Dropped else Exit0;
      }
      match reply
      case Exit0 =>
        s := s.(rules := s.rules + {rule});
        return Ok(isNew);
      case ExitError =>
        // The marker in the output, if it got that far, tells a partly failed
        // command that added the rule.
        var marked: bool := *;
        if isNew && effect && !marked {
          s := Lost(s, rule);
        } else if isNew && effect {
          s := s.(rules := s.rules + {rule});
          var closed := CloseFirewall(rule);
          if !closed {
            return Err(RollbackFailure);
          }
          assert s.rules == old(s).rules;
        }
        return Err(Plain);
      case Dropped =>
        if isNew && effect {
          s := Lost(s, rule);
        }
        return Err(Plain);
    }

    // ── Ownership manifest ───────────────────────────────────────────────

    // Some(previous) hands out what the rollback must write back.
    method Register(text: Text) returns (r: Option<File>)
      modifies this
      ensures r.Some? ==> r.value == old(s).manifest && s == old(s).(manifest := Some(text))
      ensures r.None? ==> s == old(s) || s == LostManifest(old(s), text)
      ensures Calm() && mishap.value.deafManifest ==> r.None? && s == LostManifest(old(s), text)
      ensures Calm() && !mishap.value.deafManifest ==> r.Some?
    {
      var reply: Reply := *;
      var effect := Any(true);
      if mishap.Some? {
        reply := if mishap.value.deafManifest then Dropped else Exit0;
      }
      match reply
      case Exit0 =>
        r := Some(s.manifest);
        s := s.(manifest := Some(text));
      case ExitError =>
        r := None;
      case Dropped =>
        if effect {
          s := LostManifest(s, text);
        }
        r := None;
    }

    method RollbackManifest(previous: File) returns (ok: bool)
      modifies this
      ensures s == old(s) || s == old(s).(manifest := previous)
      ensures ok ==> s.manifest == previous
      ensures Calm() ==> ok
    {
      ok := Any(true);
      var effect: bool := *;
      if ok || effect {
        s := s.(manifest := previous);
      }
    }
  }

  function Lost(s: State, rule: Rule): State {
    s.(rules := s.rules + {rule}, faults := s.faults.(lostRules := s.faults.lostRules + {rule}))
  }

  function LostManifest(s: State, text: Text): State {
    s.(manifest := Some(text), faults := s.faults.(lostManifest := true))
  }
}
