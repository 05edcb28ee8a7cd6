/**
 * Updating a node: the row is rewritten first, the deployment follows, and the
 * row and DNS record are compensated when it fails (updateExclusive in
 * nodes.service.ts, with the deploy call it makes under its own locks).
 */
module NodeUpdate {
  import opened Common
  import Deploys = NodeDeploy

  type RecordId = nat

  // The part of a row that an update rewrites and a compensation writes back.
  datatype Shape = Shape(
    name: string, protocol: string, implementation: Option<string>, transport: Option<string>, tls: string,
    listenPort: nat, domain: Option<string>, egressIpPolicy: string, credentialsEnc: string,
    source: string, status: string, enabled: bool)

  datatype Row = Row(shape: Shape, cfDnsRecordId: Option<RecordId>)

  datatype Outcome =
    | Rejected          // refused, or a DNS record could not be created
    | RowNotWritten     // the first row update threw
    | Updated
    | NotRecovered      // "the remote side could not be restored"
    | RowNotRestored    // the compensating row update threw
    | ReportedRestored  // "deployment failed, the earlier configuration was restored"

  predicate Managed(protocol: string) {
    protocol == "TUIC" || protocol == "ANYTLS"
  }

  predicate Modern(s: Shape) {
    s.transport == Some("XHTTP") || Managed(s.protocol)
  }

  predicate Retiring(row: Row, target: Shape) {
    row.cfDnsRecordId.Some? && !Managed(target.protocol) && target.tls != "TLS"
  }

  predicate NeedsRecord(row: Row, target: Shape) {
    Managed(target.protocol) &&
    (target.protocol != row.shape.protocol || row.cfDnsRecordId.None? || row.shape.domain.None?)
  }

  // ── What can happen before the deployment ────────────────────────────────

  // A request either fails, or takes effect with its reply lost, or succeeds.
  datatype Reply = Failed | ReplyLost | Replied

  // refused: validation fails; record: the creation of a DNS record; write: the
  // first row update; cleaned: whether the cleanup of the record takes effect.
  datatype Beginning = Beginning(refused: bool, record: Reply, write: Reply, cleaned: bool)

  datatype Records = Records(row: Row, live: set<RecordId>, deleted: set<RecordId>, issued: RecordId)

  datatype Begun = Begun(s: Records, outcome: Option<Outcome>, pending: Option<RecordId>)

  // The new domain of a fresh record, or what the protocol change dictates.
  function TargetRow(row: Row, target: Shape, hostname: string, pending: Option<RecordId>): Row {
    if pending.Some? then Row(target.(domain := Some(hostname)), pending)
    else if Managed(target.protocol) then Row(target.(domain := row.shape.domain), row.cfDnsRecordId)
    else if Retiring(row, target) then Row(target, None)
    else Row(target, row.cfDnsRecordId)
  }

  // A record whose reply is lost exists, but nobody knows its id.
  function AfterCreation(s: Records, reply: Reply): Records {
    if reply.Failed? then s else s.(live := s.live + {s.issued}, issued := s.issued + 1)
  }

  function AfterWrite(s: Records, target: Row, reply: Reply): Records {
    if reply.Failed? then s else s.(row := target)
  }

  function AfterCleanup(s: Records, id: Option<RecordId>, cleaned: bool): Records {
    if id.Some? && cleaned then s.(live := s.live - {id.value}, deleted := s.deleted + {id.value}) else s
  }

  // What the first part of an update leaves.
  function Begin(s: Records, target: Shape, hostname: string, f: Beginning): Begun {
    if f.refused then Begun(s, Some(Rejected), None)
    else
      var needed := NeedsRecord(s.row, target);
      var created := if needed then AfterCreation(s, f.record) else s;
      if needed && !f.record.Replied? then Begun(created, Some(Rejected), None)
      else
        var pending := if needed then Some(s.issued) else None;
        var written := AfterWrite(created, TargetRow(s.row, target, hostname, pending), f.write);
        if f.write.Replied? then Begun(written, None, pending)
        else Begun(AfterCleanup(written, pending, f.cleaned), Some(RowNotWritten), pending)
  }

  // The row names a record that the update has deleted.
  ghost predicate Dangles(s: Records) {
    s.row.cfDnsRecordId.Some? && s.row.cfDnsRecordId.value in s.deleted
  }

  ghost predicate GoodRecords(s: Records) {
    && s.live !! s.deleted && (forall id <- s.live :: id < s.issued) && (forall id <- s.deleted :: id < s.issued)
    && (s.row.cfDnsRecordId.Some? ==> s.row.cfDnsRecordId.value in s.live)
  }

  // The failure pattern that leaves the id of a deleted record in the row.
  predicate Loses(row: Row, target: Shape, f: Beginning) {
    !f.refused && NeedsRecord(row, target) && f.record.Replied? && f.write.ReplyLost? && f.cleaned
  }

  lemma DanglesIff(s: Records, target: Shape, hostname: string, f: Beginning)
    requires GoodRecords(s)
    ensures Dangles(Begin(s, target, hostname, f).s) <==> Loses(s.row, target, f)
  {
  }

  // A caller can tell beforehand: some failure pattern does it exactly when the
  // update needs a fresh record.
  lemma CanDangleIff(s: Records, target: Shape, hostname: string)
    requires GoodRecords(s)
    ensures (exists f :: Dangles(Begin(s, target, hostname, f).s)) <==> NeedsRecord(s.row, target)
  {
    if NeedsRecord(s.row, target) {
      var f := Beginning(false, Replied, ReplyLost, true);
      DanglesIff(s, target, hostname, f);
      assert Dangles(Begin(s, target, hostname, f).s);
    }
  }

  // ── What can happen after it ─────────────────────────────────────────────

  // acquired: the deployment's own locks are taken; connectionLost: their connection
  // breaks; released: they are given back without an error; back: the row update
  // that restores the earlier row; cleaned: the cleanup of the record that is left.
  datatype Ending = Ending(acquired: bool, connectionLost: bool, released: bool, back: Reply, cleaned: bool)

  // What the locks make of the way in which a deployment ended: a lost connection
  // claims a failed rollback, and an error of the release replaces a normal return,
  // without any rollbackFailed flag.
  function Reported(ended: Option<Deploys.Outcome>, e: Ending): Deploys.Outcome {
    if ended.None? then Deploys.Threw(e.connectionLost)
    else if e.connectionLost then Deploys.Threw(true)
    else if !e.released && ended.value.Returned? then Deploys.Threw(false)
    else ended.value
  }

  // What an update makes of that.
  function Judged(ended: Option<Deploys.Outcome>, e: Ending): Outcome {
    var report := Reported(ended, e);
    if report.Returned? && report.success then Updated
    else if report.rollbackFailed then NotRecovered
    else if !e.back.Replied? then RowNotRestored
    else ReportedRestored
  }

  // A deployment that succeeded or whose rollback failed, of which the update says
  // that the earlier configuration was restored.
  predicate Misreported(ended: Option<Deploys.Outcome>, e: Ending) {
    && Judged(ended, e) == ReportedRestored && ended.Some?
    && (ended.value.rollbackFailed || (ended.value.Returned? && ended.value.success))
  }

  lemma MisreportedIff(ended: Option<Deploys.Outcome>, e: Ending)
    ensures Misreported(ended, e) <==>
      && ended.Some? && ended.value.Returned? && (ended.value.success || ended.value.rollbackFailed)
      && !e.connectionLost && !e.released && e.back.Replied?
  {
  }

  // The deployment is part of the update.
  predicate Transactional(row: Row, target: Shape) {
    Modern(row.shape) || Modern(target)
  }

  class Panel {
    var row: Row
    var live: set<RecordId>
    var deleted: set<RecordId>
    var issued: RecordId  // ids below this one have been handed out

    constructor (row: Row, live: set<RecordId>, issued: RecordId)
      requires forall id <- live :: id < issued
      requires row.cfDnsRecordId.Some? ==> row.cfDnsRecordId.value in live
      ensures this.row == row && this.live == live && deleted == {}
      ensures Valid()
    {
      this.issued := issued;
      this.row, this.live, deleted := row, live, {};
    }

    ghost predicate Dangling()
      reads this
    {
      Dangles(State())
    }

    ghost predicate Issued()
      reads this
    {
      live !! deleted && (forall id <- live :: id < issued) && (forall id <- deleted :: id < issued)
    }

    ghost predicate Valid()
      reads this
    {
      GoodRecords(State())
    }

    ghost function State(): Records
      reads this
    {
      Records(row, live, deleted, issued)
    }

    // A new record has an id that was never used; without a reply it is an orphan.
    method CreateRecord(reply: Reply) returns (id: Option<RecordId>)
      requires Issued()
      modifies this`live, this`issued
      ensures Issued() && State() == AfterCreation(old(State()), reply)
      ensures id == if reply.Replied? then Some(old(issued)) else None
    {
      if reply != Failed {
        live, issued := live + {issued}, issued + 1;
      }
      id := if reply == Replied then Some(issued - 1) else None;
    }

    // Failures are logged only, and the reply may be lost after the deletion.
    method CleanupRecord(id: RecordId, done: bool)
      requires Issued() && id < issued
      modifies this`live, this`deleted
      ensures Issued() && State() == AfterCleanup(old(State()), Some(id), done)
    {
      if done {
        live, deleted := live - {id}, deleted + {id};
      }
    }

    // The deployment under its own advisory locks: taking them can throw before
    // any work, and giving them back can replace a normal return by a throw.
    method DeployLocked(d: Deploys.Deployment, e: Ending)
      returns (r: Deploys.Outcome, ghost ended: Option<Deploys.Outcome>)
      requires d.Ready()
      modifies d, d.entry, d.exit, d.push
      ensures r == Reported(ended, e) && Ended(d, ended) && (ended.Some? <==> e.acquired)
      ensures d.Calm() && d.WouldSucceed() && e.acquired ==> ended == Some(Deploys.Returned(true, false))
    {
      ended := None;
      if !e.acquired {
        return Deploys.Threw(e.connectionLost), None;
      }
      r := d.DeployExclusive();
      ended := Some(r);
      if e.connectionLost {
        r := Deploys.Threw(true);
      } else if !e.released && r.Returned? {
        r := Deploys.Threw(false);
      }
    }

    // What is left of a deployment that ended so, or never began.
    ghost predicate Ended(d: Deploys.Deployment, ended: Option<Deploys.Outcome>)
      reads d, d.entry, d.exit
    {
      match ended
      case None => !d.committed && !d.rollbackFailed && d.HostsRestored()
      case Some(o) =>
        && d.committed == (o.Returned? && o.success) && d.rollbackFailed == o.rollbackFailed
        && (d.committed ==> !d.rollbackFailed && d.Replacement())
          && (!d.committed && !d.rollbackFailed ==> d.HostsRestored())
    }

    // Validation, a fresh record if one is needed, and the first row update.
    method BeginUpdate(target: Shape, hostname: string, f: Beginning)
      returns (r: Option<Outcome>, pending: Option<RecordId>)
      requires Valid()
      modifies this`row, this`live, this`deleted, this`issued
      ensures Begun(State(), r, pending) == Begin(old(State()), target, hostname, f)
      ensures Issued() && (!Loses(old(row), target, f) ==> Valid())
      ensures r in {None, Some(Rejected), Some(RowNotWritten)}
      ensures Dangling() <==> Loses(old(row), target, f)
      ensures r == Some(Rejected) ==> row == old(row) && deleted == old(deleted)
      ensures r == Some(RowNotWritten) ==> (f.write.Failed? ==> row == old(row)) && deleted !! old(live)
      ensures r.None? ==> deleted == old(deleted) && row.shape.(domain := target.domain) == target
      ensures r.None? ==> (pending.Some? ==> pending.value in live && pending.value !in old(live)) && old(live) <= live
      ensures r.None? ==> row.cfDnsRecordId == NextRecord(old(row), target, pending)
    {
      var existing := row;
      pending := None;
      if f.refused {
        return Some(Rejected), None;
      }
      if NeedsRecord(existing, target) {
        pending := CreateRecord(f.record);
        if pending.None? {
          return Some(Rejected), None;
        }
      }
      var next := TargetRow(existing, target, hostname, pending);
      if f.write != Failed {
        row := next;
      }
      if f.write != Replied {
        if pending.Some? {
          CleanupRecord(pending.value, f.cleaned);
        }
        return Some(RowNotWritten), pending;
      }
      r := None;
    }

    // f: what happens before the deployment; e: what happens after it, whatever it
    // is; ended: how the deployment ended, if it began.
    method UpdateExclusive(target: Shape, hostname: string, d: Deploys.Deployment, f: Beginning, e: Ending)
      returns (r: Outcome, ghost ended: Option<Deploys.Outcome>)
      requires Valid() && d.Ready()
      modifies this, d, d.entry, d.exit, d.push
      ensures Issued() && Ended(d, ended)
      // The stored record id is one the update deleted exactly when a fresh
      // record was needed and made, the row update was committed although it
      // threw, and the record was cleaned up.
      ensures Dangling() <==> Loses(old(row), target, f)
      ensures !Loses(old(row), target, f) ==> Valid()
      // The outcome is that of the beginning, or what is made of the deployment.
      ensures var begun := Begin(old(State()), target, hostname, f).outcome;
        r == if begun.Some? then begun.value else if Transactional(old(row), target) then Judged(ended, e) else Updated
      // An update reported as restored has its row back; its hosts too, unless the
      // release of the deployment's locks hid how it ended.
      ensures r == ReportedRestored ==> Transactional(old(row), target) && row == old(row)
      ensures r == ReportedRestored ==> (d.committed || d.rollbackFailed <==> Misreported(ended, e))
      ensures r == ReportedRestored && !Misreported(ended, e) ==> d.HostsRestored()
      ensures r == ReportedRestored && d.committed ==> d.Replacement()
      ensures r == Rejected ==> row == old(row) && deleted == old(deleted) && d.Ready()
      ensures r == RowNotWritten ==> (f.write.Failed? ==> row == old(row)) && d.Ready()
      ensures r == Updated ==> row.shape.(domain := target.domain) == target
      ensures r == Updated && Transactional(old(row), target) ==> d.committed && d.Replacement()
      // Nothing but the replaced and the unused record is ever deleted.
      ensures r == Updated ==> deleted <= old(deleted) + RecordSet(old(row).cfDnsRecordId)
      ensures r in {RowNotWritten, ReportedRestored} ==> deleted !! old(live)
      ensures e.acquired && d.Calm() && d.WouldSucceed() && Transactional(old(row), target)
        && Begin(old(State()), target, hostname, f).outcome.None?
        ==> ended == Some(Deploys.Returned(true, false))
    {
      var existing := row;
      ended := None;
      var begun, pending := BeginUpdate(target, hostname, f);
      if begun.Some? {
        return begun.value, None;
      }
      r, ended := FinishUpdate(existing, target, pending, d, e);
    }

    // The row is written: deploy, or leave that to the background for a legacy edit.
    method FinishUpdate(existing: Row, target: Shape, pending: Option<RecordId>, d: Deploys.Deployment, e: Ending)
      returns (r: Outcome, ghost ended: Option<Deploys.Outcome>)
      requires Valid() && d.Ready() && row.cfDnsRecordId == NextRecord(existing, target, pending)
      requires existing.cfDnsRecordId.Some? ==> existing.cfDnsRecordId.value in live
      requires pending.Some? ==> pending.value in live && existing.cfDnsRecordId != pending
      modifies this`row, this`live, this`deleted, d, d.entry, d.exit, d.push
      ensures Valid() && Ended(d, ended) && r == if Transactional(existing, target) then Judged(ended, e) else Updated
      ensures r == ReportedRestored ==> row == existing && deleted <= old(deleted) + RecordSet(pending)
      ensures r == Updated ==> row == old(row) && deleted <= old(deleted) + RecordSet(existing.cfDnsRecordId)
      ensures r == Updated && Transactional(existing, target) ==> d.committed && d.Replacement()
      ensures e.acquired && d.Calm() && d.WouldSucceed() && Transactional(existing, target) ==>
        ended == Some(Deploys.Returned(true, false))
    {
      ended := None;
      if Transactional(existing, target) {
        r, ended := DeployOrCompensate(existing, pending, d, e);
        if r != Updated {
          return;
        }
      }
      RetireRecord(existing, target, pending, e.cleaned);
      r := Updated;
    }

    // The record that the row had before, once nothing needs it.
    method RetireRecord(existing: Row, target: Shape, pending: Option<RecordId>, done: bool)
      requires Valid() && row.cfDnsRecordId == NextRecord(existing, target, pending)
      requires existing.cfDnsRecordId.Some? ==>
        existing.cfDnsRecordId.value in live && existing.cfDnsRecordId != pending
      modifies this`live, this`deleted
      ensures Valid() && old(deleted) <= deleted <= old(deleted) + RecordSet(existing.cfDnsRecordId)
    {
      if Retiring(existing, target)
        || (pending.Some? && existing.cfDnsRecordId.Some? && existing.cfDnsRecordId != pending) {
        CleanupRecord(existing.cfDnsRecordId.value, done);
      }
    }

    // Deploy the rewritten row; write the earlier one back when that fails.
    method DeployOrCompensate(existing: Row, pending: Option<RecordId>, d: Deploys.Deployment, e: Ending)
      returns (r: Outcome, ghost ended: Option<Deploys.Outcome>)
      requires Valid() && d.Ready()
      requires existing.cfDnsRecordId.Some? ==> existing.cfDnsRecordId.value in live
      requires pending.Some? ==> pending.value in live && existing.cfDnsRecordId != pending
      modifies this`row, this`live, this`deleted, d, d.entry, d.exit, d.push
      ensures Valid() && r == Judged(ended, e) && Ended(d, ended)
      ensures r == Updated ==>
        row == old(row) && live == old(live) && deleted == old(deleted) && d.committed && d.Replacement()
      ensures r == NotRecovered ==> row == old(row) && deleted == old(deleted)
      ensures r == RowNotRestored ==> row == (if e.back.Failed? then old(row) else existing) && deleted == old(deleted)
      ensures r == ReportedRestored ==>
        row == existing && deleted == old(deleted) + if e.cleaned then RecordSet(pending) else {}
      ensures d.Calm() && d.WouldSucceed() && e.acquired ==> ended == Some(Deploys.Returned(true, false))
    {
      var report: Deploys.Outcome;
      report, ended := DeployLocked(d, e);
      if report.Returned? && report.success {
        return Updated, ended;
      }
      if report.rollbackFailed {
        return NotRecovered, ended;
      }
      if e.back != Failed {
        row := existing;
      }
      if e.back != Replied {
        return RowNotRestored, ended;
      }
      if pending.Some? {
        CleanupRecord(pending.value, e.cleaned);
      }
      return ReportedRestored, ended;
    }
  }

  // Reported as restored, while the new deployment stands: all goes well, but the
  // release of the deployment's locks throws.
  method SuccessIsHidden(p: Panel, target: Shape, hostname: string, d: Deploys.Deployment) returns (r: Outcome)
    requires p.Valid() && d.Ready() && d.Calm() && d.WouldSucceed() && Transactional(p.row, target)
    modifies p, d, d.entry, d.exit, d.push
    ensures r == ReportedRestored && p.row == old(p.row) && d.committed && d.Replacement()
  {
    ghost var ended;
    r, ended := p.UpdateExclusive(target, hostname, d, Beginning(false, Replied, Replied, true),
      Ending(true, false, false, Replied, true));
  }

  function NextRecord(row: Row, target: Shape, pending: Option<RecordId>): Option<RecordId> {
    if pending.Some? then pending else if Retiring(row, target) then None else row.cfDnsRecordId
  }

  function RecordSet(id: Option<RecordId>): set<RecordId> {
    if id.Some? then {id.value} else {}
  }
}
