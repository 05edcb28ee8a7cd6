/**
 * Pushing a certificate pair to a host: staged upload, backup, two-file
 * activation, and a handle that commits or rolls back (cert.service.ts).
 */
module CertPush {
  import opened Common
  import opened RemoteHost

  datatype HandleState = Pending | Committed | RolledBack

  datatype Pair = Pair(cert: File, key: File)

  // Outcome of a push: an update handle, or a throw.
  datatype Pushed = Unchanged | Changed | Failed(thrown: Thrown)

  // A certificate and a private key belong together.  Which contents do is a
  // fact about cryptography, so it is a parameter.
  type Matching = (Text, Text) -> bool

  ghost predicate ValidPair(matching: Matching, p: Pair) {
    p.cert.Some? && p.key.Some? && matching(p.cert.value, p.key.value)
  }

  class CertUpdate {
    const host: Host
    const newCert: Text
    const newKey: Text
    var state: HandleState
    var hadCert: bool
    var hadKey: bool
    var backupCert: File
    var backupKey: File
    var stagedCert: File
    var stagedKey: File

    constructor (host: Host, newCert: Text, newKey: Text)
      ensures this.host == host && this.newCert == newCert && this.newKey == newKey
      ensures state == Pending
    {
      this.host, this.newCert, this.newKey := host, newCert, newKey;
      state, hadCert, hadKey := Pending, false, false;
      backupCert, backupKey, stagedCert, stagedKey := None, None, None, None;
    }

    ghost function Installed(): Pair
      reads host
    {
      Pair(host.s.cert, host.s.key)
    }

    // Only the certificate pair of the host may differ.
    twostate predicate SameButCert()
      reads host
    {
      host.s == old(host.s).(cert := host.s.cert, key := host.s.key)
    }

    // While pending, the backups are exactly the earlier pair.
    ghost predicate Restorable(before: Pair)
      reads this`state, this`hadCert, this`hadKey, this`backupCert, this`backupKey
    {
      && state == Pending
      && hadCert == before.cert.Some? && hadKey == before.key.Some?
      && (hadCert ==> backupCert == before.cert)
      && (hadKey ==> backupKey == before.key)
    }

    method RemoveStaged()
      modifies this`stagedCert, this`stagedKey
    {
      var done: bool := *;
      if done {
        stagedCert, stagedKey := None, None;
      }
    }

    method RemoveBackups()
      modifies this`backupCert, this`backupKey
    {
      var done: bool := *;
      if done {
        backupCert, backupKey := None, None;
      }
    }

    // A restore that fails may have copied either file, or part of one.
    method Rollback(ghost before: Pair) returns (ok: bool)
      requires state == Pending ==> Restorable(before)
      requires state == RolledBack ==> Installed() == before
      modifies this`state, this`backupCert, this`backupKey, this`stagedCert, this`stagedKey,
               host
      ensures SameButCert()
      ensures ok == (state == RolledBack)
      ensures ok ==> Installed() == before
      ensures old(state) == Committed ==> !ok && state == Committed && Installed() == old(Installed())
      // After a failure the same handle may be rolled back again.
      ensures !ok && old(state) == Pending ==> Restorable(before)
    {
      if state == RolledBack {
        return true;
      }
      if state == Committed {
        return false;
      }
      var reply: Reply := *;
      if reply == Exit0 {
        host.s := host.s.(cert := if hadCert then backupCert else None, key := if hadKey then backupKey else None);
        state := RolledBack;
        RemoveBackups();
        RemoveStaged();
        return true;
      }
      var c: File := *;
      var k: File := *;
      host.s := host.s.(cert := c, key := k);
      return false;
    }

    method Commit()
      modifies this`state, this`backupCert, this`backupKey, this`stagedCert, this`stagedKey
      ensures old(state) == Pending ==> state == Committed
      ensures old(state) != Pending ==>
        state == old(state) && backupCert == old(backupCert) && backupKey == old(backupKey)
    {
      if state != Pending {
        return;
      }
      RemoveBackups();
      RemoveStaged();
      state := Committed;
    }

    // putFile of both files, then the openssl check of the staged pair.
    method Stage(matching: Matching) returns (ok: bool)
      modifies this`stagedCert, this`stagedKey
      ensures ok ==> stagedCert == Some(newCert) && stagedKey == Some(newKey) && matching(newCert, newKey)
    {
      var c: File := *;
      var k: File := *;
      stagedCert, stagedKey := c, k;
      var sent: bool := *;
      if !sent {
        return false;
      }
      stagedCert, stagedKey := Some(newCert), Some(newKey);
      var validated: bool := *;
      ok := validated && matching(newCert, newKey);
    }

    // Probe and copy both installed files.
    method Backup() returns (ok: bool)
      modifies this`hadCert, this`hadKey, this`backupCert, this`backupKey
      ensures ok && state == Pending ==> Restorable(Pair(host.s.cert, host.s.key))
    {
      var probed: bool := *;
      if !probed {
        return false;
      }
      hadCert, hadKey := host.s.cert.Some?, host.s.key.Some?;
      var copied: bool := *;
      if !copied {
        var c: File := *;
        var k: File := *;
        backupCert, backupKey := c, k;
        return false;
      }
      backupCert := if hadCert then host.s.cert else backupCert;
      backupKey := if hadKey then host.s.key else backupKey;
      ok := true;
    }

    // Two renames: the key is moved only if the certificate was.
    method Activate() returns (ok: bool)
      requires stagedCert == Some(newCert) && stagedKey == Some(newKey)
      modifies host, this`stagedCert, this`stagedKey
      ensures SameButCert()
      ensures ok ==> Installed() == Pair(Some(newCert), Some(newKey))
    {
      var movedCert: bool := *;
      if movedCert {
        host.s, stagedCert := host.s.(cert := stagedCert), None;
        var movedKey: bool := *;
        if movedKey {
          host.s, stagedKey := host.s.(key := stagedKey), None;
          // chown and chmod still have to succeed, and the reply to arrive.
          ok := *;
          return;
        }
      }
      ok := false;
    }

    // At return the pair on disk is entirely old or entirely new, unless a
    // failed rollback is reported.
    method Push(matching: Matching) returns (r: Pushed)
      requires state == Pending
      modifies this`state, this`hadCert, this`hadKey, this`backupCert, this`backupKey,
               this`stagedCert, this`stagedKey, host
      ensures SameButCert()
      ensures r == Unchanged ==>
        Installed() == old(Installed()) == Pair(Some(newCert), Some(newKey)) && state == Committed
      ensures r == Changed ==> Installed() == Pair(Some(newCert), Some(newKey)) && Restorable(old(Installed()))
      ensures r.Unchanged? || r.Changed? ==> ValidPair(matching, Installed())
      ensures r.Failed? && r.thrown != RollbackFailure ==> Installed() == old(Installed())
    {
      ghost var before := Installed();
      var made: bool := *;
      if !made {
        return Failed(Plain);
      }
      var staged := Stage(matching);
      if !staged {
        RemoveBackups();
        RemoveStaged();
        return Failed(Plain);
      }
      var compared: Reply := *;
      if compared == Dropped {
        RemoveBackups();
        RemoveStaged();
        return Failed(Plain);
      }
      if compared == Exit0 && host.s.cert == stagedCert && host.s.key == stagedKey {
        var secured: bool := *;
        if !secured {
          RemoveBackups();
          RemoveStaged();
          return Failed(Plain);
        }
        RemoveStaged();
        state := Committed;
        return Unchanged;
      }
      var saved := Backup();
      if !saved {
        RemoveBackups();
        RemoveStaged();
        return Failed(Plain);
      }
      var activated := Activate();
      var checked: bool := *;
      if activated && checked {
        return Changed;
      }
      var restored := Rollback(before);
      if !restored {
        return Failed(RollbackFailure);
      }
      RemoveStaged();
      return Failed(Plain);
    }
  }
}
