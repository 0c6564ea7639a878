/** The scheduled backup and the re-encryption pass as written, over the two lock slots. */
module BackupJobs {
  import opened Wrappers
  import opened ArchiveLocks

  /** How the backup pipeline ends: with an archive and those its retention pass prunes, or not. */
  datatype BackupRun = Succeeds(archive: Id, key: Key, remote: bool, pruned: set<Id>) | Fails

  datatype Skip = HostedMode | NotSetUp | NotDue | RotationRunning | BackupLockHeld

  datatype SweepResult = Skipped(reason: Skip) | Ran(succeeded: bool)

  class Instance {
    var backupLock: Option<Pid>
    var rotationLock: Option<Pid>
    var archives: map<Id, Archive>

    constructor (archives: map<Id, Archive>)
      ensures backupLock == None && rotationLock == None && this.archives == archives
    {
      backupLock, rotationLock, this.archives := None, None, archives;
    }

    /** Tested and let go at once: nobody's lock is changed by asking. */
    method IsKeyRotationRunning(me: Pid) returns (running: bool)
      modifies this`rotationLock
      ensures rotationLock == old(rotationLock)
      ensures running <==> rotationLock.Some?
    {
      var acquired := rotationLock.None?;
      if acquired {
        rotationLock := Some(me);
        rotationLock := None;
      }
      running := !acquired;
    }

    method AcquireBackupLock(me: Pid) returns (acquired: bool)
      modifies this`backupLock
      ensures acquired <==> old(backupLock).None?
      ensures backupLock == if acquired then Some(me) else old(backupLock)
    {
      acquired := backupLock.None?;
      if acquired {
        backupLock := Some(me);
      }
    }

    /** Archives change only inside the lock, and every way out leaves both locks as they were. */
    method RunScheduledBackup(me: Pid, hosted: bool, setUp: bool, due: bool, run: BackupRun)
      returns (result: SweepResult)
      modifies this
      ensures backupLock == old(backupLock) && rotationLock == old(rotationLock)
      ensures result.Ran? <==>
        !hosted && setUp && due && old(rotationLock).None? && old(backupLock).None?
      ensures result.Ran? ==> result.succeeded == run.Succeeds?
      ensures result == Skipped(HostedMode) <==> hosted
      ensures result == Skipped(NotSetUp) <==> !hosted && !setUp
      ensures result == Skipped(NotDue) <==> !hosted && setUp && !due
      ensures result == Skipped(RotationRunning) <==> !hosted && setUp && due && old(rotationLock).Some?
      ensures archives ==
        if result.Ran? && result.succeeded
        then old(archives)[run.archive := Archive(run.key, run.remote)] - run.pruned
        else old(archives)
    {
      if hosted {
        return Skipped(HostedMode);
      }
      if !setUp {
        return Skipped(NotSetUp);
      }
      if !due {
        return Skipped(NotDue);
      }
      var rotating := IsKeyRotationRunning(me);
      if rotating {
        return Skipped(RotationRunning);
      }
      var acquired := AcquireBackupLock(me);
      if !acquired {
        return Skipped(BackupLockHeld);
      }
      match run {
        case Succeeds(archive, key, remote, pruned) =>
          archives := archives[archive := Archive(key, remote)] - pruned;
          result := Ran(true);
        case Fails =>
          result := Ran(false);
      }
      backupLock := None;
    }

    /** One pass over the listed archives. A failure never stops it, and an archive rewritten before its
        audit row failed is in both totals. All listed archives end on the target key exactly when each
        one left untouched was there already. */
    method ReencryptConfiguredArchives(plans: seq<Id>, target: Key, outcomes: map<Id, Outcome>)
      returns (reencrypted: nat, failures: nat)
      requires forall a | a in plans :: a in archives && a in outcomes
      requires forall a | a in plans && outcomes[a].AlreadyCurrent? :: archives[a].key == target
      modifies this`archives
      ensures archives.Keys == old(archives).Keys
      ensures reencrypted == Tally(plans, outcomes, {Reencrypted, Rewritten})
      ensures failures == Tally(plans, outcomes, {Rewritten, Untouched})
      ensures reencrypted == |TalliedAt(plans, outcomes, {Reencrypted, Rewritten})|
      ensures failures == |TalliedAt(plans, outcomes, {Rewritten, Untouched})|
      ensures (forall a | a in plans :: archives[a].key == target) <==>
        forall a | a in plans && outcomes[a].Untouched? :: old(archives)[a].key == target
      ensures failures == 0 ==> forall a | a in plans :: archives[a].key == target
      ensures forall a | a in archives ::
        archives[a] == if a in plans && outcomes[a] in {Reencrypted, Rewritten}
                       then old(archives)[a].(key := target) else old(archives)[a]
    {
      reencrypted, failures := 0, 0;
      for i := 0 to |plans|
        invariant archives.Keys == old(archives).Keys
        invariant reencrypted == Tally(plans[..i], outcomes, {Reencrypted, Rewritten})
        invariant failures == Tally(plans[..i], outcomes, {Rewritten, Untouched})
        invariant forall a | a in archives ::
          archives[a] == if a in plans[..i] && outcomes[a] in {Reencrypted, Rewritten}
                         then old(archives)[a].(key := target) else old(archives)[a]
      {
        var a := plans[i];
        assert plans[..i + 1] == plans[..i] + [a] && plans[..i + 1][..i] == plans[..i];
        if outcomes[a] in {Reencrypted, Rewritten} {
          archives := archives[a := archives[a].(key := target)];
          reencrypted := reencrypted + 1;
        }
        if outcomes[a] in {Rewritten, Untouched} {
          failures := failures + 1;
        }
      }
      assert plans[..|plans|] == plans;
      PassMeans(plans, target, outcomes, old(archives), archives);
    }
  }

  /** What a pass that rewrote exactly the archives it says it did leaves, and what its totals count. */
  lemma PassMeans(
    plans: seq<Id>, target: Key, outcomes: map<Id, Outcome>, before: map<Id, Archive>, after: map<Id, Archive>)
    requires forall a | a in plans :: a in before && a in outcomes
    requires forall a | a in plans && outcomes[a].AlreadyCurrent? :: before[a].key == target
    requires after.Keys == before.Keys
    requires forall a | a in after ::
      after[a] == if a in plans && outcomes[a] in {Reencrypted, Rewritten}
                  then before[a].(key := target) else before[a]
    ensures Tally(plans, outcomes, {Reencrypted, Rewritten}) ==
            |TalliedAt(plans, outcomes, {Reencrypted, Rewritten})|
    ensures Tally(plans, outcomes, {Rewritten, Untouched}) == |TalliedAt(plans, outcomes, {Rewritten, Untouched})|
    ensures (forall a | a in plans :: after[a].key == target) <==>
      forall a | a in plans && outcomes[a].Untouched? :: before[a].key == target
    ensures Tally(plans, outcomes, {Rewritten, Untouched}) == 0 ==> forall a | a in plans :: after[a].key == target
  {
    TallyCounts(plans, outcomes, {Reencrypted, Rewritten});
    TallyCounts(plans, outcomes, {Rewritten, Untouched});
    forall a | a in plans
      ensures after[a].key == target <==> (outcomes[a].Untouched? ==> before[a].key == target)
    {
    }
    if Tally(plans, outcomes, {Rewritten, Untouched}) == 0 {
      NoneTallied(plans, outcomes, {Rewritten, Untouched});
    }
  }

  /** How many of the plans end in one of the given outcomes. */
  function Tally(plans: seq<Id>, outcomes: map<Id, Outcome>, kinds: set<Outcome>): nat
    requires forall a | a in plans :: a in outcomes
  {
    if plans == [] then 0
    else
      var last := |plans| - 1;
      Tally(plans[..last], outcomes, kinds) + if outcomes[plans[last]] in kinds then 1 else 0
  }

  function TalliedAt(plans: seq<Id>, outcomes: map<Id, Outcome>, kinds: set<Outcome>): set<nat>
    requires forall a | a in plans :: a in outcomes
  {
    set i | 0 <= i < |plans| && outcomes[plans[i]] in kinds
  }

  lemma {:induction false} TallyCounts(plans: seq<Id>, outcomes: map<Id, Outcome>, kinds: set<Outcome>)
    requires forall a | a in plans :: a in outcomes
    ensures Tally(plans, outcomes, kinds) == |TalliedAt(plans, outcomes, kinds)|
    decreases |plans|
  {
    if plans == [] {
      assert TalliedAt(plans, outcomes, kinds) == {};
    } else {
      var last := |plans| - 1;
      TallyCounts(plans[..last], outcomes, kinds);
      assert forall i | 0 <= i < last :: plans[..last][i] == plans[i];
      assert TalliedAt(plans, outcomes, kinds) ==
             TalliedAt(plans[..last], outcomes, kinds) + (if outcomes[plans[last]] in kinds then {last} else {});
    }
  }

  lemma {:induction false} NoneTallied(plans: seq<Id>, outcomes: map<Id, Outcome>, kinds: set<Outcome>)
    requires forall a | a in plans :: a in outcomes
    requires Tally(plans, outcomes, kinds) == 0
    ensures forall a | a in plans :: outcomes[a] !in kinds
    decreases |plans|
  {
    if plans != [] {
      var last := |plans| - 1;
      NoneTallied(plans[..last], outcomes, kinds);
      assert plans == plans[..last] + [plans[last]];
    }
  }
}
