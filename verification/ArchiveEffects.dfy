/** What each step of a backup, restore or rotation does to its own phase, the two locks and the
    archives, and that a process left alone goes all the way. */
module ArchiveEffects {
  import opened Wrappers
  import opened ArchiveLocks

  /** Everybody else is as before. */
  ghost predicate OthersAsBefore(s: State, after: State, p: Pid) {
    && after.processes.Keys == s.processes.Keys + {p}
    && forall q | q in s.processes && q != p :: after.processes[q] == s.processes[q]
  }

  /** The locks one process has once it is in a phase. */
  ghost predicate LocksAre(s: State, p: Pid, backup: bool, rotation: bool) {
    (s.backupLock == Some(p) <==> backup) && (s.rotationLock == Some(p) <==> rotation)
  }

  /** While it writes, or takes its pre-rotation backup, a process stores and prunes archives; nobody else
      does. */
  lemma WriteLands(s: State, p: Pid, a: Id, key: Key, remote: bool)
    ensures
      var writing := p in s.processes && (s.processes[p].Writing? || s.processes[p].PreBackup?);
      && Step(s, Write(p, a, key, remote)) ==
         (if writing then s.(archives := s.archives[a := Archive(key, remote)]) else s)
      && Step(s, Prune(p, a)) == (if writing then s.(archives := s.archives - {a}) else s)
  {
  }

  /** A process starts with no lock, in one of the four roles there are. */
  lemma StartLands(s: State, p: Pid, phase: Phase)
    requires LocksFit(s)
    ensures
      var after := Step(s, Start(p, phase));
      if p !in s.processes && (phase.Scheduled? || phase.Operator? || phase.Restore? || phase.Rotation?) then
        && p in after.processes && after.processes[p] == phase && OthersAsBefore(s, after, p)
        && after.archives == s.archives && after.backupLock == s.backupLock && after.rotationLock == s.rotationLock
      else after == s
  {
  }

  /** A process that dies is over, and what it held is free. */
  lemma CrashFrees(s: State, p: Pid)
    requires LocksFit(s) && p in s.processes
    ensures
      var after := Step(s, Crash(p));
      && p in after.processes && after.processes[p].Ended? && OthersAsBefore(s, after, p)
      && after.archives == s.archives
      && after.backupLock == (if s.backupLock == Some(p) then None else s.backupLock)
      && after.rotationLock == (if s.rotationLock == Some(p) then None else s.rotationLock)
  {
  }

  /** A scheduled backup probes the rotation lock, lets it go and takes the backup lock; each try it loses
      ends it with nothing held. */
  lemma ScheduledGoesOn(s: State, p: Pid, scan: bool)
    requires LocksFit(s) && p in s.processes
    ensures
      var after := Step(s, Advance(p, scan));
      && (s.processes[p].Scheduled? && s.rotationLock.None? ==>
            after.processes[p].Probing? && LocksAre(after, p, false, true))
      && (s.processes[p].Scheduled? && s.rotationLock.Some? ==>
            after.processes[p].Ended? && LocksAre(after, p, false, false))
      && (s.processes[p].Probing? ==> after.processes[p].Probed? && LocksAre(after, p, false, false))
      && (s.processes[p] in {Probed, Operator, Restore} && s.backupLock.None? ==>
            after.processes[p].Writing? && LocksAre(after, p, true, false))
      && (s.processes[p] in {Probed, Operator, Restore} && s.backupLock.Some? ==>
            after.processes[p].Ended? && LocksAre(after, p, false, false))
      && (s.processes[p].Writing? ==> after.processes[p].Ended? && LocksAre(after, p, false, false))
  {
  }

  /** A rotation takes the rotation lock, then the backup lock, and either goes to its tables or first
      takes a backup with the rotation lock let go. */
  lemma RotationGoesOn(s: State, p: Pid, scan: bool, target: Key, resume: bool)
    requires LocksFit(s) && p in s.processes
    ensures
      var after := Step(s, Advance(p, scan));
      && (s.processes[p] == Rotation(target, resume) && s.rotationLock.None? ==>
            after.processes[p] == Guarded(target, resume) && LocksAre(after, p, false, true))
      && (s.processes[p] == Rotation(target, resume) && s.rotationLock.Some? ==>
            after.processes[p].Ended? && LocksAre(after, p, false, false))
      && (s.processes[p] == Guarded(target, resume) && s.backupLock.None? ==>
            after.processes[p] == BothHeld(target, resume) && LocksAre(after, p, true, true))
      && (s.processes[p] == Guarded(target, resume) && s.backupLock.Some? ==>
            after.processes[p].Ended? && LocksAre(after, p, false, false))
      && (s.processes[p] == BothHeld(target, true) ==>
            after.processes[p] == Tables(target) && LocksAre(after, p, true, true))
      && (s.processes[p] == BothHeld(target, false) ==>
            after.processes[p] == PreBackup(target) && LocksAre(after, p, true, false))
      && (s.processes[p] == PreBackup(target) && s.rotationLock.None? ==>
            after.processes[p] == Tables(target) && LocksAre(after, p, true, true))
  {
  }

  /** From its tables a rotation lists the archives it can reach, with the remote ones only if that
      destination is scanned; it completes when none is left to try, lets the backup lock go, then the
      other. */
  lemma PassBegins(s: State, p: Pid, scan: bool, target: Key)
    requires LocksFit(s) && p in s.processes && s.processes[p] == Tables(target)
    ensures
      var now := Step(s, Advance(p, scan)).processes[p];
      && now.Reencrypting? && now.target == target && now.found == s.archives
      && (forall a :: a in now.pending <==> a in s.archives && (scan || !s.archives[a].remote))
      && (forall a :: a in now.left <==> a in s.archives && !scan && s.archives[a].remote)
      && LocksAre(Step(s, Advance(p, scan)), p, true, true)
  {
  }

  lemma PassEnds(s: State, p: Pid, scan: bool)
    requires LocksFit(s) && p in s.processes
    ensures
      var after := Step(s, Advance(p, scan));
      && (s.processes[p].Reencrypting? && s.processes[p].pending == {} ==>
            && after.processes[p] ==
               Completed(s.processes[p].target, s.processes[p].found, s.processes[p].left)
            && LocksAre(after, p, true, true))
      && (s.processes[p].Completed? ==> after.processes[p].Releasing? && LocksAre(after, p, false, true))
      && (s.processes[p].Releasing? ==> after.processes[p].Ended? && LocksAre(after, p, false, false))
  {
  }

  /** Advancing touches no archive and nobody else. */
  lemma AdvanceIsOwn(s: State, p: Pid, scan: bool)
    requires p in s.processes
    ensures
      var after := Step(s, Advance(p, scan));
      after.archives == s.archives && OthersAsBefore(s, after, p)
  {
  }

  /** Each archive still to do is tried once: it ends on the target key, or is left as it was and noted;
      either way the pass has one less to try. */
  lemma PassGoesDown(s: State, p: Pid, a: Id, outcome: Outcome)
    requires p in s.processes && s.processes[p].Reencrypting?
    requires LocksFit(s) && a in s.processes[p].pending && a in s.archives
    requires outcome.AlreadyCurrent? ==> s.archives[a].key == s.processes[p].target
    ensures
      var before, after := s.processes[p], Step(s, Reencrypt(p, a, outcome));
      && p in after.processes && after.processes[p].Reencrypting?
      && after.processes[p].pending == before.pending - {a}
      && after.processes[p].left == before.left + (if outcome.Untouched? then {a} else {})
      && after.processes[p].target == before.target && after.processes[p].found == before.found
      && after.archives.Keys == s.archives.Keys
      && after.archives[a] ==
         (if outcome.Untouched? then s.archives[a] else Archive(before.target, s.archives[a].remote))
      && (forall b | b in s.archives && b != a :: after.archives[b] == s.archives[b])
      && OthersAsBefore(s, after, p)
      && after.backupLock == s.backupLock && after.rotationLock == s.rotationLock
  {
  }

  /** Nothing else moves: an archive not to do, one gone, one said to be current that is not, or a process
      in no pass; nor does a pass end with archives to try, or an ended process start again. */
  lemma PassStands(s: State, p: Pid, a: Id, outcome: Outcome, scan: bool)
    requires p in s.processes
    requires
      || !s.processes[p].Reencrypting? || a !in s.processes[p].pending || a !in s.archives
      || (outcome.AlreadyCurrent? && s.archives[a].key != s.processes[p].target)
    ensures Step(s, Reencrypt(p, a, outcome)) == s
    ensures s.processes[p].Reencrypting? && s.processes[p].pending != {} ==> Step(s, Advance(p, scan)) == s
    ensures s.processes[p].Ended? ==> Step(s, Advance(p, scan)) == s
  {
  }

  // A pass left alone.

  /** The pass over a list of archives, each of them rewritten. */
  function Rewrites(p: Pid, plan: seq<Id>): seq<Event> {
    if plan == [] then []
    else Rewrites(p, plan[..|plan| - 1]) + [Reencrypt(p, plan[|plan| - 1], Reencrypted)]
  }

  /** A pass that has failed nothing, and what it still has to do is at the destination. */
  ghost predicate Going(s: State, p: Pid, target: Key, pending: set<Id>) {
    && LocksFit(s) && p in s.processes && s.processes[p].Reencrypting?
    && s.processes[p].target == target && s.processes[p].pending == pending && s.processes[p].left == {}
    && pending <= s.archives.Keys
  }

  lemma OneDown(s: State, p: Pid, target: Key, pending: set<Id>, a: Id)
    requires Going(s, p, target, pending) && a in pending
    ensures
      var after := Step(s, Reencrypt(p, a, Reencrypted));
      && Going(after, p, target, pending - {a}) && after.archives.Keys == s.archives.Keys
      && after.archives[a].key == target
      && forall b | b in s.archives && b != a :: after.archives[b] == s.archives[b]
  {
    PassGoesDown(s, p, a, Reencrypted);
    StepKeepsLocks(s, Reencrypt(p, a, Reencrypted));
  }

  lemma LastOfPlan(s: State, p: Pid, target: Key, pending: set<Id>, earlier: seq<Id>, last: Id)
    requires Going(s, p, target, pending) && last in pending && last !in earlier
    requires forall a | a in earlier :: a in s.archives && s.archives[a].key == target
    ensures
      var after := Step(s, Reencrypt(p, last, Reencrypted));
      && Going(after, p, target, pending - {last}) && after.archives.Keys == s.archives.Keys
      && forall a | a in earlier + [last] :: a in after.archives && after.archives[a].key == target
  {
    OneDown(s, p, target, pending, last);
  }

  /** Left alone, a pass puts every archive it lists on the target key, and then completes. */
  lemma {:induction false} PassAlone(s: State, p: Pid, target: Key, pending: set<Id>, plan: seq<Id>)
    requires Going(s, p, target, pending)
    requires (forall a | a in plan :: a in pending) && forall i, j | 0 <= i < j < |plan| :: plan[i] != plan[j]
    ensures
      var after := Run(s, Rewrites(p, plan));
      && Going(after, p, target, pending - Listed(plan)) && after.archives.Keys == s.archives.Keys
      && forall a | a in plan :: a in after.archives && after.archives[a].key == target
    decreases |plan|
  {
    if plan == [] {
      assert pending - Listed(plan) == pending;
    } else {
      var earlier, last := plan[..|plan| - 1], plan[|plan| - 1];
      assert plan == earlier + [last] && last !in earlier;
      PassAlone(s, p, target, pending, earlier);
      RunOneMore(s, Rewrites(p, earlier), Reencrypt(p, last, Reencrypted));
      LastOfPlan(Run(s, Rewrites(p, earlier)), p, target, pending - Listed(earlier), earlier, last);
      assert pending - Listed(earlier) - {last} == pending - Listed(plan);
    }
  }

  function Listed(plan: seq<Id>): set<Id> {
    set a | a in plan
  }

  /** With the whole list tried, its next step completes the rotation. */
  lemma PassAloneCompletes(s: State, p: Pid, target: Key, plan: seq<Id>)
    requires Going(s, p, target, Listed(plan)) && forall i, j | 0 <= i < j < |plan| :: plan[i] != plan[j]
    ensures
      var after := Step(Run(s, Rewrites(p, plan)), Advance(p, false));
      && p in after.processes && after.processes[p].Completed?
      && forall a | a in plan :: a in after.archives && after.archives[a].key == target
  {
    PassAlone(s, p, target, Listed(plan), plan);
    var done := Run(s, Rewrites(p, plan));
    assert Listed(plan) - Listed(plan) == {};
    PassEnds(done, p, false);
    AdvanceIsOwn(done, p, false);
  }
}
