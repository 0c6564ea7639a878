/** Scheduled backups, operator backups, restores and key rotations as processes over two session
    advisory locks, any of which may die at any step and so free what its session held. */
module ArchiveLocks {
  import opened Wrappers

  type Id = nat
  type Pid = nat
  type Key = nat

  datatype Archive = Archive(key: Key, remote: bool)

  /** `found` is what the destination held when the re-encryption pass began; `left` are the archives
      the pass did not list, for want of usable remote credentials, or failed to rewrite. */
  datatype Phase =
    | Scheduled | Probing | Probed | Operator | Restore | Writing
    | Rotation(target: Key, resume: bool)
    | Guarded(target: Key, resume: bool)
    | BothHeld(target: Key, resume: bool)
    | PreBackup(target: Key)
    | Tables(target: Key)
    | Reencrypting(target: Key, found: map<Id, Archive>, pending: set<Id>, left: set<Id>)
    | Completed(target: Key, found: map<Id, Archive>, left: set<Id>)
    | Releasing
    | Ended

  predicate HoldsBackup(phase: Phase) {
    || phase.Writing? || phase.BothHeld? || phase.PreBackup? || phase.Tables? || phase.Reencrypting?
    || phase.Completed?
  }

  predicate HoldsRotation(phase: Phase) {
    || phase.Probing? || phase.Guarded? || phase.BothHeld? || phase.Tables? || phase.Reencrypting?
    || phase.Completed? || phase.Releasing?
  }

  datatype State = State(
    processes: map<Pid, Phase>, backupLock: Option<Pid>, rotationLock: Option<Pid>,
    archives: map<Id, Archive>)

  /** `Rewritten` is a re-encryption whose audit row then failed: the run counts it twice, as an archive
      re-encrypted and as a failure. */
  datatype Outcome = Reencrypted | AlreadyCurrent | Rewritten | Untouched

  datatype Event =
    | Start(p: Pid, phase: Phase)
    | Advance(p: Pid, scanRemote: bool)
    | Write(p: Pid, archive: Id, key: Key, remote: bool)
    | Prune(p: Pid, archive: Id)
    | Reencrypt(p: Pid, archive: Id, outcome: Outcome)
    | Crash(p: Pid)

  /** The locks a process holds follow from its phase: a transition takes and drops them together. */
  function Enter(s: State, p: Pid, phase: Phase): State {
    s.(processes := s.processes[p := phase],
       backupLock := if HoldsBackup(phase) then Some(p)
                     else if s.backupLock == Some(p) then None else s.backupLock,
       rotationLock := if HoldsRotation(phase) then Some(p)
                       else if s.rotationLock == Some(p) then None else s.rotationLock)
  }

  /** A try-lock: taken if free, otherwise the caller leaves with everything released. */
  function TryBackup(s: State, p: Pid, phase: Phase): State {
    if s.backupLock.None? then Enter(s, p, phase) else Enter(s, p, Ended)
  }

  function TryRotation(s: State, p: Pid, phase: Phase): State {
    if s.rotationLock.None? then Enter(s, p, phase) else Enter(s, p, Ended)
  }

  function AdvanceStep(s: State, p: Pid, scanRemote: bool): State
    requires p in s.processes
  {
    match s.processes[p]
    case Scheduled => TryRotation(s, p, Probing)
    case Probing => Enter(s, p, Probed)
    case Probed | Operator | Restore => TryBackup(s, p, Writing)
    case Writing => Enter(s, p, Ended)
    case Rotation(target, resume) => TryRotation(s, p, Guarded(target, resume))
    case Guarded(target, resume) => TryBackup(s, p, BothHeld(target, resume))
    case BothHeld(target, resume) => Enter(s, p, if resume then Tables(target) else PreBackup(target))
    case PreBackup(target) => TryRotation(s, p, Tables(target))
    case Tables(target) =>
      var listed := set a | a in s.archives && (scanRemote || !s.archives[a].remote);
      Enter(s, p, Reencrypting(target, s.archives, listed, s.archives.Keys - listed))
    case Reencrypting(target, found, pending, left) =>
      if pending == {} then Enter(s, p, Completed(target, found, left)) else s
    case Completed(_, _, _) => Enter(s, p, Releasing)
    case Releasing => Enter(s, p, Ended)
    case Ended => s
  }

  function ReencryptStep(s: State, p: Pid, a: Id, outcome: Outcome): State
    requires p in s.processes
  {
    match s.processes[p]
    case Reencrypting(target, found, pending, left) =>
      if a !in pending || a !in s.archives
         || (outcome.AlreadyCurrent? && s.archives[a].key != target) then s
      else if outcome.Untouched? then
        Enter(s, p, Reencrypting(target, found, pending - {a}, left + {a}))
      else
        Enter(s, p, Reencrypting(target, found, pending - {a}, left))
          .(archives := s.archives[a := s.archives[a].(key := target)])
    case _ => s
  }

  predicate IsStart(phase: Phase) {
    phase.Scheduled? || phase.Operator? || phase.Restore? || phase.Rotation?
  }

  predicate MayWrite(s: State, p: Pid) {
    p in s.processes && (s.processes[p].Writing? || s.processes[p].PreBackup?)
  }

  function Step(s: State, e: Event): State {
    match e
    case Start(p, phase) => if p in s.processes || !IsStart(phase) then s else Enter(s, p, phase)
    case Advance(p, scanRemote) => if p in s.processes then AdvanceStep(s, p, scanRemote) else s
    case Write(p, a, key, remote) =>
      if MayWrite(s, p) then s.(archives := s.archives[a := Archive(key, remote)]) else s
    case Prune(p, a) => if MayWrite(s, p) then s.(archives := s.archives - {a}) else s
    case Reencrypt(p, a, outcome) => if p in s.processes then ReencryptStep(s, p, a, outcome) else s
    case Crash(p) => if p in s.processes then Enter(s, p, Ended) else s
  }

  function Run(s: State, events: seq<Event>): State {
    if events == [] then s
    else Step(Run(s, events[..|events| - 1]), events[|events| - 1])
  }

  // What every state keeps.

  ghost predicate LocksFit(s: State) {
    && (forall p :: s.backupLock == Some(p) <==> p in s.processes && HoldsBackup(s.processes[p]))
    && forall p :: s.rotationLock == Some(p) <==> p in s.processes && HoldsRotation(s.processes[p])
  }

  /** What a re-encryption pass knows about every archive at the destination. */
  ghost predicate PassFits(s: State, phase: Phase) {
    match phase
    case Reencrypting(target, found, pending, left) =>
      && s.archives.Keys == found.Keys && pending !! left
      && forall a | a in found ::
           s.archives[a] == if a in pending || a in left then found[a] else found[a].(key := target)
    case Completed(target, found, left) =>
      && s.archives.Keys == found.Keys
      && forall a | a in found ::
           s.archives[a] == if a in left then found[a] else found[a].(key := target)
    case _ => true
  }

  ghost predicate Inv(s: State) {
    LocksFit(s) && forall p | p in s.processes :: PassFits(s, s.processes[p])
  }

  lemma EnterKeepsLocks(s: State, p: Pid, phase: Phase)
    requires LocksFit(s)
    requires HoldsBackup(phase) ==> s.backupLock == None || s.backupLock == Some(p)
    requires HoldsRotation(phase) ==> s.rotationLock == None || s.rotationLock == Some(p)
    ensures LocksFit(Enter(s, p, phase))
  {
  }

  lemma AdvanceKeepsLocks(s: State, p: Pid, scanRemote: bool)
    requires LocksFit(s) && p in s.processes
    ensures LocksFit(AdvanceStep(s, p, scanRemote))
  {
    var after := AdvanceStep(s, p, scanRemote);
    if after != s {
      AdvanceEnters(s, p, scanRemote);
      EnterKeepsLocks(s, p, after.processes[p]);
    }
  }

  /** A process that moves enters a phase whose locks it had or finds free. */
  lemma AdvanceEnters(s: State, p: Pid, scanRemote: bool)
    requires p in s.processes && AdvanceStep(s, p, scanRemote) != s
    requires HoldsBackup(s.processes[p]) ==> s.backupLock == Some(p)
    requires HoldsRotation(s.processes[p]) ==> s.rotationLock == Some(p)
    ensures
      var after := AdvanceStep(s, p, scanRemote);
      && p in after.processes && after == Enter(s, p, after.processes[p])
      && (HoldsBackup(after.processes[p]) ==> s.backupLock == None || s.backupLock == Some(p))
      && (HoldsRotation(after.processes[p]) ==> s.rotationLock == None || s.rotationLock == Some(p))
  {
  }

  lemma StepKeepsLocks(s: State, e: Event)
    requires LocksFit(s)
    ensures LocksFit(Step(s, e))
  {
    match e
    case Start(p, phase) =>
      if p !in s.processes && IsStart(phase) { EnterKeepsLocks(s, p, phase); }
    case Advance(p, scanRemote) =>
      if p in s.processes { AdvanceKeepsLocks(s, p, scanRemote); }
    case Reencrypt(p, a, outcome) =>
      if p in s.processes && Step(s, e) != s { EnterKeepsLocks(s, p, Step(s, e).processes[p]); }
    case Crash(p) => EnterKeepsLocks(s, p, Ended);
    case _ =>
  }

  lemma ReencryptKeepsPass(s: State, p: Pid, a: Id, outcome: Outcome)
    requires Inv(s) && p in s.processes
    ensures PassFits(ReencryptStep(s, p, a, outcome), ReencryptStep(s, p, a, outcome).processes[p])
  {
  }

  lemma OthersStay(s: State, e: Event, p: Pid)
    requires p in s.processes && p in Step(s, e).processes && (e.Advance? || e.Reencrypt? || e.Crash? ==> e.p != p)
    ensures Step(s, e).processes[p] == s.processes[p]
  {
  }

  /** Whoever changes archives holds the backup lock, so a pass in another process has seen them all. */
  lemma ArchivesStayForPass(s: State, e: Event, p: Pid)
    requires LocksFit(s) && p in s.processes && HoldsBackup(s.processes[p])
    requires !MayWrite(s, p) && !(e.Reencrypt? && e.p == p)
    ensures Step(s, e).archives == s.archives
  {
  }

  lemma StepKeepsPass(s: State, e: Event, p: Pid)
    requires Inv(s) && p in Step(s, e).processes
    ensures PassFits(Step(s, e), Step(s, e).processes[p])
  {
    if p in s.processes {
      assert PassFits(s, s.processes[p]);
      if e.Reencrypt? && e.p == p {
        ReencryptKeepsPass(s, p, e.archive, e.outcome);
      } else if !(e.Advance? || e.Crash?) || e.p != p {
        OthersStay(s, e, p);
        if HoldsBackup(s.processes[p]) && !MayWrite(s, p) {
          ArchivesStayForPass(s, e, p);
        }
      }
    }
  }

  lemma StepKeepsInv(s: State, e: Event)
    requires Inv(s)
    ensures Inv(Step(s, e))
  {
    StepKeepsLocks(s, e);
    forall p | p in Step(s, e).processes {
      StepKeepsPass(s, e, p);
    }
  }

  lemma {:induction false} RunKeepsInv(s: State, events: seq<Event>)
    requires Inv(s)
    ensures Inv(Run(s, events))
    decreases |events|
  {
    if events != [] {
      RunKeepsInv(s, events[..|events| - 1]);
      StepKeepsInv(Run(s, events[..|events| - 1]), events[|events| - 1]);
    }
  }

  lemma EmptyFits(archives: map<Id, Archive>)
    ensures Inv(State(map[], None, None, archives))
  {
  }

  /** Over any run, at most one process is writing, pruning or re-encrypting archives, and a process
      that has ended or died holds neither lock. */
  lemma OneWriter(s: State, events: seq<Event>, p: Pid, q: Pid)
    requires Inv(s)
    requires
      var after := Run(s, events);
      && p in after.processes && q in after.processes
      && (after.processes[p].Writing? || after.processes[p].PreBackup? || after.processes[p].Reencrypting?)
    ensures
      var after := Run(s, events);
      && (after.processes[q].Writing? || after.processes[q].PreBackup? || after.processes[q].Reencrypting? ==> p == q)
      && (after.processes[q].Ended? ==> after.backupLock != Some(q) && after.rotationLock != Some(q))
  {
    RunKeepsInv(s, events);
  }

  /** At most one rotation is past its guard at a time. */
  lemma OneRotation(s: State, events: seq<Event>, p: Pid, q: Pid)
    requires Inv(s)
    requires
      var after := Run(s, events);
      p in after.processes && q in after.processes && after.processes[p].Tables? && after.processes[q].Tables?
    ensures p == q
  {
    RunKeepsInv(s, events);
  }

  // What a pass leaves behind.

  predicate InPass(phase: Phase) {
    phase.Reencrypting? || phase.Completed?
  }

  predicate BeginsPass(s: State, e: Event, p: Pid) {
    e.Advance? && e.p == p && p in s.processes && s.processes[p].Tables?
  }

  /** The event fails the re-encryption of an archive the pass still had before it. */
  predicate FailsArchive(s: State, e: Event, p: Pid) {
    && e.Reencrypt? && e.p == p && e.outcome.Untouched? && p in s.processes
    && s.processes[p].Reencrypting? && e.archive in s.processes[p].pending && e.archive in s.archives
  }

  function RemoteArchives(s: State): set<Id> {
    set a | a in s.archives && s.archives[a].remote
  }

  /** The archives the pass of a process misses along a run, read off the events: the remote ones if the
      remote destination is not scanned when it begins, and each one whose re-encryption fails. */
  function Missed(s: State, events: seq<Event>, p: Pid): set<Id> {
    if events == [] then {}
    else
      var before := Run(s, events[..|events| - 1]);
      var last := events[|events| - 1];
      if BeginsPass(before, last, p) then if last.scanRemote then {} else RemoteArchives(before)
      else Missed(s, events[..|events| - 1], p) +
           if FailsArchive(before, last, p) then {last.archive} else {}
  }

  lemma {:induction false} LeftIsMissed(s: State, events: seq<Event>, p: Pid)
    requires p in s.processes ==> !InPass(s.processes[p])
    requires p in Run(s, events).processes && InPass(Run(s, events).processes[p])
    ensures Run(s, events).processes[p].left == Missed(s, events, p)
    decreases |events|
  {
    if events != [] {
      var before := Run(s, events[..|events| - 1]);
      var last := events[|events| - 1];
      PassGoesOn(before, last, p);
      if !BeginsPass(before, last, p) {
        LeftIsMissed(s, events[..|events| - 1], p);
      }
    }
  }

  /** A process is in a pass because it has just begun it or was in it already, and one event changes
      what the pass has left only as `Missed` says. */
  lemma PassGoesOn(s: State, e: Event, p: Pid)
    requires p in Step(s, e).processes && InPass(Step(s, e).processes[p])
    ensures BeginsPass(s, e, p) ==>
      Step(s, e).processes[p].left == if e.scanRemote then {} else RemoteArchives(s)
    ensures !BeginsPass(s, e, p) ==>
      && p in s.processes && InPass(s.processes[p])
      && Step(s, e).processes[p].left ==
         s.processes[p].left + if FailsArchive(s, e, p) then {e.archive} else {}
  {
    match e
    case Advance(q, scanRemote) =>
      if q != p || p !in s.processes {
        assert p in s.processes && Step(s, e).processes[p] == s.processes[p];
      } else {
        AdvanceGoesOn(s, p, scanRemote);
      }
    case Reencrypt(q, a, outcome) =>
      if q != p || p !in s.processes {
        assert p in s.processes && Step(s, e).processes[p] == s.processes[p];
      } else {
        ReencryptGoesOn(s, p, a, outcome);
      }
    case _ =>
  }

  lemma AdvanceGoesOn(s: State, p: Pid, scanRemote: bool)
    requires p in s.processes
    ensures
      var now := AdvanceStep(s, p, scanRemote).processes;
      p in now && InPass(now[p]) ==>
        if s.processes[p].Tables? then now[p].left == if scanRemote then {} else RemoteArchives(s)
        else InPass(s.processes[p]) && now[p].left == s.processes[p].left
  {
  }

  lemma ReencryptGoesOn(s: State, p: Pid, a: Id, outcome: Outcome)
    requires p in s.processes
    ensures
      var now := ReencryptStep(s, p, a, outcome).processes;
      p in now && InPass(now[p]) ==>
        && InPass(s.processes[p])
        && now[p].left ==
           s.processes[p].left + if FailsArchive(s, Reencrypt(p, a, outcome), p) then {a} else {}
  {
  }

  /** What a rotation that has completed, and still holds the backup lock, leaves at the destination:
      exactly the archives its pass missed keep the key they had when it began, so all are on the new key
      exactly when those were there already. */
  lemma CompletedRotation(s: State, events: seq<Event>, p: Pid)
    requires Inv(s) && (p in s.processes ==> !InPass(s.processes[p]))
    requires var after := Run(s, events); p in after.processes && after.processes[p].Completed?
    ensures
      var after := Run(s, events);
      var done := after.processes[p];
      var missed := Missed(s, events, p);
      && after.backupLock == Some(p) && after.archives.Keys == done.found.Keys
      && (forall a | a in done.found ::
            after.archives[a] == if a in missed then done.found[a] else done.found[a].(key := done.target))
      && ((forall a | a in after.archives :: after.archives[a].key == done.target) <==>
          (forall a | a in done.found && a in missed :: done.found[a].key == done.target))
  {
    RunKeepsInv(s, events);
    LeftIsMissed(s, events, p);
    var after := Run(s, events);
    var done := after.processes[p];
    assert PassFits(after, done);
    forall a | a in done.found && a in done.left ensures after.archives[a] == done.found[a] {
    }
  }

  /** What an operator can see to: each time the pass begins, the remote destination is scanned or holds
      no archive, and no re-encryption fails. */
  ghost predicate CleanRun(s: State, events: seq<Event>, p: Pid) {
    forall i | 0 <= i < |events| ::
      && (BeginsPass(Run(s, events[..i]), events[i], p) ==>
            events[i].scanRemote || RemoteArchives(Run(s, events[..i])) == {})
      && !FailsArchive(Run(s, events[..i]), events[i], p)
  }

  lemma {:induction false} CleanRunMissesNothing(s: State, events: seq<Event>, p: Pid)
    requires CleanRun(s, events, p)
    ensures Missed(s, events, p) == {}
    decreases |events|
  {
    if events != [] {
      var last := |events| - 1;
      assert !FailsArchive(Run(s, events[..last]), events[last], p);
      CleanRunStartsClean(s, events, p);
      CleanRunMissesNothing(s, events[..last], p);
    }
  }

  lemma CleanRunStartsClean(s: State, events: seq<Event>, p: Pid)
    requires events != [] && CleanRun(s, events, p)
    ensures CleanRun(s, events[..|events| - 1], p)
  {
    var earlier := events[..|events| - 1];
    forall i | 0 <= i < |earlier| ensures earlier[..i] == events[..i] && earlier[i] == events[i] {
    }
  }

  /** From an instance where nothing runs, after any run in which the rotation's pass was clean, every
      archive at the destination is on the new key when the completed rotation still holds its lock. */
  lemma CleanRotationReachesAll(archives: map<Id, Archive>, events: seq<Event>, p: Pid)
    requires
      var start := State(map[], None, None, archives);
      CleanRun(start, events, p)
      && p in Run(start, events).processes && Run(start, events).processes[p].Completed?
    ensures
      var after := Run(State(map[], None, None, archives), events);
      forall a | a in after.archives :: after.archives[a].key == after.processes[p].target
  {
    EmptyFits(archives);
    CompletedRotation(State(map[], None, None, archives), events, p);
    CleanRunMissesNothing(State(map[], None, None, archives), events, p);
  }

  /** After its pre-rotation backup a rotation goes on exactly when nobody holds the rotation lock. */
  lemma ReacquireNeedsFreeLock(s: State, p: Pid, scanRemote: bool)
    requires LocksFit(s) && p in s.processes && s.processes[p].PreBackup?
    ensures
      var after := AdvanceStep(s, p, scanRemote);
      && (s.rotationLock.None? <==> after.processes[p].Tables?)
      && (s.rotationLock.Some? ==>
            after.processes[p].Ended? && after.backupLock.None? && after.archives == s.archives)
  {
  }

  /** Since the rotation holds the backup lock by then, that is exactly when no scheduled backup is probing
      the rotation lock, no other rotation is between its two locks, and none is letting go of its last. */
  lemma ReacquireFailsExactly(s: State, p: Pid, scanRemote: bool)
    requires LocksFit(s) && p in s.processes && s.processes[p].PreBackup?
    ensures
      AdvanceStep(s, p, scanRemote).processes[p].Ended? <==>
      exists q | q in s.processes ::
        s.processes[q].Probing? || s.processes[q].Guarded? || s.processes[q].Releasing?
  {
    ReacquireNeedsFreeLock(s, p, scanRemote);
    if s.rotationLock.Some? {
      var q := s.rotationLock.value;
      assert q in s.processes && HoldsRotation(s.processes[q]);
      assert HoldsBackup(s.processes[q]) ==> q == p;
    } else {
      forall q | q in s.processes ensures !HoldsRotation(s.processes[q]) {
      }
    }
  }

  lemma RunOneMore(s: State, events: seq<Event>, e: Event)
    ensures Run(s, events + [e]) == Step(Run(s, events), e)
  {
    assert (events + [e])[..|events|] == events;
  }

  /** A rotation up to holding both locks, from an instance where nothing runs. */
  function UntilBothHeld(target: Key, resume: bool): seq<Event> {
    [Start(1, Rotation(target, resume))] + [Advance(1, false)] + [Advance(1, false)]
  }

  /** One process, the locks it holds, and the archives. */
  function Alone(phase: Phase, rotation: bool, backup: bool, archives: map<Id, Archive>): State {
    State(map[1 := phase], if backup then Some(1) else None, if rotation then Some(1) else None, archives)
  }

  lemma BothHeldSteps(archives: map<Id, Archive>, target: Key, resume: bool)
    ensures
      && Step(State(map[], None, None, archives), Start(1, Rotation(target, resume))) ==
         Alone(Rotation(target, resume), false, false, archives)
      && Step(Alone(Rotation(target, resume), false, false, archives), Advance(1, false)) ==
         Alone(Guarded(target, resume), true, false, archives)
      && Step(Alone(Guarded(target, resume), true, false, archives), Advance(1, false)) ==
         Alone(BothHeld(target, resume), true, true, archives)
  {
  }

  lemma BothHeldIsReached(archives: map<Id, Archive>, target: Key, resume: bool)
    ensures
      Run(State(map[], None, None, archives), UntilBothHeld(target, resume)) ==
      State(map[1 := BothHeld(target, resume)], Some(1), Some(1), archives)
  {
    var start := State(map[], None, None, archives);
    var first := [Start(1, Rotation(target, resume))];
    BothHeldSteps(archives, target, resume);
    assert first == [] + first && Run(start, []) == start;
    RunOneMore(start, [], first[0]);
    RunOneMore(start, first, Advance(1, false));
    RunOneMore(start, first + [Advance(1, false)], Advance(1, false));
  }

  function UntilTables(target: Key): seq<Event> {
    UntilBothHeld(target, true) + [Advance(1, false)]
  }

  lemma TablesIsReached(archives: map<Id, Archive>, target: Key)
    ensures
      Run(State(map[], None, None, archives), UntilTables(target)) ==
      State(map[1 := Tables(target)], Some(1), Some(1), archives)
  {
    BothHeldIsReached(archives, target, true);
    RunOneMore(State(map[], None, None, archives), UntilBothHeld(target, true), Advance(1, false));
  }

  /** A rotation that takes its own backup, and a scheduled backup that comes to probe meanwhile. */
  function UntilProbe(target: Key): seq<Event> {
    UntilBothHeld(target, false) + [Advance(1, false)] + [Start(2, Scheduled)] + [Advance(2, false)]
  }

  lemma ProbeIsReached(archives: map<Id, Archive>, target: Key)
    ensures
      Run(State(map[], None, None, archives), UntilProbe(target)) ==
      State(map[1 := PreBackup(target), 2 := Probing], Some(1), Some(2), archives)
  {
    var start := State(map[], None, None, archives);
    var held := UntilBothHeld(target, false);
    BothHeldIsReached(archives, target, false);
    RunOneMore(start, held, Advance(1, false));
    assert Run(start, held + [Advance(1, false)]) == State(map[1 := PreBackup(target)], Some(1), None, archives);
    RunOneMore(start, held + [Advance(1, false)], Start(2, Scheduled));
    RunOneMore(start, held + [Advance(1, false)] + [Start(2, Scheduled)], Advance(2, false));
  }

  /** So a scheduled backup's probe alone can abort a rotation that was running undisturbed. */
  lemma ProbeAbortsRotation(archives: map<Id, Archive>, target: Key)
    ensures
      var after := Run(State(map[], None, None, archives), UntilProbe(target) + [Advance(1, false)]);
      && 1 in after.processes && after.processes[1].Ended? && after.backupLock.None?
      && after.archives == archives
  {
    ProbeIsReached(archives, target);
    RunOneMore(State(map[], None, None, archives), UntilProbe(target), Advance(1, false));
  }

  /** An instance of what a pass misses: a remote archive behind credentials that do not validate outlives
      a completed rotation on its old key. */
  lemma RemoteArchiveLeftBehind(a: Id, retired: Key, target: Key)
    requires retired != target
    ensures
      var start := State(map[], None, None, map[a := Archive(retired, true)]);
      var events := UntilTables(target) + [Advance(1, false)] + [Advance(1, false)];
      var after := Run(start, events);
      && 1 in after.processes && after.processes[1].Completed? && a in after.archives
      && after.archives[a].key == retired && Missed(start, events, 1) == {a}
  {
    var archives := map[a := Archive(retired, true)];
    var start := State(map[], None, None, archives);
    var begun := UntilTables(target) + [Advance(1, false)];
    TablesIsReached(archives, target);
    RunOneMore(start, UntilTables(target), Advance(1, false));
    assert Run(start, begun).processes[1] == Reencrypting(target, archives, {}, {a});
    RunOneMore(start, begun, Advance(1, false));
    assert Run(start, begun + [Advance(1, false)]).processes[1] == Completed(target, archives, {a});
    LeftIsMissed(start, begun + [Advance(1, false)], 1);
  }
}
