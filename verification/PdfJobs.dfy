/** The two PDF jobs of a contract, delivered any number of times to any number of workers, each of
    which may crash between any two of its steps. */
module PdfJobs {
  import opened Wrappers

  type Id = nat
  type ObjectKey = nat

  datatype Job = Render(contract: Id, email: bool) | RenderSigned(contract: Id, signature: Id)

  /** Where a worker stands. `Stored` has put the object, `Recorded` has also inserted the upload row,
      `Linked` knows the contract to have its pointer. */
  datatype Phase =
    | Started | Rendering | Stored(key: ObjectKey) | Recorded(upload: Id) | Linked
    | Finished(withPdf: bool)

  datatype Worker = Worker(job: Job, phase: Phase)

  datatype Signature = Signature(contract: Id, signedPdf: Option<Id>)

  /** `contracts` maps each row to its PDF pointer. `mailQueue` holds the contracts a mail was ever
      queued for; its job id is the contract's, so queueing twice is queueing once. */
  datatype State = State(
    contracts: map<Id, Option<Id>>, signatures: map<Id, Signature>, uploads: map<Id, ObjectKey>,
    objects: set<ObjectKey>, mailQueue: set<Id>, workers: map<Id, Worker>, used: set<Id>, raised: bool)

  /** `built` is whether the document could be built; `key` and `upload` are the names minted. */
  datatype Event =
    | Deliver(worker: Id, job: Job)
    | Work(worker: Id, built: bool, key: ObjectKey, upload: Id)
    | Crash(worker: Id)
    | AddContract(contract: Id)
    | AddSignature(signature: Id, contract: Id)
    | RemoveContract(contract: Id)

  // The two guarded updates.

  function LinkContract(contracts: map<Id, Option<Id>>, c: Id, upload: Id): map<Id, Option<Id>> {
    if c in contracts && contracts[c].None? then contracts[c := Some(upload)] else contracts
  }

  /** An UPDATE of one signature's pointer, with or without its IS NULL clause. None is the write-once
      trigger raising. */
  function UpdateSignature(signatures: map<Id, Signature>, g: Id, upload: Id, whereNull: bool)
    : Option<map<Id, Signature>>
  {
    if g !in signatures || (whereNull && signatures[g].signedPdf.Some?) then Some(signatures)
    else if signatures[g].signedPdf.Some? then None
    else Some(signatures[g := signatures[g].(signedPdf := Some(upload))])
  }

  /** The guard in the statement is what keeps the trigger quiet: without it, exactly a redelivery
      raises. */
  lemma GuardKeepsTriggerQuiet(signatures: map<Id, Signature>, g: Id, upload: Id)
    ensures UpdateSignature(signatures, g, upload, true).Some?
    ensures UpdateSignature(signatures, g, upload, false).None? <==>
      g in signatures && signatures[g].signedPdf.Some?
  {
  }

  // Steps.

  function Move(s: State, w: Id, phase: Phase): State
    requires w in s.workers
  {
    s.(workers := s.workers[w := s.workers[w].(phase := phase)])
  }

  /** Where the reads at the head of each job lead. */
  function StartPhase(s: State, job: Job, built: bool): Phase {
    match job
    case Render(c, _) =>
      if c !in s.contracts then Finished(false)
      else if s.contracts[c].Some? then Linked
      else if built then Rendering
      else Finished(false)
    case RenderSigned(c, g) =>
      if g !in s.signatures || s.signatures[g].contract != c then Finished(false)
      else if s.signatures[g].signedPdf.Some? then Finished(true)
      else if built && c in s.contracts then Rendering
      else Finished(false)
  }

  function Link(s: State, w: Id, upload: Id): State
    requires w in s.workers
  {
    match s.workers[w].job
    case Render(c, _) =>
      Move(s.(contracts := LinkContract(s.contracts, c, upload)), w, Linked)
    case RenderSigned(_, g) =>
      match UpdateSignature(s.signatures, g, upload, true)
      case Some(signatures) => Move(s.(signatures := signatures), w, Finished(true))
      case None => s.(raised := true, workers := s.workers - {w})
  }

  function QueueMail(s: State, w: Id): State
    requires w in s.workers
  {
    var job := s.workers[w].job;
    Move(if job.Render? && job.email then s.(mailQueue := s.mailQueue + {job.contract}) else s,
         w, Finished(true))
  }

  function WorkStep(s: State, w: Id, built: bool, key: ObjectKey, upload: Id): State {
    if w !in s.workers then s
    else
      match s.workers[w].phase
      case Started => Move(s, w, StartPhase(s, s.workers[w].job, built))
      case Rendering =>
        if key in s.objects then s else Move(s.(objects := s.objects + {key}), w, Stored(key))
      case Stored(stored) =>
        if upload in s.uploads then s
        else Move(s.(uploads := s.uploads[upload := stored]), w, Recorded(upload))
      case Recorded(recorded) => Link(s, w, recorded)
      case Linked => QueueMail(s, w)
      case Finished(_) => s
  }

  function Step(s: State, e: Event): State {
    match e
    case Deliver(w, job) =>
      if w in s.workers then s else s.(workers := s.workers[w := Worker(job, Started)])
    case Work(w, built, key, upload) => WorkStep(s, w, built, key, upload)
    case Crash(w) => s.(workers := s.workers - {w})
    case AddContract(c) =>
      if c in s.used then s else s.(contracts := s.contracts[c := None], used := s.used + {c})
    case AddSignature(g, c) =>
      if g in s.signatures || c !in s.contracts then s
      else s.(signatures := s.signatures[g := Signature(c, None)])
    case RemoveContract(c) =>
      if exists g | g in s.signatures :: s.signatures[g].contract == c then s
      else s.(contracts := s.contracts - {c})
  }

  function Run(s: State, events: seq<Event>): State {
    if events == [] then s
    else Step(Run(s, events[..|events| - 1]), events[|events| - 1])
  }

  const EMPTY := State(map[], map[], map[], {}, {}, map[], {}, false)

  /** A contract row is added once for each id, without a PDF; a signature of a contract that is there, and
      for good; a contract goes unless one names it; a worker that dies is gone and nothing else. */
  lemma RowsComeAndGo(s: State, c: Id, g: Id, w: Id)
    ensures Step(s, AddContract(c)) ==
      if c in s.used then s else s.(contracts := s.contracts[c := None], used := s.used + {c})
    ensures Step(s, AddSignature(g, c)) ==
      if g !in s.signatures && c in s.contracts then s.(signatures := s.signatures[g := Signature(c, None)]) else s
    ensures Step(s, RemoveContract(c)) ==
      if forall h | h in s.signatures :: s.signatures[h].contract != c then s.(contracts := s.contracts - {c}) else s
    ensures Step(s, Crash(w)) == s.(workers := s.workers - {w})
  {
  }

  // What every state keeps.

  predicate HasFile(s: State, upload: Id) {
    upload in s.uploads && s.uploads[upload] in s.objects
  }

  /** The contract has its pointer, or its row is gone for good. */
  predicate LinkedOrGone(s: State, c: Id) {
    c in s.used && (c in s.contracts ==> s.contracts[c].Some?)
  }

  predicate Mailed(s: State, job: Job) {
    job.Render? && LinkedOrGone(s, job.contract) && (job.email ==> job.contract in s.mailQueue)
  }

  predicate Knows(s: State, job: Job) {
    match job
    case Render(c, _) => c in s.used
    case RenderSigned(_, g) => g in s.signatures
  }

  predicate SignedPdfSet(s: State, job: Job) {
    job.RenderSigned? && job.signature in s.signatures && s.signatures[job.signature].signedPdf.Some?
  }

  predicate WorkerFits(s: State, worker: Worker) {
    var job := worker.job;
    match worker.phase
    case Started => true
    case Rendering => Knows(s, job)
    case Stored(key) => Knows(s, job) && key in s.objects
    case Recorded(upload) => Knows(s, job) && HasFile(s, upload)
    case Linked => job.Render? && LinkedOrGone(s, job.contract)
    case Finished(withPdf) => withPdf ==> Mailed(s, job) || SignedPdfSet(s, job)
  }

  /** A pointer names an upload whose object is stored; mail is queued only behind a pointer. */
  ghost predicate Inv(s: State) {
    && !s.raised
    && (forall c | c in s.contracts :: c in s.used)
    && (forall c | c in s.contracts && s.contracts[c].Some? :: HasFile(s, s.contracts[c].value))
    && (forall g | g in s.signatures && s.signatures[g].signedPdf.Some? ::
          HasFile(s, s.signatures[g].signedPdf.value))
    && (forall c | c in s.mailQueue :: LinkedOrGone(s, c))
    && (forall w | w in s.workers :: WorkerFits(s, s.workers[w]))
  }

  /** Later states keep every file, every pointer and every queued mail; a removed contract does not
      come back. */
  ghost predicate Extends(s: State, later: State) {
    && s.used <= later.used && s.objects <= later.objects && s.mailQueue <= later.mailQueue
    && (forall u | u in s.uploads :: u in later.uploads && later.uploads[u] == s.uploads[u])
    && (forall c | c in later.contracts && c in s.used ::
          c in s.contracts && (s.contracts[c].Some? ==> later.contracts[c] == s.contracts[c]))
    && (forall g | g in s.signatures ::
          && g in later.signatures && later.signatures[g].contract == s.signatures[g].contract
          && (s.signatures[g].signedPdf.Some? ==> later.signatures[g] == s.signatures[g]))
  }

  lemma LinkExtends(s: State, w: Id, upload: Id)
    requires w in s.workers && forall c | c in s.contracts :: c in s.used
    ensures Extends(s, Link(s, w, upload)) && Link(s, w, upload).raised == s.raised
  {
    if s.workers[w].job.RenderSigned? {
      GuardKeepsTriggerQuiet(s.signatures, s.workers[w].job.signature, upload);
    }
  }

  lemma WorkExtends(s: State, w: Id, built: bool, key: ObjectKey, upload: Id)
    requires forall c | c in s.contracts :: c in s.used
    ensures Extends(s, WorkStep(s, w, built, key, upload))
    ensures WorkStep(s, w, built, key, upload).raised == s.raised
  {
    if w in s.workers && s.workers[w].phase.Recorded? {
      LinkExtends(s, w, s.workers[w].phase.upload);
    } else {
      OtherWorkOnlyAdds(s, w, built, key, upload);
    }
  }

  lemma OtherWorkOnlyAdds(s: State, w: Id, built: bool, key: ObjectKey, upload: Id)
    requires w in s.workers ==> !s.workers[w].phase.Recorded?
    ensures
      var after := WorkStep(s, w, built, key, upload);
      && after.contracts == s.contracts && after.signatures == s.signatures && after.used == s.used
      && s.objects <= after.objects && s.mailQueue <= after.mailQueue && after.raised == s.raised
      && (after.uploads == s.uploads || (upload !in s.uploads && after.uploads - {upload} == s.uploads))
  {
    if w in s.workers && s.workers[w].phase.Stored? && upload !in s.uploads {
      var after := WorkStep(s, w, built, key, upload);
      assert after.uploads == s.uploads[upload := s.workers[w].phase.key];
      assert after.uploads - {upload} == s.uploads;
    }
  }

  lemma StepExtends(s: State, e: Event)
    requires forall c | c in s.contracts :: c in s.used
    ensures Extends(s, Step(s, e)) && Step(s, e).raised == s.raised
  {
    if e.Work? {
      WorkExtends(s, e.worker, e.built, e.key, e.upload);
    }
  }

  lemma FitsLater(s: State, later: State, worker: Worker)
    requires WorkerFits(s, worker) && Extends(s, later)
    ensures WorkerFits(later, worker)
  {
  }

  lemma LinkedFits(s: State, w: Id, upload: Id)
    requires Inv(s) && w in s.workers && s.workers[w].phase == Recorded(upload)
    ensures w in Link(s, w, upload).workers && WorkerFits(Link(s, w, upload), Link(s, w, upload).workers[w])
  {
  }

  /** The worker that moved fits its new phase. */
  lemma MovedFits(s: State, w: Id, built: bool, key: ObjectKey, upload: Id)
    requires Inv(s) && w in s.workers
    ensures
      var after := WorkStep(s, w, built, key, upload);
      w in after.workers && WorkerFits(after, after.workers[w])
  {
    assert WorkerFits(s, s.workers[w]);
    if s.workers[w].phase.Recorded? {
      LinkedFits(s, w, s.workers[w].phase.upload);
    }
  }

  lemma NewPointersHaveFiles(s: State, e: Event)
    requires Inv(s)
    ensures
      var after := Step(s, e);
      && (forall c | c in after.contracts :: c in after.used)
      && (forall c | c in after.contracts && after.contracts[c].Some? ::
            HasFile(after, after.contracts[c].value))
      && forall g | g in after.signatures && after.signatures[g].signedPdf.Some? ::
           HasFile(after, after.signatures[g].signedPdf.value)
  {
    if e.Work? && e.worker in s.workers {
      assert WorkerFits(s, s.workers[e.worker]);
    }
  }

  lemma QueuedMailIsLinked(s: State, e: Event, c: Id)
    requires Inv(s) && c in Step(s, e).mailQueue
    ensures LinkedOrGone(Step(s, e), c)
  {
    StepExtends(s, e);
    if c !in s.mailQueue {
      assert WorkerFits(s, s.workers[e.worker]);
    }
  }

  lemma OthersStay(s: State, e: Event, w: Id)
    requires w in s.workers && w in Step(s, e).workers && !(e.Work? && e.worker == w)
    ensures Step(s, e).workers[w] == s.workers[w]
  {
  }

  lemma WorkerStillFits(s: State, e: Event, w: Id)
    requires Inv(s) && w in Step(s, e).workers
    ensures WorkerFits(Step(s, e), Step(s, e).workers[w])
  {
    if w in s.workers {
      if e.Work? && e.worker == w {
        MovedFits(s, w, e.built, e.key, e.upload);
      } else {
        StepExtends(s, e);
        OthersStay(s, e, w);
        FitsLater(s, Step(s, e), s.workers[w]);
      }
    }
  }

  lemma StepKeepsInv(s: State, e: Event)
    requires Inv(s)
    ensures Inv(Step(s, e)) && Extends(s, Step(s, e))
  {
    var after := Step(s, e);
    StepExtends(s, e);
    NewPointersHaveFiles(s, e);
    forall c | c in after.mailQueue ensures LinkedOrGone(after, c) {
      QueuedMailIsLinked(s, e, c);
    }
    forall w | w in after.workers ensures WorkerFits(after, after.workers[w]) {
      WorkerStillFits(s, e, w);
    }
  }

  /** Over any run of deliveries, crashes and removals: the trigger never raises, a pointer once set is
      never written again, its upload and object exist, and queued mail has its pointer or has lost its
      contract. */
  lemma {:induction false} RunKeepsInv(s: State, events: seq<Event>)
    requires Inv(s)
    ensures Inv(Run(s, events)) && Extends(s, Run(s, events))
    decreases |events|
  {
    if events != [] {
      RunKeepsInv(s, events[..|events| - 1]);
      StepKeepsInv(Run(s, events[..|events| - 1]), events[|events| - 1]);
    }
  }

  lemma EmptyFits()
    ensures Inv(EMPTY)
  {
  }

  /** From the empty instance, whatever is delivered, crashes or is removed, the write-once trigger never
      raises, and what has been written stays: every signed PDF pointer set at some point is the pointer
      ever after, with its file. */
  lemma SignedPdfIsWrittenOnce(events: seq<Event>, later: seq<Event>, g: Id)
    requires g in Run(EMPTY, events).signatures && Run(EMPTY, events).signatures[g].signedPdf.Some?
    ensures
      var earlier := Run(EMPTY, events);
      var now := Run(earlier, later);
      && !now.raised && g in now.signatures && now.signatures[g] == earlier.signatures[g]
      && earlier.signatures[g].signedPdf.value in now.uploads
      && now.uploads[earlier.signatures[g].signedPdf.value] in now.objects
  {
    EmptyFits();
    RunKeepsInv(EMPTY, events);
    RunKeepsInv(Run(EMPTY, events), later);
  }

  /** A run asked for mail that ends with a PDF has queued the mail. */
  lemma FinishedWithPdfMailed(s: State, events: seq<Event>, w: Id)
    requires Inv(s) && w in Run(s, events).workers
    requires
      var worker := Run(s, events).workers[w];
      worker.phase == Finished(true) && worker.job.Render? && worker.job.email
    ensures Run(s, events).workers[w].job.contract in Run(s, events).mailQueue
  {
    RunKeepsInv(s, events);
  }

  /** Whatever was lost to crashes before, one delivery that is left alone ends with the pointer set
      and the mail queued. */
  lemma RedeliveryCompletes(s: State, w: Id, c: Id, key: ObjectKey, upload: Id)
    requires Inv(s) && w !in s.workers && c in s.contracts
    requires key !in s.objects && upload !in s.uploads
    ensures
      var work := Work(w, true, key, upload);
      var after := Run(s, [Deliver(w, Render(c, true)), work, work, work, work, work]);
      && c in after.contracts && after.contracts[c].Some? && c in after.mailQueue
      && (s.contracts[c].Some? ==> after.contracts == s.contracts && after.objects == s.objects)
  {
    var work := Work(w, true, key, upload);
    var events := [Deliver(w, Render(c, true)), work, work, work, work, work];
    var s1 := Step(s, events[0]);
    var s2 := Step(s1, work);
    var s3 := Step(s2, work);
    var s4 := Step(s3, work);
    var s5 := Step(s4, work);
    var s6 := Step(s5, work);
    RunOfSix(s, events);
    if s.contracts[c].Some? {
      assert s2.workers[w].phase == Linked && s3.workers[w].phase == Finished(true);
      assert s6 == s3;
    } else {
      assert s2.workers[w].phase == Rendering;
      assert s3.workers[w].phase == Stored(key);
      assert s4.workers[w].phase == Recorded(upload);
      assert s5.workers[w].phase == Linked && s5.contracts == s.contracts[c := Some(upload)];
    }
  }

  lemma RunOfSix(s: State, e: seq<Event>)
    requires |e| == 6
    ensures Run(s, e) == Step(Step(Step(Step(Step(Step(s, e[0]), e[1]), e[2]), e[3]), e[4]), e[5])
  {
    assert e[..5][..4] == e[..4] && e[..4][..3] == e[..3] && e[..3][..2] == e[..2];
    assert e[..2][..1] == e[..1] && e[..1][..0] == [];
    assert Run(s, e[..1]) == Step(s, e[0]);
    assert Run(s, e[..2]) == Step(Run(s, e[..1]), e[1]);
    assert Run(s, e[..3]) == Step(Run(s, e[..2]), e[2]);
    assert Run(s, e[..4]) == Step(Run(s, e[..3]), e[3]);
    assert Run(s, e[..5]) == Step(Run(s, e[..4]), e[4]);
  }

  // Mail behind no pointer.

  /** A contract id once used and no longer stored was removed by the run. */
  lemma {:induction false} GoneWasRemoved(events: seq<Event>, c: Id)
    requires c in Run(EMPTY, events).used && c !in Run(EMPTY, events).contracts
    ensures RemoveContract(c) in events
    decreases |events|
  {
    var last := events[|events| - 1];
    assert events == events[..|events| - 1] + [last];
    if last != RemoveContract(c) {
      StepKeepsContract(Run(EMPTY, events[..|events| - 1]), last, c);
      GoneWasRemoved(events[..|events| - 1], c);
    }
  }

  lemma StepKeepsContract(s: State, e: Event, c: Id)
    requires e != RemoveContract(c)
    ensures c in s.contracts ==> c in Step(s, e).contracts
    ensures c in Step(s, e).used && c !in Step(s, e).contracts ==> c in s.used
  {
  }

  /** In every reachable state, a contract whose mail was queued lacks its pointer exactly when its row
      is gone, and then the run removed it. */
  lemma QueuedMailLacksPointerIffGone(events: seq<Event>, c: Id)
    requires c in Run(EMPTY, events).mailQueue
    ensures
      var s := Run(EMPTY, events);
      && (!(c in s.contracts && s.contracts[c].Some?) <==> c !in s.contracts)
      && (c !in s.contracts ==> RemoveContract(c) in events)
  {
    EmptyFits();
    RunKeepsInv(EMPTY, events);
    assert LinkedOrGone(Run(EMPTY, events), c);
    if c !in Run(EMPTY, events).contracts {
      GoneWasRemoved(events, c);
    }
  }

  /** A worker about to write the pointer queues its mail whatever the UPDATE matched: the contract then
      has a pointer exactly when its row is still there at the UPDATE. */
  lemma MailFollowsUpdate(s: State, w: Id, c: Id, u: Id, built: bool, key: ObjectKey, upload: Id)
    requires Inv(s) && w in s.workers && s.workers[w] == Worker(Render(c, true), Recorded(u))
    ensures
      var linked := WorkStep(s, w, built, key, upload);
      var after := WorkStep(linked, w, built, key, upload);
      && c in after.mailQueue
      && (c in after.contracts && after.contracts[c].Some? <==> c in s.contracts)
  {
    var linked := WorkStep(s, w, built, key, upload);
    assert linked.workers[w] == Worker(Render(c, true), Linked);
    assert linked.contracts == LinkContract(s.contracts, c, u);
  }

  lemma RunOneMore(s: State, events: seq<Event>, e: Event)
    ensures Run(s, events + [e]) == Step(Run(s, events), e)
  {
    assert (events + [e])[..|events|] == events;
  }

  /** Up to the recorded upload, from the empty instance. */
  function UntilRecorded(c: Id, w: Id, key: ObjectKey, upload: Id): seq<Event> {
    var work := Work(w, true, key, upload);
    [AddContract(c), Deliver(w, Render(c, true))] + [work] + [work] + [work]
  }

  lemma RecordedIsReached(c: Id, w: Id, key: ObjectKey, upload: Id)
    ensures
      Run(EMPTY, UntilRecorded(c, w, key, upload)) ==
      State(map[c := None], map[], map[upload := key], {key}, {},
            map[w := Worker(Render(c, true), Recorded(upload))], {c}, false)
  {
    var work := Work(w, true, key, upload);
    var first := [AddContract(c), Deliver(w, Render(c, true))];
    assert first == [] + [AddContract(c)] + [Deliver(w, Render(c, true))];
    RunOneMore(EMPTY, [], AddContract(c));
    RunOneMore(EMPTY, [] + [AddContract(c)], Deliver(w, Render(c, true)));
    assert Run(EMPTY, first).workers == map[w := Worker(Render(c, true), Started)];
    RunOneMore(EMPTY, first, work);
    assert Run(EMPTY, first + [work]).workers == map[w := Worker(Render(c, true), Rendering)];
    RunOneMore(EMPTY, first + [work], work);
    assert Run(EMPTY, first + [work] + [work]).workers == map[w := Worker(Render(c, true), Stored(key))];
    RunOneMore(EMPTY, first + [work] + [work], work);
    assert Run(EMPTY, UntilRecorded(c, w, key, upload)).workers ==
           map[w := Worker(Render(c, true), Recorded(upload))];
  }

  /** The run that does it, from the empty instance: the row goes between the upload's insert and the
      pointer's UPDATE, which then matches nothing. */
  lemma MailWithoutPointer(c: Id, w: Id, key: ObjectKey, upload: Id)
    ensures
      var work := Work(w, true, key, upload);
      var s := Run(EMPTY, UntilRecorded(c, w, key, upload) + [RemoveContract(c)] + [work] + [work]);
      c in s.mailQueue && c !in s.contracts
  {
    var work := Work(w, true, key, upload);
    var recorded := UntilRecorded(c, w, key, upload);
    RecordedIsReached(c, w, key, upload);
    RunOneMore(EMPTY, recorded, RemoveContract(c));
    RunOneMore(EMPTY, recorded + [RemoveContract(c)], work);
    RunOneMore(EMPTY, recorded + [RemoveContract(c)] + [work], work);
    var removed := Run(EMPTY, recorded + [RemoveContract(c)]);
    assert c !in removed.contracts && removed.workers[w] == Worker(Render(c, true), Recorded(upload));
    EmptyFits();
    RunKeepsInv(EMPTY, recorded + [RemoveContract(c)]);
    MailFollowsUpdate(removed, w, c, upload, true, key, upload);
  }
}
