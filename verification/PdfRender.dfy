/** The two render jobs as the code writes them, one delivery from start to end. Each leaves the stored
    state the job machine reaches when the same delivery runs undisturbed. */
module PdfRender {
  import opened Wrappers
  import opened PdfJobs

  /** One worker's delivery with nothing in between, the worker gone afterwards. The insert of the upload
      row may fail, which ends the delivery there. */
  function Undisturbed(s: State, job: Job, built: bool, inserted: bool, key: ObjectKey, upload: Id): State {
    Rest(WorkStep(Step(s, Deliver(0, job)), 0, built, key, upload), built, inserted, key, upload)
  }

  /** All that follows the job's first reads. */
  function Rest(s: State, built: bool, inserted: bool, key: ObjectKey, upload: Id): State {
    var put := WorkStep(s, 0, built, key, upload);
    if !inserted && 0 in put.workers && put.workers[0].phase.Stored? then Step(put, Crash(0))
    else
      var stored := WorkStep(put, 0, built, key, upload);
      Step(WorkStep(WorkStep(stored, 0, built, key, upload), 0, built, key, upload), Crash(0))
  }

  class Instance {
    var contracts: map<Id, Option<Id>>
    var signatures: map<Id, Signature>
    var uploads: map<Id, ObjectKey>
    var objects: set<ObjectKey>
    var mailQueue: set<Id>

    ghost function Stored(used: set<Id>): State
      reads this
    {
      State(contracts, signatures, uploads, objects, mailQueue, map[], used, false)
    }

    constructor ()
      ensures Stored({}) == EMPTY
    {
      contracts, signatures, uploads, objects, mailQueue := map[], map[], map[], {}, {};
    }

    /** Object first, row second: an insert that fails leaves the object without a row, never a row
        without its object. */
    method StoreDocumentPdf(key: ObjectKey, newUpload: Id, inserted: bool) returns (upload: Option<Id>)
      requires key !in objects && newUpload !in uploads
      modifies this`objects, this`uploads
      ensures objects == old(objects) + {key}
      ensures inserted ==> uploads == old(uploads)[newUpload := key] && upload == Some(newUpload)
      ensures !inserted ==> uploads == old(uploads) && upload.None?
    {
      objects := objects + {key};
      if !inserted {
        return None;
      }
      uploads := uploads[newUpload := key];
      upload := Some(newUpload);
    }

    method EnqueueDocumentEmail(c: Id, email: bool)
      modifies this`mailQueue
      ensures mailQueue == old(mailQueue) + if email then {c} else {}
    {
      if !email {
        return;
      }
      mailQueue := mailQueue + {c};
    }

    method RenderContractPdf(
      c: Id, email: bool, built: bool, inserted: bool, key: ObjectKey, newUpload: Id, ghost used: set<Id>)
      requires Inv(Stored(used)) && key !in objects && newUpload !in uploads
      modifies this
      ensures Stored(used) == Undisturbed(old(Stored(used)), Render(c, email), built, inserted, key, newUpload)
      ensures c in contracts && contracts[c].Some? && email ==> c in mailQueue
      ensures !inserted ==> contracts == old(contracts) && uploads == old(uploads)
      ensures c in old(contracts) && old(contracts)[c].None? && built && inserted ==>
        && contracts == old(contracts)[c := Some(newUpload)] && uploads == old(uploads)[newUpload := key]
        && objects == old(objects) + {key}
      ensures c in old(contracts) && old(contracts)[c].None? && built && !inserted ==>
        objects == old(objects) + {key} && mailQueue == old(mailQueue)
      ensures c !in old(contracts) || old(contracts)[c].Some? || !built ==>
        contracts == old(contracts) && uploads == old(uploads) && objects == old(objects)
      ensures mailQueue == old(mailQueue) || (email && mailQueue == old(mailQueue) + {c})
      ensures c !in contracts || contracts[c].None? ==> mailQueue == old(mailQueue)
      ensures signatures == old(signatures)
      ensures Inv(Stored(used))
    {
      ghost var before := Stored(used);
      UndisturbedKeepsInv(before, Render(c, email), built, inserted, key, newUpload);
      UndisturbedRender(before, c, email, built, inserted, key, newUpload);
      if c !in contracts {
        return;
      }
      if contracts[c].Some? {
        EnqueueDocumentEmail(c, email);
        return;
      }
      if !built {
        return;
      }
      var upload := StoreDocumentPdf(key, newUpload, inserted);
      if upload.None? {
        return;
      }
      if c in contracts && contracts[c].None? {
        contracts := contracts[c := upload];
      }
      assert Stored(used) ==
             StoredFor(before, key, newUpload).(contracts := before.contracts[c := Some(newUpload)]);
      EnqueueDocumentEmail(c, email);
    }

    method RenderSignedContractPdf(
      c: Id, g: Id, built: bool, inserted: bool, key: ObjectKey, newUpload: Id, ghost used: set<Id>)
      requires Inv(Stored(used)) && key !in objects && newUpload !in uploads
      modifies this
      ensures Stored(used) == Undisturbed(old(Stored(used)), RenderSigned(c, g), built, inserted, key, newUpload)
      ensures g in old(signatures) && old(signatures)[g].signedPdf.Some? ==> Stored(used) == old(Stored(used))
      ensures
        var due := g in old(signatures) && old(signatures)[g] == Signature(c, None) && c in old(contracts) && built;
        && contracts == old(contracts) && mailQueue == old(mailQueue)
        && objects == old(objects) + (if due then {key} else {})
        && (due && inserted ==>
              && signatures == old(signatures)[g := Signature(c, Some(newUpload))]
              && uploads == old(uploads)[newUpload := key])
        && (!due || !inserted ==> signatures == old(signatures) && uploads == old(uploads))
      ensures Inv(Stored(used))
    {
      ghost var before := Stored(used);
      UndisturbedKeepsInv(before, RenderSigned(c, g), built, inserted, key, newUpload);
      UndisturbedSigned(before, c, g, built, inserted, key, newUpload);
      if g !in signatures || signatures[g].contract != c || signatures[g].signedPdf.Some? {
        return;
      }
      if !built || c !in contracts {
        return;
      }
      var upload := StoreDocumentPdf(key, newUpload, inserted);
      if upload.None? {
        return;
      }
      if signatures[g].signedPdf.None? {
        signatures := signatures[g := signatures[g].(signedPdf := upload)];
      }
    }
  }

  lemma UndisturbedKeepsInv(s: State, job: Job, built: bool, inserted: bool, key: ObjectKey, upload: Id)
    requires Inv(s)
    ensures Inv(Undisturbed(s, job, built, inserted, key, upload))
  {
    var work := Work(0, built, key, upload);
    StepKeepsInv(s, Deliver(0, job));
    var s1 := Step(s, Deliver(0, job));
    StepKeepsInv(s1, work);
    var s2 := Step(s1, work);
    StepKeepsInv(s2, work);
    var s3 := Step(s2, work);
    StepKeepsInv(s3, Crash(0));
    StepKeepsInv(s3, work);
    var s4 := Step(s3, work);
    StepKeepsInv(s4, work);
    var s5 := Step(s4, work);
    StepKeepsInv(s5, work);
    StepKeepsInv(Step(s5, work), Crash(0));
  }

  /** The one worker there is, at a phase. */
  function At(s: State, job: Job, phase: Phase): State {
    s.(workers := map[0 := Worker(job, phase)])
  }

  lemma FirstReads(s: State, job: Job, built: bool, key: ObjectKey, upload: Id)
    requires s.workers == map[]
    ensures WorkStep(Step(s, Deliver(0, job)), 0, built, key, upload) == At(s, job, StartPhase(s, job, built))
  {
  }

  lemma FinishedStays(s: State, job: Job, withPdf: bool, built: bool, key: ObjectKey, upload: Id)
    requires s.workers == map[]
    ensures WorkStep(At(s, job, Finished(withPdf)), 0, built, key, upload) == At(s, job, Finished(withPdf))
    ensures Step(At(s, job, Finished(withPdf)), Crash(0)) == s
  {
  }

  lemma RestAfterFinish(s: State, job: Job, withPdf: bool, built: bool, inserted: bool, key: ObjectKey, upload: Id)
    requires s.workers == map[]
    ensures Rest(At(s, job, Finished(withPdf)), built, inserted, key, upload) == s
  {
    FinishedStays(s, job, withPdf, built, key, upload);
  }

  function MailedFor(s: State, job: Job): State {
    if job.Render? && job.email then s.(mailQueue := s.mailQueue + {job.contract}) else s
  }

  lemma RestAfterLinked(s: State, job: Job, built: bool, inserted: bool, key: ObjectKey, upload: Id)
    requires s.workers == map[]
    ensures Rest(At(s, job, Linked), built, inserted, key, upload) == MailedFor(s, job)
  {
    LinkedMails(s, job, built, key, upload);
    FinishedStays(MailedFor(s, job), job, true, built, key, upload);
  }

  lemma LinkedMails(s: State, job: Job, built: bool, key: ObjectKey, upload: Id)
    requires s.workers == map[]
    ensures WorkStep(At(s, job, Linked), 0, built, key, upload) == At(MailedFor(s, job), job, Finished(true))
  {
    assert map[0 := Worker(job, Linked)][0 := Worker(job, Finished(true))] == map[0 := Worker(job, Finished(true))];
  }

  function StoredFor(s: State, key: ObjectKey, upload: Id): State {
    s.(objects := s.objects + {key}, uploads := s.uploads[upload := key])
  }

  /** From a successful render on: the object, then the row, then the pointer; or the object alone. */
  lemma RestAfterRendering(s: State, job: Job, built: bool, inserted: bool, key: ObjectKey, upload: Id)
    requires s.workers == map[] && key !in s.objects && upload !in s.uploads
    ensures
      Rest(At(s, job, Rendering), built, inserted, key, upload) ==
        if inserted then RestAfterRow(StoredFor(s, key, upload), job, built, key, upload)
        else s.(objects := s.objects + {key})
  {
    var put := At(s.(objects := s.objects + {key}), job, Stored(key));
    assert WorkStep(At(s, job, Rendering), 0, built, key, upload) == put;
    assert Step(put, Crash(0)) == s.(objects := s.objects + {key});
    assert WorkStep(put, 0, built, key, upload) == At(StoredFor(s, key, upload), job, Recorded(upload));
  }

  function RestAfterRow(s: State, job: Job, built: bool, key: ObjectKey, upload: Id): State {
    Step(WorkStep(WorkStep(At(s, job, Recorded(upload)), 0, built, key, upload), 0, built, key, upload), Crash(0))
  }

  lemma RenderAfterRow(s: State, c: Id, email: bool, built: bool, key: ObjectKey, upload: Id)
    requires s.workers == map[] && c in s.contracts && s.contracts[c].None?
    ensures
      RestAfterRow(s, Render(c, email), built, key, upload) ==
      MailedFor(s.(contracts := s.contracts[c := Some(upload)]), Render(c, email))
  {
    var job := Render(c, email);
    var pointed := s.(contracts := s.contracts[c := Some(upload)]);
    assert Link(At(s, job, Recorded(upload)), 0, upload) == At(pointed, job, Linked);
    LinkedMails(pointed, job, built, key, upload);
    FinishedStays(MailedFor(pointed, job), job, true, built, key, upload);
  }

  lemma SignedAfterRow(s: State, c: Id, g: Id, built: bool, key: ObjectKey, upload: Id)
    requires s.workers == map[] && g in s.signatures && s.signatures[g].signedPdf.None?
    ensures
      RestAfterRow(s, RenderSigned(c, g), built, key, upload) ==
      s.(signatures := s.signatures[g := s.signatures[g].(signedPdf := Some(upload))])
  {
    var job := RenderSigned(c, g);
    var pointed := s.(signatures := s.signatures[g := s.signatures[g].(signedPdf := Some(upload))]);
    assert Link(At(s, job, Recorded(upload)), 0, upload) == At(pointed, job, Finished(true));
    FinishedStays(pointed, job, true, built, key, upload);
  }

  /** What an undisturbed contract render stores, case by case. */
  lemma UndisturbedRender(
      s: State, c: Id, email: bool, built: bool, inserted: bool, key: ObjectKey, upload: Id)
    requires s.workers == map[] && key !in s.objects && upload !in s.uploads
    ensures
      Undisturbed(s, Render(c, email), built, inserted, key, upload) ==
        if c !in s.contracts || (s.contracts[c].None? && !built) then s
        else if s.contracts[c].Some? then MailedFor(s, Render(c, email))
        else if !inserted then s.(objects := s.objects + {key})
        else MailedFor(StoredFor(s, key, upload).(contracts := s.contracts[c := Some(upload)]), Render(c, email))
  {
    var job := Render(c, email);
    FirstReads(s, job, built, key, upload);
    if c !in s.contracts || (s.contracts[c].None? && !built) {
      RestAfterFinish(s, job, false, built, inserted, key, upload);
    } else if s.contracts[c].Some? {
      RestAfterLinked(s, job, built, inserted, key, upload);
    } else {
      RestAfterRendering(s, job, built, inserted, key, upload);
      RenderAfterRow(StoredFor(s, key, upload), c, email, built, key, upload);
    }
  }

  lemma UndisturbedSigned(s: State, c: Id, g: Id, built: bool, inserted: bool, key: ObjectKey, upload: Id)
    requires s.workers == map[] && key !in s.objects && upload !in s.uploads
    ensures
      Undisturbed(s, RenderSigned(c, g), built, inserted, key, upload) ==
        if g !in s.signatures || s.signatures[g].contract != c || s.signatures[g].signedPdf.Some?
           || c !in s.contracts || !built then s
        else if !inserted then s.(objects := s.objects + {key})
        else StoredFor(s, key, upload).(signatures :=
               s.signatures[g := s.signatures[g].(signedPdf := Some(upload))])
  {
    var job := RenderSigned(c, g);
    FirstReads(s, job, built, key, upload);
    var phase := StartPhase(s, job, built);
    if phase.Finished? {
      RestAfterFinish(s, job, phase.withPdf, built, inserted, key, upload);
    } else {
      RestAfterRendering(s, job, built, inserted, key, upload);
      SignedAfterRow(StoredFor(s, key, upload), c, g, built, key, upload);
    }
  }
}
