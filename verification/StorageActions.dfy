/** The attachment, client image and drain code as written, run to the end. */
module StorageActions {
  import opened Wrappers
  import opened StorageOrder
  import opened StorageEffects

  const CONSECUTIVE_FAILURE_LIMIT := 3

  const ATTACHMENT_MAX_BYTES := 25 * 1024 * 1024
  const ATTACHMENT_MAX_PER_RECORD := 20
  const ATTACHMENT_MAX_TOTAL_BYTES := 100 * 1024 * 1024

  datatype Limit = Count | TotalBytes

  datatype AddResult = Added | ParentNotFound | NotUploaded | LimitReached | TotalTooLarge | AddFailed

  function Sum(sizes: seq<nat>): nat {
    if sizes == [] then 0 else Sum(sizes[..|sizes| - 1]) + sizes[|sizes| - 1]
  }

  /** Allowed exactly when the record stays within both limits with the file added; a full record is
      told so first. */
  function CheckAttachmentLimits(existing: seq<nat>, size: nat): (limit: Option<Limit>)
    ensures limit.None? <==>
      |existing| + 1 <= ATTACHMENT_MAX_PER_RECORD && Sum(existing + [size]) <= ATTACHMENT_MAX_TOTAL_BYTES
    ensures limit == Some(TotalBytes) ==> Sum(existing + [size]) > 104857600
    ensures limit == Some(Count) <==> |existing| >= 20
  {
    assert (existing + [size])[..|existing|] == existing;
    if |existing| >= ATTACHMENT_MAX_PER_RECORD then Some(Count)
    else if Sum(existing) + size > ATTACHMENT_MAX_TOTAL_BYTES then Some(TotalBytes)
    else None
  }

  /** How many of the keys the store accepts. */
  function Accepted(keys: seq<ObjectKey>, refused: set<ObjectKey>): nat {
    if keys == [] then 0
    else Accepted(keys[..|keys| - 1], refused) + if keys[|keys| - 1] in refused then 0 else 1
  }

  function Deleted(keys: seq<ObjectKey>, refused: set<ObjectKey>): set<ObjectKey> {
    set key | key in keys && key !in refused
  }

  function AcceptedAt(keys: seq<ObjectKey>, refused: set<ObjectKey>): set<nat> {
    set i | 0 <= i < |keys| && keys[i] !in refused
  }

  lemma {:induction false} AcceptedCounts(keys: seq<ObjectKey>, refused: set<ObjectKey>)
    ensures Accepted(keys, refused) == |AcceptedAt(keys, refused)|
    decreases |keys|
  {
    if keys == [] {
      assert AcceptedAt(keys, refused) == {};
    } else {
      var last := |keys| - 1;
      AcceptedCounts(keys[..last], refused);
      assert forall i | 0 <= i < last :: keys[..last][i] == keys[i];
      assert AcceptedAt(keys, refused) ==
             AcceptedAt(keys[..last], refused) + (if keys[last] in refused then {} else {last});
    }
  }

  /** How many keys in a row failed just before a place in the batch. */
  function FailuresBefore(keys: seq<ObjectKey>, n: nat, failing: set<ObjectKey>): (k: nat)
    requires n <= |keys|
    ensures k <= n && forall i | n - k <= i < n :: keys[i] in failing
    ensures k < n ==> keys[n - k - 1] !in failing
  {
    if n == 0 || keys[n - 1] !in failing then 0 else FailuresBefore(keys, n - 1, failing) + 1
  }

  lemma SumAddsUp(sizes: seq<nat>, size: nat)
    ensures Sum([]) == 0 && Sum(sizes + [size]) == Sum(sizes) + size
  {
    assert (sizes + [size])[..|sizes|] == sizes;
  }

  /** The counts and keys of a batch with one more of the pending keys handled. */
  lemma OneMore(keys: seq<ObjectKey>, n: nat, refused: set<ObjectKey>, stuck: set<ObjectKey>)
    requires n < |keys|
    ensures Accepted(keys[..n + 1], refused + stuck) ==
            Accepted(keys[..n], refused + stuck) + if keys[n] in refused + stuck then 0 else 1
    ensures Deleted(keys[..n + 1], refused + stuck) ==
            Deleted(keys[..n], refused + stuck) + if keys[n] in refused + stuck then {} else {keys[n]}
    ensures Deleted(keys[..n + 1], refused) ==
            Deleted(keys[..n], refused) + if keys[n] in refused then {} else {keys[n]}
  {
    assert keys[..n + 1][..n] == keys[..n];
    assert keys[..n + 1] == keys[..n] + [keys[n]];
  }

  class Store {
    var objects: set<ObjectKey>
    var uploads: map<Id, ObjectKey>
    var attachments: map<Id, Id>
    var images: map<Id, Option<Id>>
    var queue: set<ObjectKey>
    ghost var confirmed: set<ObjectKey>

    ghost function Rows(): State
      reads this
    {
      State(objects, uploads, attachments, images, queue, confirmed)
    }

    constructor (clients: set<Id>)
      ensures Inv(Rows())
    {
      objects, uploads, attachments, queue, confirmed := {}, map[], map[], {}, {};
      images := map c | c in clients :: None;
    }

    method InsertUpload(u: Id, key: ObjectKey, attachment: Option<Id>)
      modifies this
      ensures Rows() == Apply(old(Rows()), StorageOrder.InsertUpload(u, key, attachment))
    {
      uploads := uploads[u := key];
      if attachment.Some? {
        attachments := attachments[attachment.value := u];
      }
      confirmed := confirmed + {key};
    }

    /** The row delete, with the cascade and the set-null action the schema adds to it. */
    method DeleteUploadRow(u: Id)
      modifies this
      ensures Rows() == Apply(old(Rows()), DeleteUpload(u))
    {
      uploads := uploads - {u};
      attachments := map a | a in attachments && attachments[a] !in {u} :: attachments[a];
      images := map c | c in images ::
        if images[c].Some? && images[c].value in {u} then None else images[c];
    }

    /** `size` is the stored object's, measured; `existing` are the sizes the record already holds. */
    method AddAttachment(
      a: Id, parentLive: bool, existing: seq<nat>, key: ObjectKey, size: nat, u: Id)
      returns (result: AddResult)
      requires Inv(Rows()) && a !in attachments && u !in uploads
      modifies this
      ensures result.Added? ==>
        && Rows() == ApplyAll(old(Rows()), Effects(old(Rows()), StorageOrder.AddAttachment(a, key, u)))
        && a in attachments && attachments[a] in uploads && uploads[attachments[a]] == key
        && |existing| + 1 <= ATTACHMENT_MAX_PER_RECORD && Sum(existing) + size <= ATTACHMENT_MAX_TOTAL_BYTES
      ensures !result.Added? ==> Rows() == old(Rows())
      ensures result.Added? <==>
        && parentLive && key in old(objects) && 0 < size <= 26214400
        && CheckAttachmentLimits(existing, size).None?
        && forall v | v in old(uploads) :: old(uploads)[v] != key
      ensures result.Added? ==>
        && uploads == old(uploads)[u := key] && attachments == old(attachments)[a := u]
        && objects == old(objects) && images == old(images) && queue == old(queue)
      ensures result.ParentNotFound? <==> !parentLive
      ensures result.NotUploaded? <==>
        parentLive && (key !in old(objects) || size == 0 || size > 26214400)
      ensures result.LimitReached? <==>
        && parentLive && key in old(objects) && 0 < size <= ATTACHMENT_MAX_BYTES
        && |existing| >= 20
      ensures result.TotalTooLarge? <==>
        && parentLive && key in old(objects) && 0 < size <= ATTACHMENT_MAX_BYTES
        && |existing| < 20 && Sum(existing) + size > 104857600
      ensures key !in old(queue) ==> Inv(Rows())
    {
      ghost var before := Rows();
      if !parentLive {
        return ParentNotFound;
      }
      if key !in objects || size == 0 || size > ATTACHMENT_MAX_BYTES {
        return NotUploaded;
      }
      var limit := CheckAttachmentLimits(existing, size);
      if limit.Some? {
        return if limit.value.Count? then LimitReached else TotalTooLarge;
      }
      if exists v | v in uploads :: uploads[v] == key {
        return AddFailed;
      }
      AppliesInTurn(before, StorageOrder.InsertUpload(u, key, Some(a)), Put(key));
      if key !in queue {
        SafeKeepsInv(before, StorageOrder.InsertUpload(u, key, Some(a)));
      }
      InsertUpload(u, key, Some(a));
      result := Added;
    }

    method RemoveAttachment(a: Id) returns (removed: bool)
      requires Inv(Rows())
      modifies this
      ensures Rows() == ApplyAll(old(Rows()), Effects(old(Rows()), StorageOrder.RemoveAttachment(a)))
      ensures removed <==> a in old(attachments)
      ensures removed ==>
        && a !in attachments && UploadGone(old(Rows()), Rows(), Some(old(attachments)[a]), None)
        && uploads.Keys <= old(uploads).Keys && attachments.Keys <= old(attachments).Keys
      ensures !removed ==> Rows() == old(Rows())
      ensures Inv(Rows())
    {
      ghost var before := Rows();
      AttachmentRemoved(before, a, 2);
      RunsAll(before, Event(StorageOrder.RemoveAttachment(a), 2));
      EffectsAreSafe(before, StorageOrder.RemoveAttachment(a));
      SafePrefixKeepsInv(before, Effects(before, StorageOrder.RemoveAttachment(a)), 2);
      if a !in attachments {
        return false;
      }
      var u := attachments[a];
      var key := uploads[u];
      AppliesInTurn(before, DeleteUpload(u), DeleteObject(key));
      DeleteUploadRow(u);
      objects := objects - {key};
      removed := true;
    }

    method DeleteReplacedClientImage(image: Option<Id>, path: Option<ObjectKey>)
      requires image.Some? ==> image.value in uploads && path == Some(uploads[image.value])
      modifies this
      ensures Rows() == ApplyAll(old(Rows()), DeleteReplaced(old(Rows()), image))
      ensures forall c | c in old(images) && old(images)[c].None? :: c in images && images[c].None?
    {
      if image.None? {
        return;
      }
      AppliesInTurn(Rows(), DeleteUpload(image.value), DeleteObject(uploads[image.value]));
      DeleteUploadRow(image.value);
      if path.Some? {
        objects := objects - {path.value};
      }
    }

    method RemoveClientImage(client: Id) returns (removed: bool)
      requires Inv(Rows())
      modifies this
      ensures Rows() == ApplyAll(old(Rows()), Effects(old(Rows()), RemoveImage(client)))
      ensures removed <==> client in old(images)
      ensures removed ==>
        && client in images && images[client].None?
        && UploadGone(old(Rows()), Rows(), old(images)[client], Some(client))
        && uploads.Keys <= old(uploads).Keys && attachments.Keys <= old(attachments).Keys
      ensures !removed ==> Rows() == old(Rows())
      ensures Inv(Rows())
    {
      ghost var before := Rows();
      ImageRemoved(before, client, 3);
      RunsAll(before, Event(RemoveImage(client), 3));
      EffectsAreSafe(before, RemoveImage(client));
      SafePrefixKeepsInv(before, Effects(before, RemoveImage(client)), 3);
      if client !in images {
        return false;
      }
      var image := images[client];
      var path := if image.Some? then Some(uploads[image.value]) else None;
      images := images[client := None];
      assert Effects(before, RemoveImage(client))[1..] == DeleteReplaced(Rows(), image);
      DeleteReplacedClientImage(image, path);
      removed := true;
    }

    method ConfirmClientImageUpload(client: Id, key: ObjectKey, u: Id) returns (confirmedImage: bool)
      requires Inv(Rows()) && u !in uploads
      modifies this
      ensures Rows() == ApplyAll(old(Rows()), Effects(old(Rows()), ConfirmImage(client, key, u)))
      ensures confirmedImage <==>
        key in old(objects) && client in old(images) && forall v | v in old(uploads) :: old(uploads)[v] != key
      ensures confirmedImage ==>
        && client in images && images[client] == Some(u)
        && UploadAdded(old(Rows()), Rows(), u, key, None)
        && UploadGone(old(Rows()), Rows(), old(images)[client], Some(client))
      ensures confirmedImage ==> (Inv(Rows()) <==> key !in old(queue))
      ensures !confirmedImage ==> Rows() == old(Rows())
    {
      ghost var before := Rows();
      if key !in objects || client !in images || exists v | v in uploads :: uploads[v] == key {
        return false;
      }
      ConfirmMeans(before, client, key, u);
      var image := images[client];
      var path := if image.Some? then Some(uploads[image.value]) else None;
      InsertUpload(u, key, None);
      images := images[client := Some(u)];
      assert Rows() == Pointed(before, client, key, u);
      DeleteReplacedClientImage(image, path);
      confirmedImage := true;
    }

    /** One batch of a drain. It handles the keys in order. The store may refuse a key, and the queue
        row's delete may fail after the object has gone: either counts as a failure, and three failures
        in a row end the batch. An object goes exactly when the store accepted it, a queue row only after
        its object, and no upload row is touched. */
    method DeleteBatch(pending: seq<ObjectKey>, refused: set<ObjectKey>, stuck: set<ObjectKey>)
      returns (deleted: nat, failed: nat)
      requires Inv(Rows()) && forall key | key in pending :: key in queue
      modifies this`objects, this`queue
      ensures Inv(Rows())
      ensures deleted + failed <= |pending|
      ensures deleted == Accepted(pending[..deleted + failed], refused + stuck)
      ensures queue == old(queue) - Deleted(pending[..deleted + failed], refused + stuck)
      ensures objects == old(objects) - Deleted(pending[..deleted + failed], refused)
      ensures forall key :: key in objects <==>
        key in old(objects) && !(key in pending[..deleted + failed] && key !in refused)
      ensures forall key :: key in queue <==>
        key in old(queue) && !(key in pending[..deleted + failed] && key !in refused && key !in stuck)
      ensures deleted == |set i | 0 <= i < deleted + failed && pending[i] !in refused && pending[i] !in stuck|
      ensures deleted + failed < |pending| ==>
        && deleted + failed >= 3
        && forall i | deleted + failed - 3 <= i < deleted + failed :: pending[i] in refused || pending[i] in stuck
      ensures forall n | 0 <= n < deleted + failed :: FailuresBefore(pending, n, refused + stuck) < 3
    {
      ghost var before := Rows();
      deleted, failed := HandleKeys(pending, refused, stuck);
      BatchMeans(before, pending, deleted + failed, refused, stuck);
    }

    /** The loop of a batch. */
    method HandleKeys(pending: seq<ObjectKey>, refused: set<ObjectKey>, stuck: set<ObjectKey>)
      returns (deleted: nat, failed: nat)
      modifies this`objects, this`queue
      ensures deleted + failed <= |pending|
      ensures deleted == Accepted(pending[..deleted + failed], refused + stuck)
      ensures queue == old(queue) - Deleted(pending[..deleted + failed], refused + stuck)
      ensures objects == old(objects) - Deleted(pending[..deleted + failed], refused)
      ensures deleted + failed < |pending| ==> FailuresBefore(pending, deleted + failed, refused + stuck) == 3
      ensures forall n | 0 <= n < deleted + failed :: FailuresBefore(pending, n, refused + stuck) < 3
    {
      deleted, failed := 0, 0;
      var consecutive := 0;
      while deleted + failed < |pending| && consecutive < CONSECUTIVE_FAILURE_LIMIT
        invariant deleted + failed <= |pending| && consecutive <= deleted + failed
        invariant deleted == Accepted(pending[..deleted + failed], refused + stuck)
        invariant queue == old(queue) - Deleted(pending[..deleted + failed], refused + stuck)
        invariant objects == old(objects) - Deleted(pending[..deleted + failed], refused)
        invariant consecutive == FailuresBefore(pending, deleted + failed, refused + stuck)
        invariant forall n | 0 <= n < deleted + failed :: FailuresBefore(pending, n, refused + stuck) < 3
        decreases |pending| - deleted - failed
      {
        var key := pending[deleted + failed];
        OneMore(pending, deleted + failed, refused, stuck);
        if key !in refused {
          objects := objects - {key};
        }
        if key in refused || key in stuck {
          failed, consecutive := failed + 1, consecutive + 1;
        } else {
          queue := queue - {key};
          deleted, consecutive := deleted + 1, 0;
        }
      }
    }
  }

  /** The new image is in and the client's column names it. */
  function Pointed(s: State, client: Id, key: ObjectKey, u: Id): State {
    Apply(Apply(s, InsertUpload(u, key, None)), PointImage(client, Some(u)))
  }

  /** From there on a confirmation is the cleanup of the image it replaced. */
  lemma ConfirmMeans(s: State, client: Id, key: ObjectKey, u: Id)
    requires Inv(s) && CanConfirm(s, key, u) && client in s.images
    ensures
      var after := ApplyAll(Pointed(s, client, key, u), DeleteReplaced(Pointed(s, client, key, u), s.images[client]));
      && after == ApplyAll(s, Effects(s, ConfirmImage(client, key, u)))
      && client in after.images && after.images[client] == Some(u)
      && UploadAdded(s, after, u, key, None) && UploadGone(s, after, s.images[client], Some(client))
      && (Inv(after) <==> key !in s.queue)
  {
    ConfirmRuns(s, client, key, u);
    ConfirmingAQueuedImage(s, client, key, u, 4);
    ImageConfirmed(s, client, key, u, 4);
    RunsAll(s, Event(ConfirmImage(client, key, u), 4));
  }

  lemma ConfirmRuns(s: State, client: Id, key: ObjectKey, u: Id)
    requires Inv(s) && CanConfirm(s, key, u) && client in s.images
    ensures ApplyAll(s, Effects(s, ConfirmImage(client, key, u))) ==
            ApplyAll(Pointed(s, client, key, u), DeleteReplaced(Pointed(s, client, key, u), s.images[client]))
  {
    var image := s.images[client];
    assert DeleteReplaced(Pointed(s, client, key, u), image) == DeleteReplaced(s, image);
    AppliesTwo(s, InsertUpload(u, key, None), PointImage(client, Some(u)), DeleteReplaced(s, image));
  }

  /** What the counts and keys of a batch are, place by place, and that it leaves the rows sound. */
  lemma BatchMeans(s: State, pending: seq<ObjectKey>, n: nat, refused: set<ObjectKey>, stuck: set<ObjectKey>)
    requires Inv(s) && n <= |pending| && forall key | key in pending :: key in s.queue
    ensures Accepted(pending[..n], refused + stuck) ==
            |set i | 0 <= i < n && pending[i] !in refused && pending[i] !in stuck|
    ensures Inv(s.(objects := s.objects - Deleted(pending[..n], refused),
                   queue := s.queue - Deleted(pending[..n], refused + stuck)))
  {
    AcceptedCounts(pending[..n], refused + stuck);
    assert (set i | 0 <= i < n && pending[i] !in refused && pending[i] !in stuck) ==
           AcceptedAt(pending[..n], refused + stuck);
    UnnamedDeleted(s, Deleted(pending[..n], refused), Deleted(pending[..n], refused + stuck));
  }

  lemma UnnamedDeleted(s: State, gone: set<ObjectKey>, dequeued: set<ObjectKey>)
    requires Inv(s) && forall key | key in gone :: !Named(s, key)
    ensures Inv(s.(objects := s.objects - gone, queue := s.queue - dequeued))
  {
    var after := s.(objects := s.objects - gone, queue := s.queue - dequeued);
    forall key ensures Named(after, key) <==> Named(s, key) {
    }
  }
}
