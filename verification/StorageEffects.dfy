/** What each storage action, run to its end, leaves in the bucket, the upload rows, the attachments, the
    image columns and the queue. */
module StorageEffects {
  import opened Wrappers
  import opened StorageOrder

  /** An upload's row is gone with its object and all that named it, one client's column aside; whatever
      belongs to other uploads is as it was. */
  ghost predicate UploadGone(before: State, after: State, gone: Option<Id>, client: Option<Id>) {
    && (gone.Some? ==> gone.value in before.uploads)
    && after.objects == before.objects - (if gone.Some? then {before.uploads[gone.value]} else {})
    && (forall v | v in before.uploads :: v in after.uploads <==> gone != Some(v))
    && (forall v | v in before.uploads && gone != Some(v) :: after.uploads[v] == before.uploads[v])
    && (forall a | a in before.attachments :: a in after.attachments <==> gone != Some(before.attachments[a]))
    && (forall a | a in before.attachments && a in after.attachments ::
          after.attachments[a] == before.attachments[a])
    && after.images.Keys == before.images.Keys
    && (forall c | c in before.images && client != Some(c) ::
          after.images[c] == if gone.Some? && before.images[c] == gone then None else before.images[c])
    && after.queue == before.queue
  }

  /** Nothing but the one upload row and what names it is new. */
  ghost predicate UploadAdded(before: State, after: State, u: Id, key: ObjectKey, a: Option<Id>) {
    && u in after.uploads && after.uploads[u] == key
    && (a.Some? ==> a.value in after.attachments && after.attachments[a.value] == u)
    && (forall v | v in after.uploads && v != u :: v in before.uploads)
    && forall x | x in after.attachments && a != Some(x) :: x in before.attachments
  }

  lemma RunsAll(s: State, e: Event)
    requires e.upTo >= |Effects(s, e.action)|
    ensures Perform(s, e) == ApplyAll(s, Effects(s, e.action))
  {
    var effects := Effects(s, e.action);
    assert effects[..|effects|] == effects;
  }

  lemma ObjectStored(s: State, key: ObjectKey, n: nat)
    requires n >= 1
    ensures Perform(s, Event(PutObject(key), n)) == s.(objects := s.objects + {key})
  {
    RunsAll(s, Event(PutObject(key), n));
    AppliesInTurn(s, Put(key), Put(key));
  }

  /** An added attachment names a new upload row for the object, if that is there and no row names it. */
  lemma AttachmentAdded(s: State, a: Id, key: ObjectKey, u: Id, n: nat)
    requires Inv(s) && a !in s.attachments && u !in s.uploads && n >= 1
    ensures
      var after := Perform(s, Event(AddAttachment(a, key, u), n));
      if key in s.objects && forall v | v in s.uploads :: s.uploads[v] != key then
        && after.uploads == s.uploads[u := key] && after.attachments == s.attachments[a := u]
        && after.objects == s.objects && after.images == s.images && after.queue == s.queue
      else after == s
  {
    RunsAll(s, Event(AddAttachment(a, key, u), n));
    AppliesInTurn(s, InsertUpload(u, key, Some(a)), Put(key));
  }

  /** A removed attachment goes with its upload row and its object. */
  lemma AttachmentRemoved(s: State, a: Id, n: nat)
    requires Inv(s) && n >= 2
    ensures
      var after := Perform(s, Event(RemoveAttachment(a), n));
      if a in s.attachments then
        && UploadGone(s, after, Some(s.attachments[a]), None) && a !in after.attachments
        && after.uploads.Keys <= s.uploads.Keys && after.attachments.Keys <= s.attachments.Keys
      else after == s
  {
    RunsAll(s, Event(RemoveAttachment(a), n));
    if a in s.attachments {
      AppliesInTurn(s, DeleteUpload(s.attachments[a]), DeleteObject(s.uploads[s.attachments[a]]));
    }
  }

  /** A confirmed image is the one the client then shows, and its former image is gone. */
  lemma ImageConfirmed(s: State, client: Id, key: ObjectKey, u: Id, n: nat)
    requires Inv(s) && u !in s.uploads && n >= 4
    ensures
      var after := Perform(s, Event(ConfirmImage(client, key, u), n));
      if client in s.images && key in s.objects && forall v | v in s.uploads :: s.uploads[v] != key then
        && client in after.images && after.images[client] == Some(u)
        && UploadAdded(s, after, u, key, None)
        && UploadGone(s, after, s.images[client], Some(client))
      else after == s
  {
    RunsAll(s, Event(ConfirmImage(client, key, u), n));
    if CanConfirm(s, key, u) && client in s.images {
      AppliesTwo(s, InsertUpload(u, key, None), PointImage(client, Some(u)), DeleteReplaced(s, s.images[client]));
      PointedThenGone(s, client, key, u);
    }
  }

  lemma PointedThenGone(s: State, client: Id, key: ObjectKey, u: Id)
    requires Inv(s) && CanConfirm(s, key, u) && client in s.images
    ensures
      var pointed := Apply(Apply(s, InsertUpload(u, key, None)), PointImage(client, Some(u)));
      var after := ApplyAll(pointed, DeleteReplaced(s, s.images[client]));
      && client in after.images && after.images[client] == Some(u)
      && UploadAdded(s, after, u, key, None)
      && UploadGone(s, after, s.images[client], Some(client))
  {
    var pointed := Apply(Apply(s, InsertUpload(u, key, None)), PointImage(client, Some(u)));
    ReplacedGoes(s, pointed, s.images[client]);
  }

  lemma AppliesTwo(s: State, first: Effect, second: Effect, rest: seq<Effect>)
    ensures ApplyAll(s, [first, second] + rest) == ApplyAll(Apply(Apply(s, first), second), rest)
  {
    assert ([first, second] + rest)[1..] == [second] + rest;
    assert ([second] + rest)[1..] == rest;
  }

  lemma ReplacedGoes(s: State, now: State, image: Option<Id>)
    requires image.Some? ==> image.value in s.uploads
    ensures ApplyAll(now, DeleteReplaced(s, image)) ==
      if image.None? then now
      else Apply(Apply(now, DeleteUpload(image.value)), DeleteObject(s.uploads[image.value]))
  {
    if image.Some? {
      AppliesInTurn(now, DeleteUpload(image.value), DeleteObject(s.uploads[image.value]));
    }
  }

  /** A removed image leaves the client without one, and is gone. */
  lemma ImageRemoved(s: State, client: Id, n: nat)
    requires Inv(s) && n >= 3
    ensures
      var after := Perform(s, Event(RemoveImage(client), n));
      if client in s.images then
        && client in after.images && after.images[client] == None
        && after.uploads.Keys <= s.uploads.Keys && after.attachments.Keys <= s.attachments.Keys
        && UploadGone(s, after, s.images[client], Some(client))
      else after == s
  {
    RunsAll(s, Event(RemoveImage(client), n));
    if client in s.images {
      var effects := [PointImage(client, None)] + DeleteReplaced(s, s.images[client]);
      assert effects[1..] == DeleteReplaced(s, s.images[client]);
      ReplacedGoes(s, Apply(s, PointImage(client, None)), s.images[client]);
    }
  }

  lemma {:induction false} DrainTakes(s: State, keys: seq<ObjectKey>)
    ensures
      var gone := set key | key in keys;
      ApplyAll(s, Drain(keys)) == s.(objects := s.objects - gone, queue := s.queue - gone)
    decreases |keys|
  {
    if keys == [] {
      assert s.objects - {} == s.objects && s.queue - {} == s.queue;
    } else {
      AppliesTwo(s, DeleteObject(keys[0]), Dequeue(keys[0]), Drain(keys[1..]));
      DrainTakes(Apply(Apply(s, DeleteObject(keys[0])), Dequeue(keys[0])), keys[1..]);
      assert (set key | key in keys) == {keys[0]} + set key | key in keys[1..];
    }
  }

  /** A whole sweep of queued keys: the objects are gone and so are their queue rows. */
  lemma SweepTakes(s: State, keys: seq<ObjectKey>, n: nat)
    requires (forall key | key in keys :: key in s.queue) && n >= |Effects(s, Sweep(keys))|
    ensures
      var gone := set key | key in keys;
      Perform(s, Event(Sweep(keys), n)) == s.(objects := s.objects - gone, queue := s.queue - gone)
  {
    RunsAll(s, Event(Sweep(keys), n));
    DrainTakes(s, keys);
  }

  /** An erasure lets go of upload rows with all that named them, queues their objects, and drains those
      it queued. */
  lemma ForgetReleases(s: State, client: Id, rows: set<Id>, keys: seq<ObjectKey>, n: nat)
    requires n >= |Effects(s, Forget(client, rows, keys))|
    requires forall key | key in keys :: exists u | u in rows && u in s.uploads :: s.uploads[u] == key
    ensures
      var after, gone := Perform(s, Event(Forget(client, rows, keys), n)), set key | key in keys;
      && (forall u :: u in after.uploads <==> u in s.uploads && u !in rows)
      && (forall u | u in after.uploads :: after.uploads[u] == s.uploads[u])
      && (forall a :: a in after.attachments <==> a in s.attachments && s.attachments[a] !in rows)
      && (forall a | a in after.attachments :: after.attachments[a] == s.attachments[a])
      && after.images.Keys == s.images.Keys
      && (forall c | c in s.images ::
            after.images[c] == if s.images[c].Some? && s.images[c].value in rows then None else s.images[c])
      && after.objects == s.objects - gone
      && (forall key :: key in after.queue <==>
            key !in gone && (key in s.queue || exists u | u in rows && u in s.uploads :: s.uploads[u] == key))
  {
    var e := Event(Forget(client, rows, keys), n);
    RunsAll(s, e);
    forall key | key in keys ensures key in KeysOf(s, rows) {
    }
    var released := Apply(s, Release(rows));
    assert ([Release(rows)] + Drain(keys))[1..] == Drain(keys);
    DrainTakes(released, keys);
  }
}
