/** The order of object writes against row writes. Each action is the effects it performs after its
    reads, and a crash may cut it short between any two of them. */
module StorageOrder {
  import opened Wrappers

  type Id = nat
  type ObjectKey = nat

  /** `uploads` maps each row to its unique path. `confirmed` remembers every key an upload row was ever
      made for. */
  datatype State = State(
    objects: set<ObjectKey>, uploads: map<Id, ObjectKey>, attachments: map<Id, Id>,
    images: map<Id, Option<Id>>, queue: set<ObjectKey>, confirmed: set<ObjectKey>)

  datatype Effect =
    | Put(key: ObjectKey)
    | InsertUpload(upload: Id, key: ObjectKey, attachment: Option<Id>)
    | PointImage(client: Id, image: Option<Id>)
    | DeleteUpload(upload: Id)
    | DeleteObject(key: ObjectKey)
    | Release(rows: set<Id>)
    | Dequeue(key: ObjectKey)

  datatype Action =
    | PutObject(key: ObjectKey)
    | AddAttachment(attachment: Id, key: ObjectKey, upload: Id)
    | RemoveAttachment(attachment: Id)
    | ConfirmImage(client: Id, key: ObjectKey, upload: Id)
    | RemoveImage(client: Id)
    | Forget(client: Id, rows: set<Id>, drained: seq<ObjectKey>)
    | Sweep(drained: seq<ObjectKey>)

  predicate Named(s: State, key: ObjectKey) {
    exists u | u in s.uploads :: s.uploads[u] == key
  }

  function KeysOf(s: State, rows: set<Id>): set<ObjectKey> {
    set u | u in rows && u in s.uploads :: s.uploads[u]
  }

  /** Deleting upload rows cascades into attachments and sets image columns to NULL. */
  function WithoutUploads(s: State, rows: set<Id>): State {
    s.(uploads := s.uploads - rows,
       attachments := map a | a in s.attachments && s.attachments[a] !in rows :: s.attachments[a],
       images := map c | c in s.images ::
         if s.images[c].Some? && s.images[c].value in rows then None else s.images[c])
  }

  function Apply(s: State, e: Effect): State {
    match e
    case Put(key) => s.(objects := s.objects + {key})
    case InsertUpload(u, key, attachment) =>
      s.(uploads := s.uploads[u := key], confirmed := s.confirmed + {key},
         attachments := if attachment.Some? then s.attachments[attachment.value := u] else s.attachments)
    case PointImage(client, image) => s.(images := s.images[client := image])
    case DeleteUpload(u) => WithoutUploads(s, {u})
    case DeleteObject(key) => s.(objects := s.objects - {key})
    case Release(rows) => WithoutUploads(s.(queue := s.queue + KeysOf(s, rows)), rows)
    case Dequeue(key) => s.(queue := s.queue - {key})
  }

  function ApplyAll(s: State, effects: seq<Effect>): State
    decreases |effects|
  {
    if effects == [] then s else ApplyAll(Apply(s, effects[0]), effects[1..])
  }

  /** The object was really uploaded, and the unique path admits the new row. */
  predicate CanConfirm(s: State, key: ObjectKey, upload: Id) {
    key in s.objects && !Named(s, key) && upload !in s.uploads
  }

  /** The cleanup after a replaced or cleared image: its row, then its object. */
  function DeleteReplaced(s: State, image: Option<Id>): seq<Effect> {
    if image.None? || image.value !in s.uploads then []
    else [DeleteUpload(image.value), DeleteObject(s.uploads[image.value])]
  }

  /** Each queued object, then its queue row. */
  function Drain(keys: seq<ObjectKey>): seq<Effect> {
    if keys == [] then [] else [DeleteObject(keys[0]), Dequeue(keys[0])] + Drain(keys[1..])
  }

  /** What an action does after its reads. */
  function Effects(s: State, action: Action): seq<Effect> {
    match action
    case PutObject(key) => [Put(key)]
    case AddAttachment(a, key, u) =>
      if CanConfirm(s, key, u) && a !in s.attachments then [InsertUpload(u, key, Some(a))] else []
    case RemoveAttachment(a) =>
      if a in s.attachments && s.attachments[a] in s.uploads
      then [DeleteUpload(s.attachments[a]), DeleteObject(s.uploads[s.attachments[a]])] else []
    case ConfirmImage(client, key, u) =>
      if CanConfirm(s, key, u) && client in s.images
      then [InsertUpload(u, key, None), PointImage(client, Some(u))] + DeleteReplaced(s, s.images[client])
      else []
    case RemoveImage(client) =>
      if client in s.images then [PointImage(client, None)] + DeleteReplaced(s, s.images[client]) else []
    case Forget(_, rows, drained) =>
      if forall key | key in drained :: key in KeysOf(s, rows) then [Release(rows)] + Drain(drained) else []
    case Sweep(drained) =>
      if forall key | key in drained :: key in s.queue then Drain(drained) else []
  }

  /** An action that crashes after its first `upTo` effects, or completes. */
  datatype Event = Event(action: Action, upTo: nat)

  function Prefix(effects: seq<Effect>, n: nat): seq<Effect> {
    if n < |effects| then effects[..n] else effects
  }

  function Perform(s: State, e: Event): State {
    ApplyAll(s, Prefix(Effects(s, e.action), e.upTo))
  }

  function Run(s: State, events: seq<Event>): State
    decreases |events|
  {
    if events == [] then s else Run(Perform(s, events[0]), events[1..])
  }

  // What every state keeps.

  /** Every upload row has its object, paths are unique, what is queued is named by no row, and
      attachments and images point at rows that exist. */
  ghost predicate Inv(s: State) {
    && (forall u | u in s.uploads :: s.uploads[u] in s.objects && s.uploads[u] in s.confirmed)
    && (forall u, v | u in s.uploads && v in s.uploads && s.uploads[u] == s.uploads[v] :: u == v)
    && (forall key | key in s.queue :: !Named(s, key) && key in s.confirmed)
    && (forall a | a in s.attachments :: s.attachments[a] in s.uploads)
    && forall c | c in s.images && s.images[c].Some? :: s.images[c].value in s.uploads
  }

  ghost predicate Safe(s: State, e: Effect) {
    match e
    case InsertUpload(u, key, _) =>
      key in s.objects && !Named(s, key) && u !in s.uploads && key !in s.queue
    case PointImage(_, image) => image.Some? ==> image.value in s.uploads
    case DeleteObject(key) => !Named(s, key)
    case _ => true
  }

  lemma SafeKeepsInv(s: State, e: Effect)
    requires Inv(s) && Safe(s, e)
    ensures Inv(Apply(s, e))
  {
    forall key | key in Apply(s, e).queue ensures !Named(Apply(s, e), key) {
    }
  }

  ghost predicate AllSafe(s: State, effects: seq<Effect>)
    decreases |effects|
  {
    effects != [] ==> Safe(s, effects[0]) && AllSafe(Apply(s, effects[0]), effects[1..])
  }

  lemma {:induction false} SafePrefixKeepsInv(s: State, effects: seq<Effect>, n: nat)
    requires Inv(s) && AllSafe(s, effects)
    ensures Inv(ApplyAll(s, Prefix(effects, n)))
    decreases |effects|
  {
    if effects != [] && n > 0 {
      SafeKeepsInv(s, effects[0]);
      SafePrefixKeepsInv(Apply(s, effects[0]), effects[1..], n - 1);
      assert Prefix(effects, n)[0] == effects[0];
      assert Prefix(effects, n)[1..] == Prefix(effects[1..], n - 1);
    }
  }

  lemma TwoThenSafe(s: State, first: Effect, second: Effect, rest: seq<Effect>)
    requires Safe(s, first) && Safe(Apply(s, first), second)
    requires AllSafe(Apply(Apply(s, first), second), rest)
    ensures AllSafe(s, [first, second] + rest)
  {
  }

  lemma {:induction false} DrainIsSafe(s: State, keys: seq<ObjectKey>)
    requires forall key | key in keys :: !Named(s, key)
    ensures AllSafe(s, Drain(keys))
    decreases |keys|
  {
    if keys != [] {
      var deleted := Apply(s, DeleteObject(keys[0]));
      var next := Apply(deleted, Dequeue(keys[0]));
      forall key ensures Named(next, key) <==> Named(s, key) {
      }
      DrainIsSafe(next, keys[1..]);
      TwoThenSafe(s, DeleteObject(keys[0]), Dequeue(keys[0]), Drain(keys[1..]));
    }
  }

  lemma ReplacedIsSafe(s: State, now: State, image: Option<Id>)
    requires Inv(s)
    requires image.Some? && image.value in s.uploads ==>
      forall u | u in now.uploads && now.uploads[u] == s.uploads[image.value] :: u == image.value
    ensures AllSafe(now, DeleteReplaced(s, image))
  {
  }

  /** Replacing an image never leaves the client without one: wherever the confirmation crashes, the
      client shows the old image or the new one. */
  lemma ReplacingKeepsAnImage(s: State, client: Id, key: ObjectKey, u: Id, n: nat)
    requires Inv(s) && client in s.images && s.images[client].Some?
    ensures
      var after := Perform(s, Event(ConfirmImage(client, key, u), n));
      client in after.images && after.images[client].Some?
      && after.images[client].value in {u, s.images[client].value}
  {
    var effects := Effects(s, ConfirmImage(client, key, u));
    if effects != [] {
      var image := s.images[client].value;
      assert effects == [InsertUpload(u, key, None), PointImage(client, Some(u)), DeleteUpload(image),
                         DeleteObject(s.uploads[image])];
      AppliesUpToFour(s, effects, n);
    }
  }

  lemma AppliesUpToFour(s: State, e: seq<Effect>, n: nat)
    requires |e| == 4
    ensures ApplyAll(s, Prefix(e, n)) ==
      if n == 0 then s
      else if n == 1 then Apply(s, e[0])
      else if n == 2 then Apply(Apply(s, e[0]), e[1])
      else if n == 3 then Apply(Apply(Apply(s, e[0]), e[1]), e[2])
      else Apply(Apply(Apply(Apply(s, e[0]), e[1]), e[2]), e[3])
  {
    var s2 := Apply(Apply(s, e[0]), e[1]);
    var s3 := Apply(s2, e[2]);
    assert ApplyAll(s3, [e[3]]) == Apply(s3, e[3]) by { assert [e[3]][1..] == []; }
    assert ApplyAll(s2, [e[2], e[3]]) == Apply(s3, e[3]) by { assert [e[2], e[3]][1..] == [e[3]]; }
    AppliesInTurn(s2, e[2], e[3]);
    AppliesInTurn(s, e[0], e[1]);
    var p := Prefix(e, n);
    if n == 1 { assert p == [e[0]]; }
    if n == 2 { assert p == [e[0], e[1]]; }
    if n == 3 { assert p[1..] == [e[1], e[2]] && p[1..][1..] == [e[2]]; }
    if n >= 4 { assert p[1..] == [e[1], e[2], e[3]] && p[1..][1..] == [e[2], e[3]]; }
  }

  function ConfirmedKey(action: Action): set<ObjectKey> {
    match action
    case AddAttachment(_, key, _) => {key}
    case ConfirmImage(_, key, _) => {key}
    case _ => {}
  }

  /** Every effect of an action is safe where it happens, if the key it confirms is not queued. */
  lemma EffectsAreSafe(s: State, action: Action)
    requires Inv(s) && ConfirmedKey(action) !! s.queue
    ensures AllSafe(s, Effects(s, action))
  {
    match action
    case RemoveAttachment(a) =>
      if a in s.attachments {
        ReplacedIsSafe(s, s, Some(s.attachments[a]));
      }
    case ConfirmImage(client, key, u) =>
      if CanConfirm(s, key, u) && client in s.images {
        ConfirmIsSafe(s, client, key, u);
      }
    case RemoveImage(client) =>
      if client in s.images {
        var cleared := Apply(s, PointImage(client, None));
        ReplacedIsSafe(s, cleared, s.images[client]);
        assert Effects(s, action)[1..] == DeleteReplaced(s, s.images[client]);
      }
    case Forget(_, rows, drained) =>
      var released := Apply(s, Release(rows));
      if forall key | key in drained :: key in KeysOf(s, rows) {
        SafeKeepsInv(s, Release(rows));
        DrainIsSafe(released, drained);
        assert ([Release(rows)] + Drain(drained))[1..] == Drain(drained);
      }
    case Sweep(drained) =>
      if forall key | key in drained :: key in s.queue {
        DrainIsSafe(s, drained);
      }
    case _ =>
  }

  lemma ConfirmIsSafe(s: State, client: Id, key: ObjectKey, u: Id)
    requires Inv(s) && CanConfirm(s, key, u) && client in s.images && key !in s.queue
    ensures AllSafe(s, Effects(s, ConfirmImage(client, key, u)))
  {
    var effects := Effects(s, ConfirmImage(client, key, u));
    var inserted := Apply(s, InsertUpload(u, key, None));
    var pointed := Apply(inserted, PointImage(client, Some(u)));
    ReplacedIsSafe(s, pointed, s.images[client]);
    assert effects[1..][0] == PointImage(client, Some(u));
    assert effects[1..][1..] == DeleteReplaced(s, s.images[client]);
  }

  lemma AppliesInTurn(s: State, first: Effect, second: Effect)
    ensures ApplyAll(s, [first]) == Apply(s, first)
    ensures ApplyAll(s, [first, second]) == Apply(Apply(s, first), second)
  {
    assert [first][1..] == [] && [first, second][1..] == [second] && [second][1..] == [];
    assert ApplyAll(Apply(s, first), [second]) == Apply(Apply(s, first), second);
  }

  /** A confirmation keeps the invariant exactly when its key is not queued. */
  lemma ConfirmingAQueuedKey(s: State, a: Id, key: ObjectKey, u: Id, n: nat)
    requires Inv(s) && CanConfirm(s, key, u) && a !in s.attachments && n >= 1
    ensures Inv(Perform(s, Event(AddAttachment(a, key, u), n))) <==> key !in s.queue
  {
    var after := Apply(s, InsertUpload(u, key, Some(a)));
    AppliesInTurn(s, InsertUpload(u, key, Some(a)), Put(key));
    assert Prefix([InsertUpload(u, key, Some(a))], n) == [InsertUpload(u, key, Some(a))];
    assert after.uploads[u] == key;
    if key !in s.queue {
      SafeKeepsInv(s, InsertUpload(u, key, Some(a)));
    }
  }

  /** Effects that leave one row and the queue alone. */
  predicate Spares(effects: seq<Effect>, u: Id) {
    forall e | e in effects ::
      e.PointImage? || e.DeleteObject? || (e.DeleteUpload? && e.upload != u)
  }

  lemma {:induction false} SparedRowStays(s: State, effects: seq<Effect>, u: Id)
    requires Spares(effects, u) && u in s.uploads
    ensures
      var after := ApplyAll(s, effects);
      u in after.uploads && after.uploads[u] == s.uploads[u] && after.queue == s.queue
    decreases |effects|
  {
    if effects != [] {
      assert effects[0] in effects && Spares(effects[1..], u);
      SparedRowStays(Apply(s, effects[0]), effects[1..], u);
    }
  }

  /** The same for a client image, at every crash point after its row is inserted. */
  lemma ConfirmingAQueuedImage(s: State, client: Id, key: ObjectKey, u: Id, n: nat)
    requires Inv(s) && CanConfirm(s, key, u) && client in s.images && n >= 1
    ensures Inv(Perform(s, Event(ConfirmImage(client, key, u), n))) <==> key !in s.queue
  {
    var effects := Effects(s, ConfirmImage(client, key, u));
    if key !in s.queue {
      ConfirmIsSafe(s, client, key, u);
      SafePrefixKeepsInv(s, effects, n);
    } else {
      var p := Prefix(effects, n);
      var inserted := Apply(s, InsertUpload(u, key, None));
      assert p[0] == InsertUpload(u, key, None);
      forall e | e in p[1..] ensures e.PointImage? || e.DeleteObject? || (e.DeleteUpload? && e.upload != u) {
        assert e in effects[1..];
      }
      SparedRowStays(inserted, p[1..], u);
      var after := ApplyAll(inserted, p[1..]);
      assert key in after.queue && after.uploads[u] == key;
    }
  }

  /** The event gets as far as inserting a row for a key still queued. */
  predicate ConfirmsQueued(s: State, e: Event) {
    e.upTo >= 1 && Effects(s, e.action) != [] && !(ConfirmedKey(e.action) !! s.queue)
  }

  lemma EventKeepsInv(s: State, e: Event)
    requires Inv(s)
    ensures Inv(Perform(s, e)) <==> !ConfirmsQueued(s, e)
  {
    if e.upTo == 0 || Effects(s, e.action) == [] {
      assert Prefix(Effects(s, e.action), e.upTo) == [];
    } else if ConfirmedKey(e.action) !! s.queue {
      EffectsAreSafe(s, e.action);
      SafePrefixKeepsInv(s, Effects(s, e.action), e.upTo);
    } else if e.action.AddAttachment? {
      ConfirmingAQueuedKey(s, e.action.attachment, e.action.key, e.action.upload, e.upTo);
    } else {
      ConfirmingAQueuedImage(s, e.action.client, e.action.key, e.action.upload, e.upTo);
    }
  }

  ghost predicate InvThroughout(s: State, events: seq<Event>)
    decreases |events|
  {
    Inv(s) && (events != [] ==> InvThroughout(Perform(s, events[0]), events[1..]))
  }

  predicate NoneConfirmsQueued(s: State, events: seq<Event>)
    decreases |events|
  {
    events != [] ==> !ConfirmsQueued(s, events[0]) && NoneConfirmsQueued(Perform(s, events[0]), events[1..])
  }

  /** Whatever the actions and wherever they crash: every upload row has its object, and nothing named is
      queued, at every point of a run exactly when no event of it confirms a queued key. */
  lemma {:induction false} RowsKeepTheirObjects(s: State, events: seq<Event>)
    requires Inv(s)
    ensures InvThroughout(s, events) <==> NoneConfirmsQueued(s, events)
    decreases |events|
  {
    if events != [] {
      EventKeepsInv(s, events[0]);
      if !ConfirmsQueued(s, events[0]) {
        RowsKeepTheirObjects(Perform(s, events[0]), events[1..]);
      }
    }
  }

  /** Each minted key is confirmed at most once along the run. */
  ghost predicate ConfirmedOnce(s: State, events: seq<Event>)
    decreases |events|
  {
    events != [] ==>
      ConfirmedKey(events[0].action) !! s.confirmed && ConfirmedOnce(Perform(s, events[0]), events[1..])
  }

  /** What callers can see to: confirming each minted key at most once is enough. */
  lemma {:induction false} ConfirmingOnceIsSafe(s: State, events: seq<Event>)
    requires Inv(s) && ConfirmedOnce(s, events)
    ensures NoneConfirmsQueued(s, events) && Inv(Run(s, events))
    decreases |events|
  {
    if events != [] {
      EventKeepsInv(s, events[0]);
      ConfirmingOnceIsSafe(Perform(s, events[0]), events[1..]);
    }
  }

  /** The damage that then follows: the next sweep removes the object the new row names. */
  lemma QueuedKeyLosesItsObject(s: State, a: Id, key: ObjectKey, u: Id)
    requires Inv(s) && CanConfirm(s, key, u) && a !in s.attachments && key in s.queue
    ensures
      var after := Run(s, [Event(AddAttachment(a, key, u), 1), Event(Sweep([key]), 2)]);
      u in after.uploads && after.uploads[u] !in after.objects
  {
    var events := [Event(AddAttachment(a, key, u), 1), Event(Sweep([key]), 2)];
    var added := Apply(s, InsertUpload(u, key, Some(a)));
    AppliesInTurn(s, InsertUpload(u, key, Some(a)), Put(key));
    assert Perform(s, events[0]) == added;
    assert Drain([key]) == [DeleteObject(key), Dequeue(key)] by {
      assert [key][1..] == [];
    }
    AppliesInTurn(added, DeleteObject(key), Dequeue(key));
    assert Effects(added, Sweep([key])) == [DeleteObject(key), Dequeue(key)];
    assert Perform(added, events[1]) == Apply(Apply(added, DeleteObject(key)), Dequeue(key));
    RunsInTurn(s, events[0], events[1]);
  }

  lemma RunsInTurn(s: State, first: Event, second: Event)
    ensures Run(s, [first, second]) == Perform(Perform(s, first), second)
  {
    assert [first, second][1..] == [second] && [second][1..] == [];
    assert Run(Perform(s, first), [second]) == Perform(Perform(s, first), second);
  }

  const EMPTY: State := State({}, map[], map[], map[], {}, {})

  /** An attachment is added, its client is erased, and the process dies before the drain. */
  function ErasedUndrained(a: Id, key: ObjectKey, u: Id, client: Id): State {
    var added := Perform(Perform(EMPTY, Event(PutObject(key), 1)), Event(AddAttachment(a, key, u), 1));
    Perform(added, Event(Forget(client, {u}, [key]), 1))
  }

  lemma ErasedUndrainedQueues(a: Id, key: ObjectKey, u: Id, client: Id)
    ensures
      var s := ErasedUndrained(a, key, u, client);
      Inv(s) && key in s.queue && key in s.objects && s.uploads == map[] && s.attachments == map[]
  {
    var one := Apply(EMPTY, Put(key));
    var two := Apply(one, InsertUpload(u, key, Some(a)));
    AppliesInTurn(EMPTY, Put(key), Put(key));
    AppliesInTurn(one, InsertUpload(u, key, Some(a)), Put(key));
    AppliesInTurn(two, Release({u}), Put(key));
    assert u in two.uploads && two.uploads[u] == key;
    assert key in KeysOf(two, {u});
    assert Prefix([Release({u})] + Drain([key]), 1) == [Release({u})];
  }

  /** The whole damage from the empty instance: confirming that key again and sweeping leaves a row whose
      object is gone. */
  lemma ConfirmedAgainLosesItsObject(a: Id, key: ObjectKey, u: Id, client: Id, again: Id, row: Id)
    ensures
      var after := Run(ErasedUndrained(a, key, u, client),
                       [Event(AddAttachment(again, key, row), 1), Event(Sweep([key]), 2)]);
      row in after.uploads && after.uploads[row] !in after.objects
  {
    ErasedUndrainedQueues(a, key, u, client);
    QueuedKeyLosesItsObject(ErasedUndrained(a, key, u, client), again, key, row);
  }
}
