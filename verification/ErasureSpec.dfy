/** What erasing one client means, stated without the order the code deletes in: which rows belong to
    the client, which contracts stand in the way, and which stored files nothing names afterwards. */
module ErasureSpec {
  import opened Wrappers
  import opened Schema

  /** A reference that makes its row part of the record it names: the client and project columns, and
      every cascading column other than an attachment's file. */
  predicate Owning(t: Table, c: Column) {
    c.ClientId? || c.ProjectId? || (Cascades(t, c) && !c.UploadId?)
  }

  predicate Belongs(db: Database, client: Id, k: Key)
    requires k in db
    decreases Rank(k.table)
  {
    k == Key(Clients, client) ||
    exists c | c in db[k].refs ::
      var t := Target(k, db[k], c);
      t.Some? && Owning(k.table, c) && t.value in db && Belongs(db, client, t.value)
  }

  /** The entity kinds the runtime logs are erased for. */
  predicate LogErasedFor(log: Table, about: Table) {
    || about in {Invoices, Proposals, Contracts}
    || (log.ActivityLogs? && about in {Clients, Projects})
  }

  predicate IsLog(t: Table) {
    t.ActivityLogs? || t.EmailLogs?
  }

  predicate LogsErased(db: Database, client: Id, k: Key)
    requires k in db
  {
    && IsLog(k.table) && db[k].body.LogBody? && db[k].body.about.Some?
    && var about := db[k].body.about.value;
       LogErasedFor(k.table, about.table) && about in db && Belongs(db, client, about)
  }

  predicate Doomed(db: Database, client: Id, k: Key)
    requires k in db
  {
    Belongs(db, client, k) || LogsErased(db, client, k)
  }

  function DoomedRows(db: Database, client: Id): set<Key> {
    set k | k in db && Doomed(db, client, k)
  }

  function DoomedIn(db: Database, client: Id, t: Table): set<Key> {
    set k | k in db && k.table == t && Doomed(db, client, k)
  }

  function TableRows(db: Database, t: Table): set<Key> {
    set k | k in db && k.table == t
  }

  // Countersigned contracts.

  predicate Countersigned(db: Database, contract: Key) {
    exists s | s in db :: s.table.ContractSignatures? && Target(s, db[s], ContractId) == Some(contract)
  }

  function BlockingContracts(db: Database, client: Id): set<Key> {
    set k | k in db && k.table.Contracts? && Belongs(db, client, k) && Countersigned(db, k)
  }

  // Stored files.

  function BlockImages(body: Body): set<Id> {
    match body
    case TemplateBody(images) => images
    case ContractBody(_, _, images) => images
    case _ => {}
  }

  predicate IsAvatarOf(db: Database, user: Key, upload: Key) {
    && user in db && db[user].body.UserBody? && db[user].body.avatar.Some?
    && upload in db && upload.table.Uploads? && db[upload].body.UploadBody?
    && db[upload].body.stored.path == db[user].body.avatar.value
  }

  /** Every upload id something in the database points at: foreign keys, image blocks, avatars. */
  function UploadReferences(db: Database): set<Id> {
    (set k | k in db && UploadId in db[k].refs :: db[k].refs[UploadId]) +
    (set k, i | k in db && i in BlockImages(db[k].body) :: i) +
    (set user, upload | user in db && upload in db && IsAvatarOf(db, user, upload) :: upload.id)
  }

  /** The upload rows the change from `before` to `after` was the last to let go of. */
  function ReleasedUploads(before: Database, after: Database): set<Key> {
    set k | k in after && k.table.Uploads? &&
            k.id in UploadReferences(before) && k.id !in UploadReferences(after)
  }

  function ObjectsOf(db: Database, uploads: set<Key>): set<StoredObject> {
    set k | k in uploads && k in db && db[k].body.UploadBody? :: db[k].body.stored
  }

  function ArchivesOf(db: Database, exports: set<Key>): set<StoredObject> {
    set k | k in exports && k in db && db[k].body.ExportBody? && db[k].body.archive.Some? ::
      StoredObject(ExportsBucket, db[k].body.archive.value)
  }

  function WithoutDoomed(db: Database, client: Id): Database {
    Without(db, DoomedRows(db, client))
  }

  /** The database an erasure commits. */
  function Erased(db: Database, client: Id): Database {
    Without(WithoutDoomed(db, client), ReleasedUploads(db, WithoutDoomed(db, client)))
  }

  /** The objects an erasure queues for removal from the buckets. */
  function ReleasedObjects(db: Database, client: Id): set<StoredObject> {
    ObjectsOf(db, ReleasedUploads(db, WithoutDoomed(db, client))) +
    ArchivesOf(db, DoomedIn(db, client, DataExports))
  }

  // What the specification says to a reader.

  /** Nothing left names the client or one of its projects, in a column or in a log entry about one
      of the erased documents. */
  lemma ErasedNamesNothing(db: Database, client: Id, k: Key, gone: Key)
    requires Valid(db)
    requires gone in db && Belongs(db, client, gone)
    requires k in Erased(db, client)
    ensures gone !in Erased(db, client)
    ensures forall c :: Target(k, Erased(db, client)[k], c) != Some(gone)
    ensures
      var body := Erased(db, client)[k].body;
      IsLog(k.table) && body.LogBody? && LogErasedFor(k.table, gone.table) ==> body.about != Some(gone)
  {
    assert gone in DoomedRows(db, client);
    forall c ensures Target(k, Erased(db, client)[k], c) != Some(gone) {
      ScrubbedNamesNone(k, db[k], DoomedRows(db, client), c);
      ScrubKeepsTarget(k, WithoutDoomed(db, client)[k], ReleasedUploads(db, WithoutDoomed(db, client)), c);
    }
  }

  lemma ScrubbedNamesNone(k: Key, row: Row, gone: set<Key>, c: Column)
    ensures !Names(k, Scrub(k, row, gone), c, gone)
  {
  }

  lemma ScrubKeepsTarget(k: Key, row: Row, gone: set<Key>, c: Column)
    ensures Target(k, Scrub(k, row, gone), c).Some? ==> Target(k, Scrub(k, row, gone), c) == Target(k, row, c)
  {
  }

  /** An unrelated row keeps its body and loses only optional references to erased rows: never its
      client, project or parent document. */
  lemma UnrelatedRowsKept(db: Database, client: Id, k: Key)
    requires Valid(db)
    requires k in db && !Doomed(db, client, k)
    requires k !in ReleasedUploads(db, WithoutDoomed(db, client))
    ensures k in Erased(db, client)
    ensures
      var row := Erased(db, client)[k];
      && row.body == db[k].body && row.rest == db[k].rest
      && (forall c :: c in row.refs ==> c in db[k].refs && row.refs[c] == db[k].refs[c])
      && forall c :: c in db[k].refs && c !in row.refs ==>
           !Owning(k.table, c) && !Cascades(k.table, c) && Names(k, db[k], c, DoomedRows(db, client))
  {
    var after := WithoutDoomed(db, client);
    ReleasedUploadsUnnamed(db, client, k);
    assert Erased(db, client)[k].refs == after[k].refs;
    forall c | c in db[k].refs && c !in after[k].refs
      ensures !Owning(k.table, c) && !Cascades(k.table, c)
      ensures Names(k, db[k], c, DoomedRows(db, client))
    {
      LostReferenceIsOptional(db, client, k, c);
    }
  }

  lemma LostReferenceIsOptional(db: Database, client: Id, k: Key, c: Column)
    requires ReferencesHold(db)
    requires k in db && !Doomed(db, client, k)
    requires c in db[k].refs && Names(k, db[k], c, DoomedRows(db, client))
    ensures !Owning(k.table, c) && !Cascades(k.table, c)
  {
    if Owning(k.table, c) {
      OwnedByDoomed(db, client, k, c);
    } else if Cascades(k.table, c) {
      UploadColumnNamesUploads(k.table);
      UploadsNotDoomed(db, client, Target(k, db[k], c).value);
    }
  }

  lemma UploadColumnNamesUploads(t: Table)
    ensures ForeignKeyOf(t, UploadId).Some? ==> ForeignKeyOf(t, UploadId).value.parent.Uploads?
  {
  }

  lemma UploadsNotDoomed(db: Database, client: Id, k: Key)
    requires k in db && k.table.Uploads?
    ensures !Doomed(db, client, k)
  {
  }

  /** A row owned by an erased row is erased: log rows own nothing. */
  lemma OwnedByDoomed(db: Database, client: Id, k: Key, c: Column)
    requires ReferencesHold(db)
    requires k in db && c in db[k].refs && Owning(k.table, c)
    requires Names(k, db[k], c, DoomedRows(db, client))
    ensures Belongs(db, client, k)
  {
    var target := Target(k, db[k], c).value;
    assert !IsLog(target.table);
    assert Belongs(db, client, target);
  }

  /** The reference through which a row other than the client itself belongs to the client. */
  lemma OwningParent(db: Database, client: Id, k: Key) returns (c: Column)
    requires k in db && Belongs(db, client, k) && k != Key(Clients, client)
    ensures c in db[k].refs && Owning(k.table, c)
    ensures Target(k, db[k], c).Some? && Target(k, db[k], c).value in db
    ensures Belongs(db, client, Target(k, db[k], c).value)
  {
    c :| c in db[k].refs && Target(k, db[k], c).Some? && Owning(k.table, c)
         && Target(k, db[k], c).value in db && Belongs(db, client, Target(k, db[k], c).value);
  }

  lemma ReleasedUploadsUnnamed(db: Database, client: Id, k: Key)
    requires k in WithoutDoomed(db, client)
    ensures forall c ::
      !Names(k, WithoutDoomed(db, client)[k], c, ReleasedUploads(db, WithoutDoomed(db, client)))
  {
    var after := WithoutDoomed(db, client);
    forall c ensures !Names(k, after[k], c, ReleasedUploads(db, after)) {
      UploadColumnOnly(k.table, c);
      if UploadId in after[k].refs {
        assert after[k].refs[UploadId] in UploadReferences(after);
      }
    }
  }

  lemma UploadColumnOnly(t: Table, c: Column)
    ensures ForeignKeyOf(t, c).Some? && ForeignKeyOf(t, c).value.parent.Uploads? ==> c.UploadId?
  {
  }

  /** A row names an upload by a column, by an image block of its body, or as the avatar stored at the
      upload's path. */
  predicate NamesUpload(row: Row, i: Id, path: Path) {
    || (UploadId in row.refs && row.refs[UploadId] == i)
    || ((row.body.TemplateBody? || row.body.ContractBody?) && i in row.body.images)
    || (row.body.UserBody? && row.body.avatar == Some(path))
  }

  lemma ReferencedExactly(db: Database, i: Id)
    ensures i in UploadReferences(db) <==>
      || (exists k | k in db :: UploadId in db[k].refs && db[k].refs[UploadId] == i)
      || (exists k | k in db :: db[k].body.TemplateBody? && i in db[k].body.images)
      || (exists k | k in db :: db[k].body.ContractBody? && i in db[k].body.images)
      || (Key(Uploads, i) in db && db[Key(Uploads, i)].body.UploadBody? &&
          exists k | k in db :: db[k].body.UserBody? &&
            db[k].body.avatar == Some(db[Key(Uploads, i)].body.stored.path))
  {
    forall k | k in db && (db[k].body.TemplateBody? || db[k].body.ContractBody?) && i in db[k].body.images
      ensures i in UploadReferences(db)
    {
      assert i in BlockImages(db[k].body);
    }
    forall k | k in db && IsAvatarOf(db, k, Key(Uploads, i)) ensures i in UploadReferences(db) {
      assert Key(Uploads, i).id == i;
    }
    if k, upload :| k in db && upload in db && IsAvatarOf(db, k, upload) && upload.id == i {
      assert upload == Key(Uploads, i);
    } else if k :| k in db && i in BlockImages(db[k].body) {
    }
  }

  /** What every reference is, for an upload that is there. */
  lemma NamedMeansReferenced(db: Database, i: Id, path: Path)
    requires Key(Uploads, i) in db && db[Key(Uploads, i)].body.UploadBody?
    requires db[Key(Uploads, i)].body.stored.path == path
    ensures i in UploadReferences(db) <==> exists k | k in db :: NamesUpload(db[k], i, path)
  {
    ReferencedExactly(db, i);
    if i in UploadReferences(db) {
      var k :| k in db && NamesUpload(db[k], i, path);
    }
  }

  /** What is queued: exactly the files of uploads that some row named before and none names after,
      with the client's own export archives. */
  lemma QueuedObjectsExact(db: Database, client: Id, o: StoredObject)
    requires Valid(db)
    ensures o in ReleasedObjects(db, client) <==>
      || (exists i: Id | Key(Uploads, i) in db ::
            && db[Key(Uploads, i)].body == UploadBody(o)
            && (exists k | k in db :: NamesUpload(db[k], i, o.path))
            && forall k | k in Erased(db, client) :: !NamesUpload(Erased(db, client)[k], i, o.path))
      || (exists k | k in db :: k.table.DataExports? && ExportOf(db[k], client)
            && db[k].body.ExportBody? && db[k].body.archive == Some(o.path) && o.bucket.ExportsBucket?)
  {
    QueuedFiles(db, client, o);
    QueuedArchives(db, client, o);
  }

  lemma QueuedFiles(db: Database, client: Id, o: StoredObject)
    requires Valid(db)
    ensures o in ObjectsOf(db, ReleasedUploads(db, WithoutDoomed(db, client))) <==>
      exists i: Id | Key(Uploads, i) in db ::
        && db[Key(Uploads, i)].body == UploadBody(o)
        && (exists k | k in db :: NamesUpload(db[k], i, o.path))
        && forall k | k in Erased(db, client) :: !NamesUpload(Erased(db, client)[k], i, o.path)
  {
    if o in ObjectsOf(db, ReleasedUploads(db, WithoutDoomed(db, client))) {
      var k :| k in ReleasedUploads(db, WithoutDoomed(db, client)) && k in db && db[k].body == UploadBody(o);
      assert Key(Uploads, k.id) == k;
      UploadGoesExactly(db, client, k.id, o);
    }
    forall i: Id | Key(Uploads, i) in db && db[Key(Uploads, i)].body == UploadBody(o)
                   && Key(Uploads, i) !in Erased(db, client)
      ensures o in ObjectsOf(db, ReleasedUploads(db, WithoutDoomed(db, client)))
    {
      UploadGoesExactly(db, client, i, o);
    }
    forall i: Id | Key(Uploads, i) in db && db[Key(Uploads, i)].body == UploadBody(o)
      ensures Key(Uploads, i) !in Erased(db, client) <==>
        && (exists k | k in db :: NamesUpload(db[k], i, o.path))
        && forall k | k in Erased(db, client) :: !NamesUpload(Erased(db, client)[k], i, o.path)
    {
      UploadGoesExactly(db, client, i, o);
    }
  }

  /** An export row carries its client, or none for an export of the whole instance. */
  predicate ExportOf(row: Row, client: Id) {
    ClientId in row.refs && row.refs[ClientId] == client
  }

  lemma ExportBelongs(db: Database, client: Id, k: Key)
    requires ReferencesHold(db) && k in db && k.table.DataExports?
    ensures Belongs(db, client, k) <==> ExportOf(db[k], client)
  {
    if ClientId in db[k].refs {
      assert Target(k, db[k], ClientId) == Some(Key(Clients, db[k].refs[ClientId]));
    }
  }

  lemma QueuedArchives(db: Database, client: Id, o: StoredObject)
    requires ReferencesHold(db)
    ensures o in ArchivesOf(db, DoomedIn(db, client, DataExports)) <==>
      exists k | k in db :: k.table.DataExports? && ExportOf(db[k], client)
        && db[k].body.ExportBody? && db[k].body.archive == Some(o.path) && o.bucket.ExportsBucket?
  {
    if o in ArchivesOf(db, DoomedIn(db, client, DataExports)) {
      var k :| k in DoomedIn(db, client, DataExports) && db[k].body.ExportBody?
               && db[k].body.archive == Some(o.path);
      ExportBelongs(db, client, k);
    }
    forall k | k in db && k.table.DataExports? && ExportOf(db[k], client) && db[k].body.ExportBody?
               && db[k].body.archive == Some(o.path) && o.bucket.ExportsBucket?
      ensures o in ArchivesOf(db, DoomedIn(db, client, DataExports))
    {
      ExportBelongs(db, client, k);
      assert k in DoomedIn(db, client, DataExports);
    }
  }

  /** An upload's row goes exactly when some row named it before and none that stays does. */
  lemma UploadGoesExactly(db: Database, client: Id, i: Id, o: StoredObject)
    requires Valid(db) && Key(Uploads, i) in db && db[Key(Uploads, i)].body == UploadBody(o)
    ensures Key(Uploads, i) in ReleasedUploads(db, WithoutDoomed(db, client)) <==>
            Key(Uploads, i) !in Erased(db, client)
    ensures Key(Uploads, i) !in Erased(db, client) <==>
      && (exists k | k in db :: NamesUpload(db[k], i, o.path))
      && forall k | k in Erased(db, client) :: !NamesUpload(Erased(db, client)[k], i, o.path)
  {
    var after := WithoutDoomed(db, client);
    UploadsBelongToNobody(db, client, Key(Uploads, i));
    NamedMeansReferenced(db, i, o.path);
    NamedMeansReferenced(after, i, o.path);
    NamedByTheRest(db, client, i, o.path);
  }

  /** The release takes only uploads that nothing names, so what it leaves names what it named. */
  lemma NamedByTheRest(db: Database, client: Id, i: Id, path: Path)
    requires Valid(db)
    ensures (exists k | k in WithoutDoomed(db, client) :: NamesUpload(WithoutDoomed(db, client)[k], i, path)) <==>
            (exists k | k in Erased(db, client) :: NamesUpload(Erased(db, client)[k], i, path))
  {
    forall k | k in WithoutDoomed(db, client) && NamesUpload(WithoutDoomed(db, client)[k], i, path)
      ensures k in Erased(db, client) && NamesUpload(Erased(db, client)[k], i, path)
    {
      NamingRowStays(db, client, k, i, path);
    }
  }

  lemma NamingRowStays(db: Database, client: Id, k: Key, i: Id, path: Path)
    requires Valid(db) && k in WithoutDoomed(db, client) && NamesUpload(WithoutDoomed(db, client)[k], i, path)
    ensures k in Erased(db, client) && NamesUpload(Erased(db, client)[k], i, path)
  {
    assert RowOk(k.table, db[k]);
    assert !k.table.Uploads?;
    ReleasedUploadsUnnamed(db, client, k);
    assert Erased(db, client)[k].refs == WithoutDoomed(db, client)[k].refs;
  }

  lemma UploadsBelongToNobody(db: Database, client: Id, k: Key)
    requires k in db && k.table.Uploads?
    ensures !Doomed(db, client, k)
  {
  }

  /** No queued object is the file of an upload row that survives. */
  lemma SurvivingFilesNotQueued(db: Database, client: Id, k: Key)
    requires Valid(db)
    requires k in Erased(db, client) && k.table.Uploads? && db[k].body.UploadBody?
    ensures db[k].body.stored !in ReleasedObjects(db, client)
  {
    var released := ReleasedUploads(db, WithoutDoomed(db, client));
    assert RowOk(k.table, db[k]);
    forall other | other in released && db[other].body.UploadBody?
      ensures db[other].body.stored != db[k].body.stored
    {
      assert IndexEntries(Uploads, db[k]) == {UploadPath(db[k].body.stored.path)};
      assert IndexEntries(Uploads, db[other]) == {UploadPath(db[other].body.stored.path)};
    }
  }
}
