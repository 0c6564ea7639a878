/** What an erasure leaves, read off the columns table by table, with no mention of what belongs to a
    client, what is doomed or what counts as a reference. */
module ErasureOutcome {
  import opened Wrappers
  import opened Schema
  import opened ErasureSpec
  import opened ErasureSteps
  import opened Erasure

  /** A row other than an upload's stays exactly when it is not doomed. */
  lemma StaysUnlessDoomed(db: Database, client: Id, k: Key)
    requires k in db && !k.table.Uploads?
    ensures k in Erased(db, client) <==> !Doomed(db, client, k)
    ensures !IsLog(k.table) ==> (k in Erased(db, client) <==> !Belongs(db, client, k))
  {
  }

  /** A row with one owning column belongs to the client exactly when the row it names does. */
  lemma OneOwner(db: Database, client: Id, k: Key, c: Column, parent: Table)
    requires ReferencesHold(db) && k in db && !k.table.Clients? && !k.table.Uploads? && !IsLog(k.table)
    requires c in db[k].refs && Owning(k.table, c) && Target(k, db[k], c) == Some(Key(parent, db[k].refs[c]))
    requires forall d | d in db[k].refs && Owning(k.table, d) :: d == c
    requires !parent.Uploads? && !IsLog(parent)
    ensures k in Erased(db, client) <==> Key(parent, db[k].refs[c]) in Erased(db, client)
  {
    var owner := Key(parent, db[k].refs[c]);
    StaysUnlessDoomed(db, client, k);
    StaysUnlessDoomed(db, client, owner);
    if Belongs(db, client, k) {
      var d := OwningParent(db, client, k);
    }
    if Belongs(db, client, owner) {
      OwnedRowBelongs(db, client, k, c);
    }
  }

  lemma ClientStays(db: Database, client: Id, k: Key)
    requires k in db && k.table.Clients?
    ensures k in Erased(db, client) <==> k.id != client
  {
    StaysUnlessDoomed(db, client, k);
    if Belongs(db, client, k) {
      OnlyTheClient(db, client, k);
    }
  }

  lemma OwnerlessStays(db: Database, client: Id, k: Key)
    requires ReferencesHold(db) && k in db && !k.table.Clients? && !k.table.Uploads? && !IsLog(k.table)
    requires forall d | d in db[k].refs :: !Owning(k.table, d)
    ensures k in Erased(db, client)
  {
    StaysUnlessDoomed(db, client, k);
  }

  /** The tables with a client column of their own, attachments aside: a project's rows carry its client
      too. */
  predicate HasClient(t: Table) {
    t in {Projects, ClientContacts, DataExports, RecurringInvoices, Proposals, Invoices, Contracts, Expenses}
  }

  lemma ClientTableStays(db: Database, client: Id, k: Key)
    requires Valid(db) && k in db && HasClient(k.table)
    ensures k in Erased(db, client) <==> !(ClientId in db[k].refs && db[k].refs[ClientId] == client)
  {
    ClientTableOwned(db, client, k);
    StaysUnlessDoomed(db, client, k);
  }

  lemma ClientTableOwned(db: Database, client: Id, k: Key)
    requires Valid(db) && k in db && HasClient(k.table)
    ensures Belongs(db, client, k) <==> ClientId in db[k].refs && db[k].refs[ClientId] == client
  {
    if ProjectId in db[k].refs {
      ProjectCarriesClient(db, client, k);
    }
    ClientTableBelongs(db, client, k);
  }

  lemma ProjectCarriesClient(db: Database, client: Id, k: Key)
    requires Valid(db) && k in db && HasClient(k.table) && ProjectId in db[k].refs
    ensures ClientId in db[k].refs
    ensures
      var p := Key(Projects, db[k].refs[ProjectId]);
      p in db && (Belongs(db, client, p) <==> db[k].refs[ClientId] == client)
  {
    var p := Key(Projects, db[k].refs[ProjectId]);
    assert RowOk(k.table, db[k]) && Target(k, db[k], ProjectId).Some?;
    assert Target(k, db[k], ProjectId) == Some(p);
    ProjectsSelected(db, client);
  }

  lemma ClientTableBelongs(db: Database, client: Id, k: Key)
    requires ReferencesHold(db) && k in db && HasClient(k.table)
    requires ProjectId in db[k].refs ==>
      ClientId in db[k].refs &&
      var p := Key(Projects, db[k].refs[ProjectId]);
      p in db && (Belongs(db, client, p) <==> db[k].refs[ClientId] == client)
    ensures Belongs(db, client, k) <==> ClientId in db[k].refs && db[k].refs[ClientId] == client
  {
    if Belongs(db, client, k) {
      var c := OwningParent(db, client, k);
      HasClientColumns(k.table, c);
      if c.ClientId? {
        OnlyTheClient(db, client, Target(k, db[k], c).value);
      }
    } else if ClientId in db[k].refs && db[k].refs[ClientId] == client {
      assert Target(k, db[k], ClientId) == Some(Key(Clients, client));
      OwnedRowBelongs(db, client, k, ClientId);
    }
  }

  lemma HasClientColumns(t: Table, c: Column)
    requires HasClient(t) && Owning(t, c) && ForeignKeyOf(t, c).Some?
    ensures c.ClientId? || (c.ProjectId? && ForeignKeyOf(t, c).value.parent.Projects?)
  {
  }

  /** The one column through which such a row belongs to another. */
  predicate OwnedBy(t: Table, c: Column, parent: Table) {
    || (t in {Tasks, TimeEntries} && c.ProjectId? && parent.Projects?)
    || (t in {Payments, CreditNotes, LineItems, Attachments} && c.InvoiceId? && parent.Invoices?)
    || (t in {ProposalOtps, LineItems} && c.ProposalId? && parent.Proposals?)
    || (t.LineItems? && c.CreditNoteId? && parent.CreditNotes?)
    || (t.ContractSignatures? && c.ContractId? && parent.Contracts?)
    || (t.Attachments? && c.ClientId? && parent.Clients?)
    || (t.Attachments? && c.ProjectId? && parent.Projects?)
    || (t.Attachments? && c.ExpenseId? && parent.Expenses?)
  }

  lemma OwnedByColumn(t: Table, c: Column, parent: Table)
    requires OwnedBy(t, c, parent)
    ensures Owning(t, c) && ForeignKeyOf(t, c).Some? && ForeignKeyOf(t, c).value.parent == parent
    ensures !HasClient(t) && !t.Clients? && !t.Uploads? && !IsLog(t) && !parent.Uploads? && !IsLog(parent)
  {
  }

  lemma OwnersAreListed(t: Table, c: Column)
    requires Owning(t, c) && ForeignKeyOf(t, c).Some? && !HasClient(t)
    ensures OwnedBy(t, c, ForeignKeyOf(t, c).value.parent)
  {
  }

  lemma OneOwnerEach(t: Table, row: Row, c: Column, d: Column)
    requires RowOk(t, row) && c in row.refs && d in row.refs
    requires (exists p :: OwnedBy(t, c, p)) && exists p :: OwnedBy(t, d, p)
    ensures c == d
  {
  }

  lemma OwnerIsOne(db: Database, k: Key, c: Column, parent: Table, d: Column)
    requires ReferencesHold(db) && ChecksHold(db) && k in db && OwnedBy(k.table, c, parent) && c in db[k].refs
    requires d in db[k].refs && Owning(k.table, d)
    ensures d == c
  {
    assert RowOk(k.table, db[k]) && Target(k, db[k], d).Some?;
    OwnedByColumn(k.table, c, parent);
    OwnersAreListed(k.table, d);
    OneOwnerEach(k.table, db[k], c, d);
  }

  /** A row of those tables names exactly one owner, and stays exactly when that owner does. */
  lemma OwnedRowStays(db: Database, client: Id, k: Key, c: Column, parent: Table)
    requires Valid(db) && k in db && OwnedBy(k.table, c, parent) && c in db[k].refs
    ensures k in Erased(db, client) <==> Key(parent, db[k].refs[c]) in Erased(db, client)
  {
    OwnedByColumn(k.table, c, parent);
    assert Target(k, db[k], c) == Some(Key(parent, db[k].refs[c]));
    forall d | d in db[k].refs && Owning(k.table, d) ensures d == c {
      OwnerIsOne(db, k, c, parent, d);
    }
    OneOwner(db, client, k, c, parent);
  }

  /** A log entry goes exactly when it is about a record that goes, of the kinds its log is erased for. */
  lemma LogEntryStays(db: Database, client: Id, k: Key)
    requires Valid(db) && k in db && IsLog(k.table)
    ensures k !in Erased(db, client) <==>
      && db[k].body.LogBody? && db[k].body.about.Some?
      && var about := db[k].body.about.value;
         && about in db && about !in Erased(db, client)
         && (about.table in {Invoices, Proposals, Contracts}
             || (k.table.ActivityLogs? && about.table in {Clients, Projects}))
  {
    StaysUnlessDoomed(db, client, k);
    LogsBelongToNobody(db, client, k);
    if db[k].body.LogBody? && db[k].body.about.Some? && db[k].body.about.value in db {
      var about := db[k].body.about.value;
      if about.table in {Invoices, Proposals, Contracts, Clients, Projects} {
        StaysUnlessDoomed(db, client, about);
      }
    }
  }

  lemma LogsBelongToNobody(db: Database, client: Id, k: Key)
    requires k in db && IsLog(k.table)
    ensures !Belongs(db, client, k)
  {
  }

  lemma LineItemStays(db: Database, client: Id, k: Key)
    requires Valid(db) && k in db && k.table.LineItems?
    ensures
      var after, refs := Erased(db, client), db[k].refs;
      k in after <==>
        || (ProposalId in refs && Key(Proposals, refs[ProposalId]) in after)
        || (InvoiceId in refs && Key(Invoices, refs[InvoiceId]) in after)
        || (CreditNoteId in refs && Key(CreditNotes, refs[CreditNoteId]) in after)
  {
    assert RowOk(k.table, db[k]);
    if ProposalId in db[k].refs { OwnedRowStays(db, client, k, ProposalId, Proposals); }
    if InvoiceId in db[k].refs { OwnedRowStays(db, client, k, InvoiceId, Invoices); }
    if CreditNoteId in db[k].refs { OwnedRowStays(db, client, k, CreditNoteId, CreditNotes); }
  }

  lemma AttachmentStays(db: Database, client: Id, k: Key)
    requires Valid(db) && k in db && k.table.Attachments?
    ensures
      var after, refs := Erased(db, client), db[k].refs;
      k in after <==>
        || (ClientId in refs && Key(Clients, refs[ClientId]) in after)
        || (ProjectId in refs && Key(Projects, refs[ProjectId]) in after)
        || (InvoiceId in refs && Key(Invoices, refs[InvoiceId]) in after)
        || (ExpenseId in refs && Key(Expenses, refs[ExpenseId]) in after)
  {
    assert RowOk(k.table, db[k]);
    if ClientId in db[k].refs { OwnedRowStays(db, client, k, ClientId, Clients); }
    if ProjectId in db[k].refs { OwnedRowStays(db, client, k, ProjectId, Projects); }
    if InvoiceId in db[k].refs { OwnedRowStays(db, client, k, InvoiceId, Invoices); }
    if ExpenseId in db[k].refs { OwnedRowStays(db, client, k, ExpenseId, Expenses); }
  }

  lemma SingleOwnerStays(db: Database, client: Id, k: Key)
    requires Valid(db) && k in db
    requires k.table in {Tasks, TimeEntries, Payments, CreditNotes, ProposalOtps, ContractSignatures}
    ensures
      var c, parent := SingleOwner(k.table).0, SingleOwner(k.table).1;
      c in db[k].refs && (k in Erased(db, client) <==> Key(parent, db[k].refs[c]) in Erased(db, client))
  {
    assert RowOk(k.table, db[k]);
    OwnedRowStays(db, client, k, SingleOwner(k.table).0, SingleOwner(k.table).1);
  }

  function SingleOwner(t: Table): (Column, Table) {
    match t
    case Payments | CreditNotes => (InvoiceId, Invoices)
    case ProposalOtps => (ProposalId, Proposals)
    case ContractSignatures => (ContractId, Contracts)
    case _ => (ProjectId, Projects)
  }

  /** Which rows an erasure leaves, uploads aside, in terms of the columns alone. */
  lemma SurvivesExactly(db: Database, client: Id, k: Key)
    requires Valid(db) && k in db && !k.table.Uploads?
    ensures
      var after, row := Erased(db, client), db[k];
      k in after <==>
        match k.table
        case Clients => k.id != client
        case Templates | Users | Settings | Leads => true
        case Projects | ClientContacts | DataExports | RecurringInvoices
           | Proposals | Invoices | Contracts | Expenses =>
          !(ClientId in row.refs && row.refs[ClientId] == client)
        case Tasks | TimeEntries => ProjectId in row.refs && Key(Projects, row.refs[ProjectId]) in after
        case Payments | CreditNotes => InvoiceId in row.refs && Key(Invoices, row.refs[InvoiceId]) in after
        case ProposalOtps => ProposalId in row.refs && Key(Proposals, row.refs[ProposalId]) in after
        case ContractSignatures => ContractId in row.refs && Key(Contracts, row.refs[ContractId]) in after
        case LineItems =>
          || (ProposalId in row.refs && Key(Proposals, row.refs[ProposalId]) in after)
          || (InvoiceId in row.refs && Key(Invoices, row.refs[InvoiceId]) in after)
          || (CreditNoteId in row.refs && Key(CreditNotes, row.refs[CreditNoteId]) in after)
        case Attachments =>
          || (ClientId in row.refs && Key(Clients, row.refs[ClientId]) in after)
          || (ProjectId in row.refs && Key(Projects, row.refs[ProjectId]) in after)
          || (InvoiceId in row.refs && Key(Invoices, row.refs[InvoiceId]) in after)
          || (ExpenseId in row.refs && Key(Expenses, row.refs[ExpenseId]) in after)
        case ActivityLogs | EmailLogs =>
          !(&& row.body.LogBody? && row.body.about.Some?
            && row.body.about.value in db && row.body.about.value !in after
            && (row.body.about.value.table in {Invoices, Proposals, Contracts}
                || (k.table.ActivityLogs? && row.body.about.value.table in {Clients, Projects})))
  {
    if k.table.Clients? {
      ClientStays(db, client, k);
    } else if HasClient(k.table) {
      ClientTableStays(db, client, k);
    } else if IsLog(k.table) {
      LogEntryStays(db, client, k);
    } else if k.table in {Templates, Users, Settings, Leads} {
      forall d | d in db[k].refs ensures !Owning(k.table, d) {
        assert Target(k, db[k], d).Some?;
      }
      OwnerlessStays(db, client, k);
    } else if k.table.LineItems? {
      LineItemStays(db, client, k);
    } else if k.table.Attachments? {
      AttachmentStays(db, client, k);
    } else {
      SingleOwnerStays(db, client, k);
    }
  }

  /** What refuses an erasure: a contract of the client's that some signature names. */
  lemma BlockingExactly(db: Database, client: Id, k: Key)
    requires Valid(db)
    ensures k in BlockingContracts(db, client) <==>
      && k in db && k.table.Contracts? && ClientId in db[k].refs && db[k].refs[ClientId] == client
      && exists s | s in db ::
           s.table.ContractSignatures? && ContractId in db[s].refs && db[s].refs[ContractId] == k.id
  {
    if k in db && k.table.Contracts? {
      ClientTableOwned(db, client, k);
      CountersignedExactly(db, k);
    }
  }

  lemma CountersignedExactly(db: Database, k: Key)
    requires k.table.Contracts?
    ensures Countersigned(db, k) <==>
      exists s | s in db ::
        s.table.ContractSignatures? && ContractId in db[s].refs && db[s].refs[ContractId] == k.id
  {
    forall s | s in db && s.table.ContractSignatures?
      ensures Target(s, db[s], ContractId) == Some(k) <==>
              ContractId in db[s].refs && db[s].refs[ContractId] == k.id
    {
    }
  }

  /** A row that is left keeps all it holds but the columns that named a row which goes. */
  lemma SurvivorKept(db: Database, client: Id, k: Key)
    requires Valid(db) && k in Erased(db, client)
    ensures k in db
    ensures
      var row, after := db[k], Erased(db, client);
      && after[k].body == row.body && after[k].rest == row.rest
      && (forall c | c in after[k].refs :: c in row.refs && after[k].refs[c] == row.refs[c])
      && forall c | c in row.refs :: c in after[k].refs <==>
           Target(k, row, c).Some? && Target(k, row, c).value in after
  {
    forall c | c in db[k].refs
      ensures Target(k, db[k], c).Some?
      ensures c in Erased(db, client)[k].refs <==> Target(k, db[k], c).value in Erased(db, client)
    {
      ColumnKept(db, client, k, c);
    }
  }

  lemma ColumnKept(db: Database, client: Id, k: Key, c: Column)
    requires ReferencesHold(db) && k in Erased(db, client) && c in db[k].refs
    ensures Target(k, db[k], c).Some?
    ensures c in Erased(db, client)[k].refs <==> Target(k, db[k], c).value in Erased(db, client)
  {
    var target := Target(k, db[k], c).value;
    assert target in db;
    assert c in WithoutDoomed(db, client)[k].refs <==> target !in DoomedRows(db, client);
  }

  /** An upload that a row left behind names, in any of the ways there are, keeps its row and its file. */
  lemma NamedUploadStays(db: Database, client: Id, k: Key, i: Id, o: StoredObject)
    requires Valid(db) && k in Erased(db, client)
    requires Key(Uploads, i) in db && db[Key(Uploads, i)].body == UploadBody(o)
    requires
      var row := Erased(db, client)[k];
      || (UploadId in row.refs && row.refs[UploadId] == i)
      || (row.body.TemplateBody? && i in row.body.images)
      || (row.body.ContractBody? && i in row.body.images)
      || (row.body.UserBody? && row.body.avatar == Some(o.path))
    ensures Key(Uploads, i) in Erased(db, client) && o !in ReleasedObjects(db, client)
  {
    assert NamesUpload(Erased(db, client)[k], i, o.path);
    UploadGoesExactly(db, client, i, o);
    SurvivingFilesNotQueued(db, client, Key(Uploads, i));
  }

  /** One that some row named before and none that is left names goes, and its file is queued. */
  lemma UnnamedUploadGoes(db: Database, client: Id, named: Key, i: Id, o: StoredObject)
    requires Valid(db) && named in db
    requires Key(Uploads, i) in db && db[Key(Uploads, i)].body == UploadBody(o)
    requires
      var row := db[named];
      || (UploadId in row.refs && row.refs[UploadId] == i)
      || (row.body.TemplateBody? && i in row.body.images)
      || (row.body.ContractBody? && i in row.body.images)
      || (row.body.UserBody? && row.body.avatar == Some(o.path))
    requires forall k | k in Erased(db, client) ::
      var row := Erased(db, client)[k];
      && !(UploadId in row.refs && row.refs[UploadId] == i)
      && !(row.body.TemplateBody? && i in row.body.images)
      && !(row.body.ContractBody? && i in row.body.images)
      && !(row.body.UserBody? && row.body.avatar == Some(o.path))
    ensures Key(Uploads, i) !in Erased(db, client) && o in ReleasedObjects(db, client)
  {
    assert NamesUpload(db[named], i, o.path);
    UploadGoesExactly(db, client, i, o);
    QueuedObjectsExact(db, client, o);
  }

  /** One that no row named is left alone. */
  lemma UnnamedBeforeStays(db: Database, client: Id, i: Id, o: StoredObject)
    requires Valid(db) && Key(Uploads, i) in db && db[Key(Uploads, i)].body == UploadBody(o)
    requires forall k | k in db ::
      && !(UploadId in db[k].refs && db[k].refs[UploadId] == i)
      && !(db[k].body.TemplateBody? && i in db[k].body.images)
      && !(db[k].body.ContractBody? && i in db[k].body.images)
      && !(db[k].body.UserBody? && db[k].body.avatar == Some(o.path))
    ensures Key(Uploads, i) in Erased(db, client)
  {
    UploadGoesExactly(db, client, i, o);
  }
}
