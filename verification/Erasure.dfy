/** The erasure transaction as the code runs it: the reads, the refusal, fifteen DELETE statements in
    their order, and the release of the files nothing names any more. */
module Erasure {
  import opened Wrappers
  import opened Schema
  import opened ErasureSpec
  import opened ErasureSteps

  // The predicates the reads and deletes are built from.

  function ProjectIdsOf(db: Database, client: Id): set<Id> {
    set k | k in db && k.table.Projects? && ClientId in db[k].refs && db[k].refs[ClientId] == client :: k.id
  }

  predicate BelongsToClient(row: Row, client: Id, projectIds: set<Id>) {
    || (ClientId in row.refs && row.refs[ClientId] == client)
    || (ProjectId in row.refs && row.refs[ProjectId] in projectIds)
  }

  function ClientRows(db: Database, t: Table, client: Id, projectIds: set<Id>): set<Key> {
    set k | k in db && k.table == t && BelongsToClient(db[k], client, projectIds)
  }

  function IdsOf(rows: set<Key>): set<Id> {
    set k | k in rows :: k.id
  }

  function RowsById(db: Database, t: Table, ids: set<Id>): set<Key> {
    set k | k in db && k.table == t && k.id in ids
  }

  function RowsNaming(db: Database, t: Table, c: Column, ids: set<Id>): set<Key> {
    set k | k in db && k.table == t && c in db[k].refs && db[k].refs[c] in ids
  }

  predicate About(body: Body, t: Table, ids: set<Id>) {
    body.LogBody? && body.about.Some? && body.about.value.table == t && body.about.value.id in ids
  }

  function ActivityOf(db: Database, client: Id, projectIds: set<Id>, invoiceIds: set<Id>,
                      proposalIds: set<Id>, contractIds: set<Id>): set<Key> {
    set k | k in db && k.table.ActivityLogs? &&
            (About(db[k].body, Clients, {client}) || About(db[k].body, Projects, projectIds) ||
             About(db[k].body, Invoices, invoiceIds) || About(db[k].body, Proposals, proposalIds) ||
             About(db[k].body, Contracts, contractIds))
  }

  function EmailsOf(db: Database, invoiceIds: set<Id>, proposalIds: set<Id>, contractIds: set<Id>): set<Key> {
    set k | k in db && k.table.EmailLogs? &&
            (About(db[k].body, Invoices, invoiceIds) || About(db[k].body, Proposals, proposalIds) ||
             About(db[k].body, Contracts, contractIds))
  }

  // The code's predicates select exactly the rows that belong to the client.

  lemma ProjectsSelected(db: Database, client: Id)
    requires Valid(db)
    ensures ProjectIdsOf(db, client) == IdsOf(DoomedIn(db, client, Projects))
    ensures RowsById(db, Projects, ProjectIdsOf(db, client)) == DoomedIn(db, client, Projects)
    ensures forall k | k in db && k.table.Projects? ::
      Belongs(db, client, k) <==> db[k].refs[ClientId] == client
  {
    forall k | k in db && k.table.Projects?
      ensures Belongs(db, client, k) <==> db[k].refs[ClientId] == client
    {
      assert RowOk(Projects, db[k]);
      assert Target(k, db[k], ClientId) == Some(Key(Clients, db[k].refs[ClientId]));
    }
  }

  predicate IsClientTable(t: Table) {
    t in {Proposals, Invoices, Contracts, Expenses, RecurringInvoices}
  }

  lemma OwningColumns(t: Table, c: Column)
    requires ForeignKeyOf(t, c).Some? && Owning(t, c)
    ensures IsClientTable(t) ==> c.ClientId? || c.ProjectId?
    ensures t in {Payments, CreditNotes} ==> c.InvoiceId?
    ensures t in {Tasks, TimeEntries} ==> c.ProjectId?
    ensures t in {ClientContacts, DataExports} ==> c.ClientId?
  {
  }

  lemma OwnedRowBelongs(db: Database, client: Id, k: Key, c: Column)
    requires k in db && c in db[k].refs && Owning(k.table, c) && Target(k, db[k], c).Some?
    requires Target(k, db[k], c).value in db && Belongs(db, client, Target(k, db[k], c).value)
    ensures Belongs(db, client, k)
  {
  }

  lemma ClientRowSelected(db: Database, client: Id, k: Key)
    requires Valid(db) && k in db && IsClientTable(k.table)
    ensures BelongsToClient(db[k], client, ProjectIdsOf(db, client)) <==> Belongs(db, client, k)
  {
    ProjectsSelected(db, client);
    if BelongsToClient(db[k], client, ProjectIdsOf(db, client)) {
      var c := if ClientId in db[k].refs && db[k].refs[ClientId] == client then ClientId else ProjectId;
      OwnedRowBelongs(db, client, k, c);
    }
    if Belongs(db, client, k) {
      BelongingRowSelected(db, client, k);
    }
  }

  lemma BelongingRowSelected(db: Database, client: Id, k: Key)
    requires k in db && IsClientTable(k.table) && Belongs(db, client, k)
    ensures BelongsToClient(db[k], client, IdsOf(DoomedIn(db, client, Projects)))
  {
    var c := OwningParent(db, client, k);
    OwningColumns(k.table, c);
    var parent := Target(k, db[k], c).value;
    if c.ProjectId? {
      assert parent in DoomedIn(db, client, Projects);
    } else {
      OnlyTheClient(db, client, parent);
    }
  }

  lemma OnlyTheClient(db: Database, client: Id, k: Key)
    requires k in db && k.table.Clients? && Belongs(db, client, k)
    ensures k == Key(Clients, client)
  {
  }

  lemma ClientRowsSelected(db: Database, client: Id, t: Table)
    requires Valid(db) && IsClientTable(t)
    ensures ClientRows(db, t, client, ProjectIdsOf(db, client)) == DoomedIn(db, client, t)
  {
    forall k | k in db && k.table == t
      ensures BelongsToClient(db[k], client, ProjectIdsOf(db, client)) <==> Doomed(db, client, k)
    {
      ClientRowSelected(db, client, k);
    }
  }

  /** A table owned through one column only: payments, credit notes, tasks, time entries, contacts and
      exports. */
  predicate OwnedThrough(t: Table, c: Column, parent: Table) {
    || (t in {Payments, CreditNotes} && c.InvoiceId? && parent.Invoices?)
    || (t in {Tasks, TimeEntries} && c.ProjectId? && parent.Projects?)
    || (t in {ClientContacts, DataExports} && c.ClientId? && parent.Clients?)
  }

  lemma ChildRowSelected(db: Database, client: Id, parent: Table, c: Column, k: Key)
    requires k in db && OwnedThrough(k.table, c, parent)
    ensures (c in db[k].refs && db[k].refs[c] in IdsOf(DoomedIn(db, client, parent))) <==>
            Belongs(db, client, k)
  {
    OwnedThroughIsAKey(k.table, c, parent);
    if c in db[k].refs && db[k].refs[c] in IdsOf(DoomedIn(db, client, parent)) {
      assert Target(k, db[k], c) == Some(Key(parent, db[k].refs[c]));
      assert Key(parent, db[k].refs[c]) in DoomedIn(db, client, parent);
      OnlyLogsAreLogged(db, client, Key(parent, db[k].refs[c]));
      OwnedRowBelongs(db, client, k, c);
    }
    if Belongs(db, client, k) {
      var owner := OwningParent(db, client, k);
      OwningColumns(k.table, owner);
      assert owner == c;
      assert Target(k, db[k], c).value in DoomedIn(db, client, parent);
    }
  }

  lemma OnlyLogsAreLogged(db: Database, client: Id, k: Key)
    requires k in db && Doomed(db, client, k) && !IsLog(k.table)
    ensures Belongs(db, client, k)
  {
  }

  /** The key column of a row not yet reached is as it was before the transaction. */
  lemma ReferenceStillThere(
    db: Database, client: Id, gone: set<Key>, cleared: set<Table>, k: Key, c: Column)
    requires Progress(db, client, gone, cleared) && k in Without(db, gone)
    requires ForeignKeyOf(k.table, c).Some?
    requires ForeignKeyOf(k.table, c).value.parent !in cleared
    requires !CascadedOnly(ForeignKeyOf(k.table, c).value.parent)
    ensures c in Without(db, gone)[k].refs <==> c in db[k].refs
    ensures c in db[k].refs ==> Without(db, gone)[k].refs[c] == db[k].refs[c]
  {
  }

  lemma ChildRowStillSelected(
    db: Database, client: Id, gone: set<Key>, cleared: set<Table>, parent: Table, c: Column, k: Key)
    requires Valid(db) && Progress(db, client, gone, cleared) && k in Without(db, gone)
    requires OwnedThrough(k.table, c, parent) && parent !in cleared
    ensures
      var row := Without(db, gone)[k];
      (c in row.refs && row.refs[c] in IdsOf(DoomedIn(db, client, parent))) <==> Doomed(db, client, k)
  {
    OwnedThroughIsAKey(k.table, c, parent);
    ReferenceStillThere(db, client, gone, cleared, k, c);
    ChildRowSelected(db, client, parent, c, k);
  }

  lemma OwnedThroughIsAKey(t: Table, c: Column, parent: Table)
    requires OwnedThrough(t, c, parent)
    ensures ForeignKeyOf(t, c).Some? && ForeignKeyOf(t, c).value.parent == parent
    ensures !CascadedOnly(parent) && !CascadedOnly(t) && !IsLog(t) && !IsLog(parent)
  {
  }

  lemma ChildRowsSelected(
    db: Database, client: Id, gone: set<Key>, cleared: set<Table>, t: Table, c: Column, parent: Table)
    requires Valid(db) && Progress(db, client, gone, cleared)
    requires OwnedThrough(t, c, parent) && t !in cleared && parent !in cleared
    ensures
      RowsNaming(Without(db, gone), t, c, IdsOf(DoomedIn(db, client, parent))) ==
      DoomedIn(db, client, t)
  {
    var ids := IdsOf(DoomedIn(db, client, parent));
    var now := Without(db, gone);
    StatementFindsAllRows(db, client, gone, cleared, t);
    forall k | k in now && k.table == t
      ensures k in RowsNaming(now, t, c, ids) <==> k in DoomedIn(db, client, t)
    {
      ChildRowStillSelected(db, client, gone, cleared, parent, c, k);
    }
  }

  lemma ClientRowsStillSelected(
    db: Database, client: Id, gone: set<Key>, cleared: set<Table>, t: Table)
    requires Valid(db) && Progress(db, client, gone, cleared)
    requires IsClientTable(t) && t !in cleared && Clients !in cleared && Projects !in cleared
    ensures ClientRows(Without(db, gone), t, client, ProjectIdsOf(db, client)) == DoomedIn(db, client, t)
  {
    StatementFindsAllRows(db, client, gone, cleared, t);
    var projectIds := ProjectIdsOf(db, client);
    forall k | k in Without(db, gone) && k.table == t
      ensures BelongsToClient(Without(db, gone)[k], client, projectIds) <==> Doomed(db, client, k)
    {
      ClientRowUnchanged(db, client, gone, cleared, k, projectIds);
      ClientRowSelected(db, client, k);
    }
  }

  lemma ClientTableKeys(t: Table)
    requires IsClientTable(t)
    ensures ForeignKeyOf(t, ClientId).Some? && ForeignKeyOf(t, ClientId).value.parent.Clients?
    ensures ForeignKeyOf(t, ProjectId).Some? && ForeignKeyOf(t, ProjectId).value.parent.Projects?
    ensures !CascadedOnly(Clients) && !CascadedOnly(Projects)
  {
  }

  lemma ClientRowUnchanged(
    db: Database, client: Id, gone: set<Key>, cleared: set<Table>, k: Key, projectIds: set<Id>)
    requires Progress(db, client, gone, cleared) && k in Without(db, gone)
    requires IsClientTable(k.table) && Clients !in cleared && Projects !in cleared
    ensures BelongsToClient(Without(db, gone)[k], client, projectIds) <==>
            BelongsToClient(db[k], client, projectIds)
  {
    ClientTableKeys(k.table);
    ReferenceStillThere(db, client, gone, cleared, k, ClientId);
    ReferenceStillThere(db, client, gone, cleared, k, ProjectId);
  }

  lemma RowsByIdSelected(
    db: Database, client: Id, gone: set<Key>, cleared: set<Table>, t: Table)
    requires Progress(db, client, gone, cleared) && t !in cleared && !CascadedOnly(t)
    ensures RowsById(Without(db, gone), t, IdsOf(DoomedIn(db, client, t))) == DoomedIn(db, client, t)
  {
  }

  lemma DoomedIds(db: Database, client: Id, t: Table, id: Id)
    requires !IsLog(t)
    ensures id in IdsOf(DoomedIn(db, client, t)) <==> Key(t, id) in db && Belongs(db, client, Key(t, id))
  {
  }

  /** A log row is selected exactly when the entry is about an erased record of a listed kind. */
  lemma LogSelected(db: Database, client: Id, body: Body, log: Table, k: Key)
    requires k in db && k.table == log && IsLog(log) && Key(Clients, client) in db
    requires body == db[k].body
    ensures Doomed(db, client, k) <==>
      || About(body, Invoices, IdsOf(DoomedIn(db, client, Invoices)))
      || About(body, Proposals, IdsOf(DoomedIn(db, client, Proposals)))
      || About(body, Contracts, IdsOf(DoomedIn(db, client, Contracts)))
      || (log.ActivityLogs? && (About(body, Clients, {client}) ||
            About(body, Projects, IdsOf(DoomedIn(db, client, Projects)))))
  {
    if body.LogBody? && body.about.Some? && !IsLog(body.about.value.table) {
      var about := body.about.value;
      DoomedIds(db, client, about.table, about.id);
      if about.table.Clients? && about in db && Belongs(db, client, about) {
        OnlyTheClient(db, client, about);
      }
    }
  }

  lemma LogsSelected(
    db: Database, client: Id, gone: set<Key>, cleared: set<Table>, projectIds: set<Id>,
    invoiceIds: set<Id>, proposalIds: set<Id>, contractIds: set<Id>)
    requires Key(Clients, client) in db && Progress(db, client, gone, cleared)
    requires projectIds == IdsOf(DoomedIn(db, client, Projects))
    requires invoiceIds == IdsOf(DoomedIn(db, client, Invoices))
    requires proposalIds == IdsOf(DoomedIn(db, client, Proposals))
    requires contractIds == IdsOf(DoomedIn(db, client, Contracts))
    ensures ActivityLogs !in cleared ==>
      ActivityOf(Without(db, gone), client, projectIds, invoiceIds, proposalIds, contractIds) ==
      DoomedIn(db, client, ActivityLogs)
    ensures EmailLogs !in cleared ==>
      EmailsOf(Without(db, gone), invoiceIds, proposalIds, contractIds) == DoomedIn(db, client, EmailLogs)
  {
    forall k | k in db && IsLog(k.table) && k.table !in cleared
      ensures k in Without(db, gone) && Without(db, gone)[k].body == db[k].body
    {
    }
    forall k | k in db && IsLog(k.table) {
      LogSelected(db, client, db[k].body, k.table, k);
    }
  }

  lemma SignatureBlocks(db: Database, client: Id, s: Key)
    requires s in db && s.table.ContractSignatures? && Belongs(db, client, s)
    ensures BlockingContracts(db, client) != {}
  {
    var c := OwningParent(db, client, s);
    SignatureColumns(c);
    var contract := Target(s, db[s], c).value;
    assert Countersigned(db, contract);
    assert contract in BlockingContracts(db, client);
  }

  lemma SignatureColumns(c: Column)
    requires ForeignKeyOf(ContractSignatures, c).Some? && Owning(ContractSignatures, c)
    ensures c.ContractId?
  {
  }

  lemma UnblockedHasNoSignatures(db: Database, client: Id)
    requires BlockingContracts(db, client) == {}
    ensures NoDoomedSignatures(db, client)
  {
    forall s | s in db && s.table.ContractSignatures? ensures !Doomed(db, client, s) {
      if Belongs(db, client, s) {
        SignatureBlocks(db, client, s);
      }
    }
  }
}
