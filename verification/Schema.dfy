/** The tables an erasure can reach, as finite maps of rows, and the constraints PostgreSQL keeps on
    them: foreign keys with their delete actions, the parent checks, the unique indexes and the
    project-and-client agreement rule. Columns no row deletion can touch are folded into `rest`. */
module Schema {
  import opened Wrappers

  type Id = nat

  type Path = string

  datatype Table =
    | Uploads | Templates | Users | Settings
    | Clients | ClientContacts | Leads | DataExports
    | Projects | Tasks | TimeEntries
    | Proposals | ProposalOtps | RecurringInvoices | Invoices | Payments | CreditNotes | LineItems
    | Expenses | Contracts | ContractSignatures | Attachments
    | ActivityLogs | EmailLogs

  datatype Key = Key(table: Table, id: Id)

  /** Every nullable or required column that holds another row's id. `UploadId` stands for the one
      upload column a table has: image, pdf, signed pdf, receipt, logo or attached file. */
  datatype Column =
    | ClientId | ProjectId | ProposalId | RecurringInvoiceId | InvoiceId | CreditNoteId | ExpenseId
    | ContractId | TaskId | InvoicedInId | SourceTimeEntryId | SourceExpenseId | ConvertedToClientId
    | UploadId

  datatype OnDelete = Cascade | SetNull

  datatype ForeignKey = ForeignKey(parent: Table, onDelete: OnDelete)

  datatype Bucket = PublicBucket | DocumentsBucket | ExportsBucket

  datatype StoredObject = StoredObject(bucket: Bucket, path: Path)

  /** What a table holds beyond its references, as far as constraints or the erasure look at it. */
  datatype Body =
    | Plain
    | UploadBody(stored: StoredObject)
    | ClientBody(name: string)
    | ContactBody(primary: bool, live: bool)
    | ContractBody(number: string, live: bool, images: set<Id>)
    | TemplateBody(images: set<Id>)
    | UserBody(avatar: Option<Path>)
    | ExportBody(instanceScope: bool, archive: Option<Path>)
    | LogBody(about: Option<Key>)

  /** A column absent from `refs` is NULL. */
  datatype Row = Row(refs: map<Column, Id>, body: Body, rest: nat)

  type Database = map<Key, Row>

  /** Tables ordered so that every foreign key points to a lower rank. */
  function Rank(t: Table): nat {
    match t
    case Uploads | Templates | Users | ActivityLogs | EmailLogs => 0
    case Settings | Clients => 1
    case ClientContacts | Leads | DataExports | Projects => 2
    case Tasks | Proposals | RecurringInvoices => 3
    case ProposalOtps | Invoices | Contracts => 4
    case Payments | CreditNotes | Expenses | TimeEntries | ContractSignatures => 5
    case LineItems | Attachments => 6
  }

  function ForeignKeyOf(t: Table, c: Column): (fk: Option<ForeignKey>)
    ensures fk.Some? ==> Rank(fk.value.parent) < Rank(t)
    ensures fk.Some? && c.ClientId? ==> fk.value.parent.Clients?
    ensures fk.Some? && c.ProjectId? ==> fk.value.parent.Projects?
  {
    match t
    case Clients | Settings =>
      if c.UploadId? then Some(ForeignKey(Uploads, SetNull)) else None
    case ClientContacts | Projects =>
      if c.ClientId? then Some(ForeignKey(Clients, Cascade)) else None
    case Leads =>
      if c.ConvertedToClientId? then Some(ForeignKey(Clients, SetNull)) else None
    case DataExports =>
      if c.ClientId? then Some(ForeignKey(Clients, SetNull)) else None
    case Tasks =>
      if c.ProjectId? then Some(ForeignKey(Projects, Cascade)) else None
    case TimeEntries => TimeEntryKeyOf(c)
    case Proposals => DocumentKeyOf(c)
    case Invoices =>
      if c.ProposalId? then Some(ForeignKey(Proposals, SetNull))
      else if c.RecurringInvoiceId? then Some(ForeignKey(RecurringInvoices, SetNull))
      else DocumentKeyOf(c)
    case Contracts =>
      if c.ProposalId? then Some(ForeignKey(Proposals, SetNull)) else DocumentKeyOf(c)
    case Expenses =>
      if c.InvoicedInId? then Some(ForeignKey(Invoices, SetNull)) else DocumentKeyOf(c)
    case RecurringInvoices =>
      if c.ClientId? then Some(ForeignKey(Clients, Cascade))
      else if c.ProjectId? then Some(ForeignKey(Projects, SetNull))
      else None
    case ProposalOtps =>
      if c.ProposalId? then Some(ForeignKey(Proposals, Cascade)) else None
    case Payments =>
      if c.InvoiceId? then Some(ForeignKey(Invoices, Cascade)) else None
    case CreditNotes =>
      if c.InvoiceId? then Some(ForeignKey(Invoices, Cascade))
      else if c.UploadId? then Some(ForeignKey(Uploads, SetNull))
      else None
    case LineItems => LineItemKeyOf(c)
    case ContractSignatures =>
      if c.ContractId? then Some(ForeignKey(Contracts, Cascade))
      else if c.UploadId? then Some(ForeignKey(Uploads, SetNull))
      else None
    case Attachments => AttachmentKeyOf(c)
    case Uploads | Templates | Users | ActivityLogs | EmailLogs => None
  }

  /** The client, composite project and upload references of proposals, invoices, contracts and
      expenses. */
  function DocumentKeyOf(c: Column): (fk: Option<ForeignKey>)
    ensures fk.Some? ==> Rank(fk.value.parent) < 3
    ensures fk.Some? && c.ClientId? ==> fk.value.parent.Clients?
    ensures fk.Some? && c.ProjectId? ==> fk.value.parent.Projects?
  {
    if c.ClientId? then Some(ForeignKey(Clients, SetNull))
    else if c.ProjectId? then Some(ForeignKey(Projects, SetNull))
    else if c.UploadId? then Some(ForeignKey(Uploads, SetNull))
    else None
  }

  function TimeEntryKeyOf(c: Column): (fk: Option<ForeignKey>)
    ensures fk.Some? ==> Rank(fk.value.parent) < 5 && !c.ClientId?
    ensures fk.Some? && c.ProjectId? ==> fk.value.parent.Projects?
  {
    if c.ProjectId? then Some(ForeignKey(Projects, Cascade))
    else if c.TaskId? then Some(ForeignKey(Tasks, SetNull))
    else if c.InvoicedInId? then Some(ForeignKey(Invoices, SetNull))
    else None
  }

  function LineItemKeyOf(c: Column): (fk: Option<ForeignKey>)
    ensures fk.Some? ==> Rank(fk.value.parent) < 6 && !c.ClientId? && !c.ProjectId?
  {
    if c.ProposalId? then Some(ForeignKey(Proposals, Cascade))
    else if c.InvoiceId? then Some(ForeignKey(Invoices, Cascade))
    else if c.CreditNoteId? then Some(ForeignKey(CreditNotes, Cascade))
    else if c.SourceTimeEntryId? then Some(ForeignKey(TimeEntries, SetNull))
    else if c.SourceExpenseId? then Some(ForeignKey(Expenses, SetNull))
    else None
  }

  function AttachmentKeyOf(c: Column): (fk: Option<ForeignKey>)
    ensures fk.Some? ==> Rank(fk.value.parent) < 6
    ensures fk.Some? && c.ClientId? ==> fk.value.parent.Clients?
    ensures fk.Some? && c.ProjectId? ==> fk.value.parent.Projects?
  {
    if c.ClientId? then Some(ForeignKey(Clients, Cascade))
    else if c.ProjectId? then Some(ForeignKey(Projects, Cascade))
    else if c.InvoiceId? then Some(ForeignKey(Invoices, Cascade))
    else if c.ExpenseId? then Some(ForeignKey(Expenses, Cascade))
    else if c.UploadId? then Some(ForeignKey(Uploads, Cascade))
    else None
  }

  /** The same keys column by column: the tables that have the column, the table it names, and the tables
      that go with the row it names. */
  function ColumnOf(c: Column): (set<Table>, Table, set<Table>) {
    match c
    case ClientId =>
      ({ClientContacts, Projects, DataExports, RecurringInvoices, Proposals, Invoices, Contracts, Expenses,
        Attachments}, Clients, {ClientContacts, Projects, RecurringInvoices, Attachments})
    case ProjectId =>
      ({Tasks, TimeEntries, RecurringInvoices, Proposals, Invoices, Contracts, Expenses, Attachments},
       Projects, {Tasks, TimeEntries, Attachments})
    case ProposalId => ({Invoices, Contracts, ProposalOtps, LineItems}, Proposals, {ProposalOtps, LineItems})
    case InvoiceId =>
      ({Payments, CreditNotes, LineItems, Attachments}, Invoices, {Payments, CreditNotes, LineItems, Attachments})
    case CreditNoteId => ({LineItems}, CreditNotes, {LineItems})
    case ContractId => ({ContractSignatures}, Contracts, {ContractSignatures})
    case ExpenseId => ({Attachments}, Expenses, {Attachments})
    case RecurringInvoiceId => ({Invoices}, RecurringInvoices, {})
    case TaskId => ({TimeEntries}, Tasks, {})
    case InvoicedInId => ({TimeEntries, Expenses}, Invoices, {})
    case SourceTimeEntryId => ({LineItems}, TimeEntries, {})
    case SourceExpenseId => ({LineItems}, Expenses, {})
    case ConvertedToClientId => ({Leads}, Clients, {})
    case UploadId =>
      ({Clients, Settings, Proposals, Invoices, Contracts, Expenses, CreditNotes, ContractSignatures,
        Attachments}, Uploads, {Attachments})
  }

  lemma KeysByColumn(t: Table, c: Column)
    ensures
      var (tables, parent, cascading) := ColumnOf(c);
      ForeignKeyOf(t, c) ==
        if t in tables then Some(ForeignKey(parent, if t in cascading then Cascade else SetNull)) else None
  {
    match c
    case ClientId | ProjectId | UploadId => PartyKeysByColumn(t, c);
    case ProposalId | InvoiceId | CreditNoteId | ContractId | ExpenseId => DocumentKeysByColumn(t, c);
    case _ =>
  }

  lemma DocumentKeysByColumn(t: Table, c: Column)
    requires c in {ProposalId, InvoiceId, CreditNoteId, ContractId, ExpenseId}
    ensures
      var (tables, parent, cascading) := ColumnOf(c);
      ForeignKeyOf(t, c) ==
        if t in tables then Some(ForeignKey(parent, if t in cascading then Cascade else SetNull)) else None
  {
  }

  lemma PartyKeysByColumn(t: Table, c: Column)
    requires c in {ClientId, ProjectId, UploadId}
    ensures
      var (tables, parent, cascading) := ColumnOf(c);
      ForeignKeyOf(t, c) ==
        if t in tables then Some(ForeignKey(parent, if t in cascading then Cascade else SetNull)) else None
  {
  }

  predicate Cascades(t: Table, c: Column) {
    var fk := ForeignKeyOf(t, c);
    fk.Some? && fk.value.onDelete.Cascade?
  }

  /** The row a column names, or None when the column is NULL or is no foreign key. */
  function Target(k: Key, row: Row, c: Column): (t: Option<Key>)
    ensures t.Some? ==> c in row.refs && Rank(t.value.table) < Rank(k.table)
  {
    var fk := ForeignKeyOf(k.table, c);
    if c in row.refs && fk.Some? then Some(Key(fk.value.parent, row.refs[c])) else None
  }

  predicate Names(k: Key, row: Row, c: Column, keys: set<Key>) {
    var t := Target(k, row, c);
    t.Some? && t.value in keys
  }

  // Row constraints: NOT NULL columns, the upload bucket's enum and the parent checks.

  predicate ParentAgreed(row: Row) {
    ProjectId in row.refs ==> ClientId in row.refs
  }

  predicate RowOk(t: Table, row: Row) {
    match t
    case Uploads => row.body.UploadBody? && !row.body.stored.bucket.ExportsBucket?
    case Clients => row.body.ClientBody?
    case ClientContacts | Projects => ClientId in row.refs
    case Tasks | TimeEntries => ProjectId in row.refs
    case RecurringInvoices => ClientId in row.refs
    case Proposals | Invoices | Contracts =>
      && (ProjectId in row.refs || ClientId in row.refs)
      && ParentAgreed(row)
    case Expenses => ParentAgreed(row)
    case ProposalOtps => ProposalId in row.refs
    case Payments | CreditNotes => InvoiceId in row.refs
    case ContractSignatures => ContractId in row.refs
    case LineItems =>
      ExactlyOne(ProposalId in row.refs, InvoiceId in row.refs, CreditNoteId in row.refs, false)
    case Attachments =>
      && UploadId in row.refs
      && ExactlyOne(ClientId in row.refs, ProjectId in row.refs,
                    InvoiceId in row.refs, ExpenseId in row.refs)
    case DataExports => row.body.ExportBody? && row.body.instanceScope ==> ClientId !in row.refs
    case _ => true
  }

  predicate ExactlyOne(a: bool, b: bool, c: bool, d: bool) {
    (if a then 1 else 0) + (if b then 1 else 0) + (if c then 1 else 0) + (if d then 1 else 0) == 1
  }

  /** The unique-index entries a row holds. A partial index contributes none for a row outside it. */
  datatype IndexEntry =
    | UploadPath(path: Path)
    | AttachedUpload(upload: Id)
    | LiveProposalContract(proposal: Id)
    | ContractNumber(number: string)
    | PrimaryContact(client: Id)

  function IndexEntries(t: Table, row: Row): set<IndexEntry> {
    match t
    case Uploads => if row.body.UploadBody? then {UploadPath(row.body.stored.path)} else {}
    case Attachments => if UploadId in row.refs then {AttachedUpload(row.refs[UploadId])} else {}
    case Contracts =>
      if row.body.ContractBody? then
        {ContractNumber(row.body.number)} +
        if row.body.live && ProposalId in row.refs
        then {LiveProposalContract(row.refs[ProposalId])} else {}
      else {}
    case ClientContacts =>
      if row.body.ContactBody? && row.body.primary && row.body.live && ClientId in row.refs
      then {PrimaryContact(row.refs[ClientId])} else {}
    case _ => {}
  }

  ghost predicate ReferencesHold(db: Database) {
    forall k, c | k in db && c in db[k].refs ::
      var t := Target(k, db[k], c); t.Some? && t.value in db
  }

  /** The composite foreign key: a row naming a project and a client names that project's client. */
  ghost predicate ProjectsAgree(db: Database) {
    forall k | k in db && ProjectId in db[k].refs && ClientId in db[k].refs ::
      var p := Key(Projects, db[k].refs[ProjectId]);
      p in db && ClientId in db[p].refs && db[p].refs[ClientId] == db[k].refs[ClientId]
  }

  ghost predicate ChecksHold(db: Database) {
    forall k | k in db :: RowOk(k.table, db[k])
  }

  ghost predicate IndexesHold(db: Database) {
    forall k1, k2 | k1 in db && k2 in db && k1 != k2 ::
      IndexEntries(k1.table, db[k1]) !! IndexEntries(k2.table, db[k2])
  }

  ghost predicate Valid(db: Database) {
    ReferencesHold(db) && ProjectsAgree(db) && ChecksHold(db) && IndexesHold(db)
  }

  // One DELETE statement.

  /** The row is deleted by the statement itself or by a chain of cascades from it. */
  predicate CascadeHit(db: Database, start: set<Key>, k: Key)
    requires k in db
    decreases Rank(k.table)
  {
    k in start ||
    exists c | c in db[k].refs ::
      var t := Target(k, db[k], c);
      t.Some? && Cascades(k.table, c) && t.value in db && CascadeHit(db, start, t.value)
  }

  function CascadeClosure(db: Database, start: set<Key>): set<Key> {
    set k | k in db && CascadeHit(db, start, k)
  }

  /** The row with every reference into `gone` set to NULL. */
  function Scrub(k: Key, row: Row, gone: set<Key>): Row {
    row.(refs := map c | c in row.refs && !Names(k, row, c, gone) :: row.refs[c])
  }

  function Without(db: Database, gone: set<Key>): Database {
    map k | k in db && k !in gone :: Scrub(k, db[k], gone)
  }

  function NulledColumns(k: Key, row: Row, gone: set<Key>): set<Column> {
    set c | c in row.refs && !Cascades(k.table, c) && Names(k, row, c, gone)
  }

  function Drop(row: Row, columns: set<Column>): Row {
    row.(refs := row.refs - columns)
  }

  /** Set-null actions run one at a time and in no order this model fixes, so a row is safe only when
      every selection of its nulled columns passes its checks. A signature accepts no such update. */
  predicate NullingRejected(k: Key, row: Row, gone: set<Key>) {
    var nulled := NulledColumns(k, row, gone);
    || (k.table.ContractSignatures? && nulled != {})
    || exists columns: set<Column> | columns <= nulled :: !RowOk(k.table, Drop(row, columns))
  }

  /** What makes the statement raise: the insert-only trigger or a check constraint. */
  predicate DeleteRejected(db: Database, gone: set<Key>) {
    || (exists k | k in gone :: k.table.ContractSignatures?)
    || exists k | k in db :: NullingRejected(k, db[k], gone)
  }

  datatype Outcome = Applied(db: Database) | Rejected

  function Delete(db: Database, rows: set<Key>): Outcome {
    var gone := CascadeClosure(db, rows);
    if DeleteRejected(db, gone) then Rejected else Applied(Without(db, gone))
  }

  lemma ClosureContainsStart(db: Database, start: set<Key>)
    ensures start * db.Keys <= CascadeClosure(db, start)
  {
  }

  /** A cascade child of a deleted row is deleted. */
  lemma ClosureIsClosed(db: Database, start: set<Key>, k: Key, c: Column)
    requires k in db && c in db[k].refs && Cascades(k.table, c)
    requires Names(k, db[k], c, CascadeClosure(db, start))
    ensures k in CascadeClosure(db, start)
  {
  }

  /** The cascade that took a row the statement did not name itself. */
  lemma CascadeParent(db: Database, start: set<Key>, k: Key) returns (c: Column)
    requires k in db && CascadeHit(db, start, k) && k !in start
    ensures c in db[k].refs && Cascades(k.table, c)
    ensures Names(k, db[k], c, CascadeClosure(db, start))
  {
    c :| c in db[k].refs && Target(k, db[k], c).Some? && Cascades(k.table, c)
         && Target(k, db[k], c).value in db && CascadeHit(db, start, Target(k, db[k], c).value);
  }

  lemma ScrubTwice(k: Key, row: Row, first: set<Key>, second: set<Key>)
    ensures Scrub(k, Scrub(k, row, first), second) == Scrub(k, row, first + second)
  {
  }

  lemma WithoutTwice(db: Database, first: set<Key>, second: set<Key>)
    ensures Without(Without(db, first), second) == Without(db, first + second)
  {
    var twice := Without(Without(db, first), second);
    var once := Without(db, first + second);
    forall k | k in once ensures twice[k] == once[k] {
      ScrubTwice(k, db[k], first, second);
    }
    assert twice == once;
  }

  lemma WithoutKeepsReferences(db: Database, gone: set<Key>)
    requires ReferencesHold(db)
    ensures ReferencesHold(Without(db, gone))
  {
  }

  lemma ScrubKeepsEntries(k: Key, row: Row, gone: set<Key>)
    ensures IndexEntries(k.table, Scrub(k, row, gone)) <= IndexEntries(k.table, row)
  {
  }

  lemma WithoutKeepsIndexes(db: Database, gone: set<Key>)
    requires IndexesHold(db)
    ensures IndexesHold(Without(db, gone))
  {
    var after := Without(db, gone);
    forall k1, k2 | k1 in after && k2 in after && k1 != k2
      ensures IndexEntries(k1.table, after[k1]) !! IndexEntries(k2.table, after[k2])
    {
      ScrubKeepsEntries(k1, db[k1], gone);
      ScrubKeepsEntries(k2, db[k2], gone);
    }
  }

  lemma AgreementAt(db: Database, gone: set<Key>, k: Key)
    requires Valid(db) && k in Without(db, gone)
    requires ProjectId in Without(db, gone)[k].refs && ClientId in Without(db, gone)[k].refs
    ensures
      var p := Key(Projects, db[k].refs[ProjectId]);
      && p in Without(db, gone) && ClientId in Without(db, gone)[p].refs
      && Without(db, gone)[p].refs[ClientId] == db[k].refs[ClientId]
  {
    var p := Key(Projects, db[k].refs[ProjectId]);
    assert Target(k, db[k], ProjectId) == Some(p);
    assert RowOk(p.table, db[p]);
    assert Target(p, db[p], ClientId) == Target(k, db[k], ClientId);
  }

  lemma WithoutKeepsAgreement(db: Database, gone: set<Key>)
    requires Valid(db)
    ensures ProjectsAgree(Without(db, gone))
  {
    forall k | k in Without(db, gone) && ProjectId in Without(db, gone)[k].refs
               && ClientId in Without(db, gone)[k].refs
    {
      AgreementAt(db, gone, k);
    }
  }

  lemma DeleteKeepsRowOk(db: Database, rows: set<Key>, k: Key)
    requires Valid(db)
    requires Delete(db, rows).Applied?
    requires k in db && k !in CascadeClosure(db, rows)
    ensures RowOk(k.table, Scrub(k, db[k], CascadeClosure(db, rows)))
  {
    var gone := CascadeClosure(db, rows);
    var nulled := NulledColumns(k, db[k], gone);
    forall c | c in db[k].refs && Names(k, db[k], c, gone) ensures c in nulled {
      if Cascades(k.table, c) {
        ClosureIsClosed(db, rows, k, c);
      }
    }
    assert Drop(db[k], nulled).refs == Scrub(k, db[k], gone).refs;
    assert !NullingRejected(k, db[k], gone);
  }

  /** An accepted DELETE keeps every constraint. */
  lemma DeletePreservesValid(db: Database, rows: set<Key>)
    requires Valid(db)
    requires Delete(db, rows).Applied?
    ensures Valid(Delete(db, rows).db)
  {
    var gone := CascadeClosure(db, rows);
    WithoutKeepsReferences(db, gone);
    WithoutKeepsIndexes(db, gone);
    WithoutKeepsAgreement(db, gone);
    forall k | k in Without(db, gone) ensures RowOk(k.table, Without(db, gone)[k]) {
      DeleteKeepsRowOk(db, rows, k);
    }
  }
}
