/** The statements of the erasure in their order, each as the database executes it: its WHERE clause
    over the rows as they then are, its cascades and set-null actions, or its rejection. */
module EraseStatements {
  import opened Wrappers
  import opened Schema
  import opened ErasureSpec
  import opened ErasureSteps
  import opened Erasure

  /** The tables in the order their statements run. */
  const ORDER: seq<Table> := [
    ActivityLogs, EmailLogs, DataExports, Payments, CreditNotes, Contracts, Invoices, Proposals,
    RecurringInvoices, Expenses, TimeEntries, Tasks, Projects, ClientContacts, Clients
  ]

  /** The place of a table's statement, or 15 for a table no statement empties. */
  function Order(t: Table): nat {
    match t
    case ActivityLogs => 0
    case EmailLogs => 1
    case DataExports => 2
    case Payments => 3
    case CreditNotes => 4
    case Contracts => 5
    case Invoices => 6
    case Proposals => 7
    case RecurringInvoices => 8
    case Expenses => 9
    case TimeEntries => 10
    case Tasks => 11
    case Projects => 12
    case ClientContacts => 13
    case Clients => 14
    case _ => 15
  }

  /** The tables whose deleted rows are counted and reported. */
  const COUNTED_TABLES: set<Table> := set t: Table | Order(t) < 15

  /** The tables the first `n` statements empty, with the signatures there are none of. */
  ghost function ClearedBefore(n: nat): set<Table> {
    set t: Table | Order(t) < n || t.ContractSignatures?
  }

  lemma OrderIsReady(n: nat)
    requires n < 15
    ensures Ready(ORDER[n], ClearedBefore(n)) && Order(ORDER[n]) == n
    ensures ClearedBefore(n + 1) == ClearedBefore(n) + {ORDER[n]}
  {
  }

  lemma OrderEndsCleared()
    ensures AllCleared(ClearedBefore(15))
  {
  }

  /** The ids the transaction reads before its first delete are those of the doomed rows. */
  datatype IdsRead = IdsRead(
    projects: set<Id>, invoices: set<Id>, proposals: set<Id>, contracts: set<Id>)

  function ReadIds(db: Database, client: Id): IdsRead {
    var projectIds := ProjectIdsOf(db, client);
    IdsRead(projectIds, IdsOf(ClientRows(db, Invoices, client, projectIds)),
            IdsOf(ClientRows(db, Proposals, client, projectIds)),
            IdsOf(ClientRows(db, Contracts, client, projectIds)))
  }

  /** The WHERE clause of each table's statement. */
  function WhereOf(db: Database, t: Table, client: Id, ids: IdsRead): set<Key> {
    match t
    case ActivityLogs => ActivityOf(db, client, ids.projects, ids.invoices, ids.proposals, ids.contracts)
    case EmailLogs => EmailsOf(db, ids.invoices, ids.proposals, ids.contracts)
    case DataExports => RowsNaming(db, DataExports, ClientId, {client})
    case Payments => RowsNaming(db, Payments, InvoiceId, ids.invoices)
    case CreditNotes => RowsNaming(db, CreditNotes, InvoiceId, ids.invoices)
    case Contracts => RowsById(db, Contracts, ids.contracts)
    case Invoices => RowsById(db, Invoices, ids.invoices)
    case Proposals => RowsById(db, Proposals, ids.proposals)
    case RecurringInvoices => ClientRows(db, RecurringInvoices, client, ids.projects)
    case Expenses => ClientRows(db, Expenses, client, ids.projects)
    case TimeEntries => RowsNaming(db, TimeEntries, ProjectId, ids.projects)
    case Tasks => RowsNaming(db, Tasks, ProjectId, ids.projects)
    case Projects => RowsById(db, Projects, ids.projects)
    case ClientContacts => RowsNaming(db, ClientContacts, ClientId, {client})
    case Clients => RowsById(db, Clients, {client})
    case _ => {}
  }

  /** Whatever was deleted before it, each statement selects exactly the rows of its table that
      belonged to the client when the transaction began. */
  lemma WhereSelectsDoomed(db: Database, client: Id, gone: set<Key>, t: Table, ids: IdsRead)
    requires Valid(db) && Key(Clients, client) in db && Order(t) < 15
    requires Progress(db, client, gone, ClearedBefore(Order(t))) && ids == ReadIds(db, client)
    ensures WhereOf(Without(db, gone), t, client, ids) == DoomedIn(db, client, t)
  {
    var cleared := ClearedBefore(Order(t));
    OnlyTheClientSelected(db, client);
    SelectionsAreDoomed(db, client);
    match t {
      case ActivityLogs | EmailLogs =>
        LogsSelected(db, client, gone, cleared, ids.projects, ids.invoices, ids.proposals, ids.contracts);
      case DataExports | ClientContacts =>
        ChildRowsSelected(db, client, gone, cleared, t, ClientId, Clients);
      case Payments | CreditNotes =>
        ChildRowsSelected(db, client, gone, cleared, t, InvoiceId, Invoices);
      case TimeEntries | Tasks =>
        ChildRowsSelected(db, client, gone, cleared, t, ProjectId, Projects);
      case RecurringInvoices | Expenses =>
        ClientRowsStillSelected(db, client, gone, cleared, t);
      case Contracts | Invoices | Proposals | Projects | Clients =>
        RowsByIdSelected(db, client, gone, cleared, t);
    }
  }

  lemma OnlyTheClientSelected(db: Database, client: Id)
    requires Key(Clients, client) in db
    ensures IdsOf(DoomedIn(db, client, Clients)) == {client}
  {
  }

  lemma SelectionsAreDoomed(db: Database, client: Id)
    requires Valid(db)
    ensures ProjectIdsOf(db, client) == IdsOf(DoomedIn(db, client, Projects))
    ensures forall t | IsClientTable(t) ::
      ClientRows(db, t, client, ProjectIdsOf(db, client)) == DoomedIn(db, client, t)
  {
    ProjectsSelected(db, client);
    forall t | IsClientTable(t)
      ensures ClientRows(db, t, client, ProjectIdsOf(db, client)) == DoomedIn(db, client, t)
    {
      ClientRowsSelected(db, client, t);
    }
  }

  /** An erasure's statements: the tables in order, and the WHERE clause of each over the rows as they
      are when its turn comes. */
  datatype Plan = Plan(tables: seq<Table>, where: (Database, Table) -> set<Key>)

  function PlanFor(client: Id, ids: IdsRead): Plan {
    Plan(ORDER, (rows, t) => WhereOf(rows, t, client, ids))
  }

  function PlanOf(db: Database, client: Id): Plan {
    PlanFor(client, ReadIds(db, client))
  }

  /** The first `n` statements against a snapshot, rejected as soon as one of them is. */
  function Run(snapshot: Database, plan: Plan, n: nat): Outcome
    requires n <= |plan.tables|
  {
    if n == 0 then Applied(snapshot)
    else
      match Run(snapshot, plan, n - 1)
      case Rejected => Rejected
      case Applied(rows) => Delete(rows, plan.where(rows, plan.tables[n - 1]))
  }

  /** The rows the statement at place `n` selects when its turn comes. */
  function Selected(snapshot: Database, plan: Plan, n: nat): set<Key>
    requires n < |plan.tables|
  {
    var before := Run(snapshot, plan, n);
    if before.Applied? then plan.where(before.db, plan.tables[n]) else {}
  }

  /** What the first `n` statements report. */
  function CountsAfter(snapshot: Database, plan: Plan, n: nat): map<Table, nat>
    requires n <= |plan.tables|
  {
    if n == 0 then map[]
    else CountsAfter(snapshot, plan, n - 1)[plan.tables[n - 1] := |Selected(snapshot, plan, n - 1)|]
  }

  lemma {:induction false} EarlierStatementsAccepted(snapshot: Database, plan: Plan, n: nat, m: nat)
    requires n <= m <= |plan.tables| && Run(snapshot, plan, m).Applied?
    ensures Run(snapshot, plan, n).Applied?
  {
    if n < m {
      EarlierStatementsAccepted(snapshot, plan, n, m - 1);
    }
  }

  /** With no table twice, each table's count is what its own statement selected. */
  lemma {:induction false} CountStays(snapshot: Database, plan: Plan, n: nat, i: nat)
    requires i < n <= |plan.tables|
    requires forall j | i < j < |plan.tables| :: plan.tables[i] != plan.tables[j]
    ensures plan.tables[i] in CountsAfter(snapshot, plan, n)
    ensures CountsAfter(snapshot, plan, n)[plan.tables[i]] == |Selected(snapshot, plan, i)|
  {
    if i < n - 1 {
      CountStays(snapshot, plan, n - 1, i);
    }
  }

  lemma {:induction false} CountedTablesOnly(snapshot: Database, plan: Plan, n: nat, t: Table)
    requires n <= |plan.tables| && t in CountsAfter(snapshot, plan, n)
    ensures t in plan.tables
  {
    if n > 0 && t != plan.tables[n - 1] {
      CountedTablesOnly(snapshot, plan, n - 1, t);
    }
  }

  ghost predicate Erasable(db: Database, client: Id) {
    Valid(db) && Key(Clients, client) in db && NoDoomedSignatures(db, client)
  }

  /** No statement is ever rejected, and after `n` of them the database is the closed form without the
      rows of the first `n` tables and what hangs off them. */
  lemma {:induction false} StatementsNeverRejected(db: Database, client: Id, n: nat)
    returns (gone: set<Key>)
    requires n <= 15 && Erasable(db, client)
    ensures Run(db, PlanOf(db, client), n) == Applied(Without(db, gone))
    ensures Progress(db, client, gone, ClearedBefore(n)) && Valid(Without(db, gone))
  {
    if n == 0 {
      gone := {};
      WithoutNothing(db);
    } else {
      var earlier := StatementsNeverRejected(db, client, n - 1);
      OrderIsReady(n - 1);
      WhereSelectsDoomed(db, client, earlier, ORDER[n - 1], ReadIds(db, client));
      var closure := StatementAccepted(db, client, earlier, ClearedBefore(n - 1), ORDER[n - 1]);
      gone := earlier + closure;
    }
  }

  lemma WithoutNothing(db: Database)
    ensures Without(db, {}) == db
  {
    forall k | k in db ensures Scrub(k, db[k], {}) == db[k] {
      assert Scrub(k, db[k], {}).refs == db[k].refs;
    }
  }

  /** Each statement selects all the rows of its table that belonged to the client when the
      transaction began, whatever went before it. */
  lemma StatementSelects(db: Database, client: Id, n: nat)
    requires n < 15 && Erasable(db, client)
    ensures Selected(db, PlanOf(db, client), n) == DoomedIn(db, client, ORDER[n])
  {
    var gone := StatementsNeverRejected(db, client, n);
    OrderIsReady(n);
    WhereSelectsDoomed(db, client, gone, ORDER[n], ReadIds(db, client));
  }

  /** After the last statement: exactly the rows that belonged to the client are gone, the release of
      the uploads is accepted too, and the committed database keeps every constraint. */
  lemma TransactionCommits(db: Database, client: Id)
    requires Erasable(db, client)
    ensures Run(db, PlanOf(db, client), 15) == Applied(WithoutDoomed(db, client))
    ensures
      Delete(WithoutDoomed(db, client), ReleasedUploads(db, WithoutDoomed(db, client))) ==
      Applied(Erased(db, client))
    ensures Valid(Erased(db, client))
  {
    var gone := StatementsNeverRejected(db, client, 15);
    OrderEndsCleared();
    ErasureComplete(db, client, gone, ClearedBefore(15));
    ReleaseAccepted(db, WithoutDoomed(db, client));
    DeletePreservesValid(WithoutDoomed(db, client), ReleasedUploads(db, WithoutDoomed(db, client)));
  }

  lemma OrderIsAPlace(t: Table)
    requires Order(t) < 15
    ensures ORDER[Order(t)] == t
  {
  }

  lemma OrderNamesEachTableOnce()
    ensures forall i, j | 0 <= i < j < |ORDER| :: ORDER[i] != ORDER[j]
    ensures forall t :: t in ORDER <==> t in COUNTED_TABLES
  {
  }

  /** The reported count of each table is the number of its rows that belonged to the client. */
  lemma CountsAreRows(db: Database, client: Id)
    requires Erasable(db, client)
    ensures CountsAfter(db, PlanOf(db, client), 15).Keys == COUNTED_TABLES
    ensures forall t | t in COUNTED_TABLES ::
      CountsAfter(db, PlanOf(db, client), 15)[t] == |DoomedIn(db, client, t)|
  {
    var counts := CountsAfter(db, PlanOf(db, client), 15);
    forall t | t in COUNTED_TABLES ensures t in counts && counts[t] == |DoomedIn(db, client, t)| {
      CountOfTable(db, client, PlanOf(db, client), Order(t));
      OrderIsAPlace(t);
    }
    forall t | t in counts ensures t in COUNTED_TABLES {
      OrderNamesEachTableOnce();
      CountedTablesOnly(db, PlanOf(db, client), 15, t);
    }
  }

  lemma CountOfTable(db: Database, client: Id, plan: Plan, n: nat)
    requires Erasable(db, client) && plan == PlanOf(db, client) && n < 15
    ensures ORDER[n] in CountsAfter(db, plan, 15)
    ensures CountsAfter(db, plan, 15)[ORDER[n]] == |DoomedIn(db, client, ORDER[n])|
  {
    StatementSelects(db, client, n);
    OrderNamesEachTableOnce();
    CountStays(db, plan, 15, n);
  }
}
