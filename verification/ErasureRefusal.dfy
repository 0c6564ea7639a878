/** Why the refusal is no stricter than the schema: with a countersigned contract, no sequence of row
    deletions the constraints let through can remove the client. */
module ErasureRefusal {
  import opened Wrappers
  import opened Schema
  import opened ErasureSpec
  import opened Erasure
  import opened EraseStatements

  function Removed(db: Database, rows: set<Key>): Database {
    Without(db, CascadeClosure(db, rows))
  }

  /** The most lenient reading of a DELETE: cascades run, set-null actions run in whatever order suits,
      and only the final rows are checked. Every accepted statement is permitted. */
  ghost predicate Permitted(db: Database, rows: set<Key>) {
    && (forall k | k in CascadeClosure(db, rows) :: !k.table.ContractSignatures?)
    && ChecksHold(Removed(db, rows))
  }

  function AfterRemovals(db: Database, statements: seq<set<Key>>): Database {
    if statements == [] then db
    else
      var last := |statements| - 1;
      Removed(AfterRemovals(db, statements[..last]), statements[last])
  }

  ghost predicate AllPermitted(db: Database, statements: seq<set<Key>>) {
    statements != [] ==>
      var last := |statements| - 1;
      && AllPermitted(db, statements[..last])
      && Permitted(AfterRemovals(db, statements[..last]), statements[last])
  }

  lemma AcceptedIsPermitted(db: Database, rows: set<Key>)
    requires Valid(db) && Delete(db, rows).Applied?
    ensures Permitted(db, rows) && Delete(db, rows).db == Removed(db, rows)
  {
    DeletePreservesValid(db, rows);
  }

  /** The signature `s` holds the contract `k`, and the contract holds the client. */
  predicate Held(db: Database, client: Id, k: Key, s: Key) {
    && s in db && s.table.ContractSignatures? && Target(s, db[s], ContractId) == Some(k)
    && k in db && k.table.Contracts? && Target(k, db[k], ClientId) == Some(Key(Clients, client))
    && Key(Clients, client) in db
  }

  lemma BlockedIsHeld(db: Database, client: Id, k: Key) returns (s: Key)
    requires Valid(db) && k in BlockingContracts(db, client)
    ensures Held(db, client, k, s)
  {
    s :| s in db && s.table.ContractSignatures? && Target(s, db[s], ContractId) == Some(k);
    ContractNamesItsClient(db, client, k);
  }

  /** Through the checks, a contract reached by either half of the client link names the client. */
  lemma ContractNamesItsClient(db: Database, client: Id, k: Key)
    requires Valid(db) && k in db && k.table.Contracts? && Belongs(db, client, k)
    ensures Target(k, db[k], ClientId) == Some(Key(Clients, client)) && Key(Clients, client) in db
  {
    ClientRowSelected(db, client, k);
    assert RowOk(k.table, db[k]);
    assert ClientId in db[k].refs && db[k].refs[ClientId] == client;
    assert Target(k, db[k], ClientId) == Some(Key(Clients, client));
  }

  lemma RemovalKeepsHold(db: Database, rows: set<Key>, client: Id, k: Key, s: Key)
    requires Valid(db) && Held(db, client, k, s) && Permitted(db, rows)
    ensures Valid(Removed(db, rows)) && Held(Removed(db, rows), client, k, s)
  {
    var gone := CascadeClosure(db, rows);
    WithoutKeepsReferences(db, gone);
    WithoutKeepsIndexes(db, gone);
    WithoutKeepsAgreement(db, gone);
    HoldSurvives(db, rows, client, k, s);
  }

  lemma HoldSurvives(db: Database, rows: set<Key>, client: Id, k: Key, s: Key)
    requires Held(db, client, k, s) && Permitted(db, rows) && ReferencesHold(Removed(db, rows))
    ensures Held(Removed(db, rows), client, k, s)
  {
    var gone := CascadeClosure(db, rows);
    assert k !in gone by {
      if Names(s, db[s], ContractId, gone) {
        ClosureIsClosed(db, rows, s, ContractId);
      }
    }
    var row := Removed(db, rows)[k];
    assert RowOk(k.table, row);
    assert ClientId in row.refs;
    assert Target(k, row, ClientId) == Some(Key(Clients, client));
  }

  /** Over any run of permitted deletions, the signature, its contract and the client all stay. */
  lemma {:induction false} BlockedClientStays(
    db: Database, statements: seq<set<Key>>, client: Id, k: Key, s: Key)
    requires Valid(db) && Held(db, client, k, s) && AllPermitted(db, statements)
    ensures Valid(AfterRemovals(db, statements))
    ensures Held(AfterRemovals(db, statements), client, k, s)
    decreases |statements|
  {
    if statements != [] {
      var last := |statements| - 1;
      BlockedClientStays(db, statements[..last], client, k, s);
      RemovalKeepsHold(AfterRemovals(db, statements[..last]), statements[last], client, k, s);
    }
  }

  /** The refusal is exact: a client the erasure refuses cannot be removed by any run of deletions. */
  lemma RefusedMeansImpossible(db: Database, statements: seq<set<Key>>, client: Id)
    requires Valid(db) && AllPermitted(db, statements)
    requires BlockingContracts(db, client) != {}
    ensures Key(Clients, client) in AfterRemovals(db, statements)
    ensures BlockingContracts(AfterRemovals(db, statements), client) >= BlockingContracts(db, client)
  {
    forall k | k in BlockingContracts(db, client)
      ensures k in BlockingContracts(AfterRemovals(db, statements), client)
      ensures Key(Clients, client) in AfterRemovals(db, statements)
    {
      var s := BlockedIsHeld(db, client, k);
      BlockedClientStays(db, statements, client, k, s);
      HeldIsBlocked(AfterRemovals(db, statements), client, k, s);
    }
  }

  lemma HeldIsBlocked(db: Database, client: Id, k: Key, s: Key)
    requires Held(db, client, k, s)
    ensures k in BlockingContracts(db, client)
  {
    assert Belongs(db, client, Key(Clients, client));
    assert ClientId in db[k].refs && Owning(k.table, ClientId);
    assert Belongs(db, client, k);
    assert Countersigned(db, k);
  }

  // The erasure itself is such a run.

  /** The rows the first `n` statements of a plan select. */
  function SelectedRows(db: Database, plan: Plan, n: nat): seq<set<Key>>
    requires n <= |plan.tables|
  {
    if n == 0 then [] else SelectedRows(db, plan, n - 1) + [Selected(db, plan, n - 1)]
  }

  lemma {:induction false} OneMoreRemoval(db: Database, statements: seq<set<Key>>, rows: set<Key>)
    requires AllPermitted(db, statements) && Permitted(AfterRemovals(db, statements), rows)
    ensures AllPermitted(db, statements + [rows])
    ensures AfterRemovals(db, statements + [rows]) == Removed(AfterRemovals(db, statements), rows)
  {
    var all := statements + [rows];
    assert |all| - 1 == |statements| && all[..|all| - 1] == statements && all[|all| - 1] == rows;
  }

  lemma PrefixIsApplied(db: Database, client: Id, n: nat)
    requires Erasable(db, client) && n <= |PlanOf(db, client).tables| == 15
    ensures Run(db, PlanOf(db, client), n).Applied?
  {
    var gone := StatementsNeverRejected(db, client, n);
  }

  lemma PrefixIsValid(db: Database, client: Id, n: nat, rows: Database)
    requires Erasable(db, client) && n <= |PlanOf(db, client).tables| == 15
    requires Run(db, PlanOf(db, client), n) == Applied(rows)
    ensures Valid(rows)
  {
    var gone := StatementsNeverRejected(db, client, n);
  }

  /** The first `n` statements of a plan are permitted deletions and end where those do. */
  ghost predicate RunsPermitted(db: Database, plan: Plan, n: nat)
    requires n <= |plan.tables|
  {
    && AllPermitted(db, SelectedRows(db, plan, n))
    && Run(db, plan, n) == Applied(AfterRemovals(db, SelectedRows(db, plan, n)))
  }

  lemma {:induction false} PlanIsPermitted(db: Database, client: Id, plan: Plan, n: nat)
    requires Erasable(db, client) && plan == PlanOf(db, client) && n <= |plan.tables| == 15
    ensures RunsPermitted(db, plan, n)
  {
    if n > 0 {
      PlanIsPermitted(db, client, plan, n - 1);
      NextIsPermitted(db, client, plan, n);
    }
  }

  lemma NextIsPermitted(db: Database, client: Id, plan: Plan, n: nat)
    requires Erasable(db, client) && plan == PlanOf(db, client) && 0 < n <= |plan.tables| == 15
    requires RunsPermitted(db, plan, n - 1)
    ensures RunsPermitted(db, plan, n)
  {
    PrefixIsApplied(db, client, n);
    PrefixIsValid(db, client, n - 1, AfterRemovals(db, SelectedRows(db, plan, n - 1)));
    StatementIsPermitted(db, plan, n);
  }

  lemma StatementIsPermitted(db: Database, plan: Plan, n: nat)
    requires 0 < n <= |plan.tables|
    requires AllPermitted(db, SelectedRows(db, plan, n - 1)) && Run(db, plan, n).Applied?
    requires Run(db, plan, n - 1) == Applied(AfterRemovals(db, SelectedRows(db, plan, n - 1)))
    requires Valid(AfterRemovals(db, SelectedRows(db, plan, n - 1)))
    ensures AllPermitted(db, SelectedRows(db, plan, n))
    ensures Run(db, plan, n) == Applied(AfterRemovals(db, SelectedRows(db, plan, n)))
  {
    var rows := AfterRemovals(db, SelectedRows(db, plan, n - 1));
    AcceptedIsPermitted(rows, Selected(db, plan, n - 1));
    OneMoreRemoval(db, SelectedRows(db, plan, n - 1), Selected(db, plan, n - 1));
  }

  /** The refusal is exact both ways: some run of deletions the schema permits removes the client
      exactly when no contract of it is countersigned. */
  lemma RefusalIsExact(db: Database, client: Id)
    requires Valid(db) && Key(Clients, client) in db
    ensures
      (exists statements ::
         AllPermitted(db, statements) && Key(Clients, client) !in AfterRemovals(db, statements)) <==>
      BlockingContracts(db, client) == {}
  {
    forall statements | AllPermitted(db, statements) && BlockingContracts(db, client) != {}
      ensures Key(Clients, client) in AfterRemovals(db, statements)
    {
      RefusedMeansImpossible(db, statements, client);
    }
    if BlockingContracts(db, client) == {} {
      UnblockedHasNoSignatures(db, client);
      ErasureRemovesClient(db, client);
    }
  }

  lemma ErasureRemovesClient(db: Database, client: Id)
    requires Erasable(db, client)
    ensures
      var statements := SelectedRows(db, PlanOf(db, client), 15);
      AllPermitted(db, statements) && Key(Clients, client) !in AfterRemovals(db, statements)
  {
    PlanIsPermitted(db, client, PlanOf(db, client), 15);
    TransactionCommits(db, client);
    assert Belongs(db, client, Key(Clients, client));
  }
}
