/** `forgetClientWrite`, the warning read beside it, and the owner's action around both. */
module ForgetClient {
  import opened Wrappers
  import opened Schema
  import opened ErasureSpec
  import opened ErasureSteps
  import opened Erasure
  import opened EraseStatements

  datatype ForgetResult =
    | Forgotten(name: string, counts: map<Table, nat>, released: set<StoredObject>)
    | BlockedBySignature(signedContracts: nat)
    | NotFound

  lemma ErasedTable(db: Database, client: Id, t: Table)
    requires !t.Uploads?
    ensures TableRows(Erased(db, client), t) == TableRows(db, t) - DoomedIn(db, client, t)
    ensures DoomedIn(db, client, t) <= TableRows(db, t)
  {
  }

  /** Every counted table lost exactly as many rows as were reported for it. */
  ghost predicate CountsConserved(before: Database, after: Database, counts: map<Table, nat>) {
    && counts.Keys == COUNTED_TABLES
    && forall t | t in COUNTED_TABLES ::
         |TableRows(after, t)| + counts[t] == |TableRows(before, t)|
  }

  lemma ReportedCountsConserved(db: Database, client: Id)
    requires Erasable(db, client)
    ensures CountsConserved(db, Erased(db, client), CountsAfter(db, PlanOf(db, client), 15))
  {
    CountsAreRows(db, client);
    forall t | t in COUNTED_TABLES
      ensures |TableRows(Erased(db, client), t)| + |DoomedIn(db, client, t)| == |TableRows(db, t)|
    {
      ErasedTable(db, client, t);
    }
  }

  function ContractNumbers(db: Database, contracts: set<Key>): set<string> {
    set k | k in contracts && k in db && db[k].body.ContractBody? :: db[k].body.number
  }

  predicate ContractsNumbered(db: Database) {
    forall k | k in db && k.table.Contracts? :: db[k].body.ContractBody?
  }

  lemma NumbersDiffer(db: Database, one: Key, other: Key)
    requires IndexesHold(db) && ContractsNumbered(db)
    requires one in db && other in db && one.table.Contracts? && other.table.Contracts? && one != other
    ensures db[one].body.number != db[other].body.number
  {
  }

  /** Distinct contracts print distinct numbers, so the list is as long as the count the write
      reports. */
  lemma {:induction false} NumbersAreDistinct(db: Database, contracts: set<Key>)
    requires IndexesHold(db) && ContractsNumbered(db)
    requires forall k | k in contracts :: k in db && k.table.Contracts?
    ensures |ContractNumbers(db, contracts)| == |contracts|
    decreases contracts
  {
    if contracts == {} {
      assert ContractNumbers(db, contracts) == {};
    } else {
      var k :| k in contracts;
      NumbersAreDistinct(db, contracts - {k});
      forall other | other in contracts - {k} ensures db[other].body.number != db[k].body.number {
        NumbersDiffer(db, k, other);
      }
      assert ContractNumbers(db, contracts) ==
             ContractNumbers(db, contracts - {k}) + {db[k].body.number};
    }
  }

  /** The database's collation, as a comparison. */
  type Collation = (string, string) -> bool

  ghost predicate IsCollation(atMost: Collation) {
    && (forall a, b :: atMost(a, b) || atMost(b, a))
    && forall a, b, c :: atMost(a, b) && atMost(b, c) ==> atMost(a, c)
  }

  ghost predicate InOrder(numbers: seq<string>, atMost: Collation) {
    forall i, j | 0 <= i < j < |numbers| :: atMost(numbers[i], numbers[j])
  }

  function Elements(numbers: seq<string>): set<string> {
    set n | n in numbers
  }

  function Placed(numbers: seq<string>, number: string, atMost: Collation): seq<string> {
    if numbers == [] || atMost(number, numbers[0]) then [number] + numbers
    else [numbers[0]] + Placed(numbers[1..], number, atMost)
  }

  lemma {:induction false} PlacedKeepsOrder(numbers: seq<string>, number: string, atMost: Collation)
    requires IsCollation(atMost) && InOrder(numbers, atMost)
    ensures InOrder(Placed(numbers, number, atMost), atMost)
    ensures Elements(Placed(numbers, number, atMost)) == Elements(numbers) + {number}
    ensures |Placed(numbers, number, atMost)| == |numbers| + 1
  {
    if numbers == [] || atMost(number, numbers[0]) {
    } else {
      var rest := Placed(numbers[1..], number, atMost);
      PlacedKeepsOrder(numbers[1..], number, atMost);
      assert numbers == [numbers[0]] + numbers[1..];
      forall n | n in rest ensures atMost(numbers[0], n) {
        assert n in Elements(rest);
        assert n in Elements(numbers[1..]) || n == number;
      }
      assert Elements([numbers[0]] + rest) == {numbers[0]} + Elements(rest);
    }
  }

  lemma OneMoreNumber(db: Database, contracts: set<Key>, k: Key)
    requires k in db && db[k].body.ContractBody?
    ensures ContractNumbers(db, contracts + {k}) == ContractNumbers(db, contracts) + {db[k].body.number}
  {
  }

  /** SELECT number ... ORDER BY number. */
  method SelectNumbers(db: Database, contracts: set<Key>, atMost: Collation) returns (numbers: seq<string>)
    requires IsCollation(atMost) && forall k | k in contracts :: k in db && db[k].body.ContractBody?
    ensures InOrder(numbers, atMost)
    ensures Elements(numbers) == ContractNumbers(db, contracts)
    ensures |numbers| == |contracts|
  {
    var done: set<Key> := {};
    numbers := [];
    while done != contracts
      invariant done <= contracts
      invariant InOrder(numbers, atMost)
      invariant Elements(numbers) == ContractNumbers(db, done)
      invariant |numbers| == |done|
      decreases contracts - done
    {
      assert contracts - done != {};
      var k :| k in contracts - done;
      PlacedKeepsOrder(numbers, db[k].body.number, atMost);
      OneMoreNumber(db, done, k);
      numbers := Placed(numbers, db[k].body.number, atMost);
      done := done + {k};
    }
  }

  /** What the language's own trimming takes for white space. */
  predicate IsSpace(c: char) {
    || c in {' ', '\t', '\n', '\r', '\U{0B}', '\U{0C}', '\U{A0}', '\U{1680}'}
    || '\U{2000}' <= c <= '\U{200A}'
    || c in {'\U{2028}', '\U{2029}', '\U{202F}', '\U{205F}', '\U{3000}', '\U{FEFF}'}
  }

  function Trim(s: string): (t: string)
    decreases |s|
  {
    if s == "" then s
    else if IsSpace(s[0]) then Trim(s[1..])
    else if IsSpace(s[|s| - 1]) then Trim(s[..|s| - 1])
    else s
  }

  predicate Padded(s: string) {
    s != "" && (IsSpace(s[0]) || IsSpace(s[|s| - 1]))
  }

  /** No visible ASCII character is white space; the usual separators are. */
  lemma VisibleIsNoSpace(c: char)
    ensures '!' <= c <= '~' ==> !IsSpace(c)
    ensures c in " \t\n\r" ==> IsSpace(c)
  {
  }

  ghost predicate TrimsTo(s: string, i: nat, j: nat) {
    && i <= j <= |s| && Trim(s) == s[i..j]
    && (forall x | 0 <= x < i :: IsSpace(s[x]))
    && forall x | j <= x < |s| :: IsSpace(s[x])
  }

  /** Trimming cuts white space off both ends and nothing else, until neither end is white space. */
  lemma {:induction false} TrimExactly(s: string) returns (i: nat, j: nat)
    ensures TrimsTo(s, i, j) && !Padded(Trim(s))
    ensures !Padded(s) ==> Trim(s) == s
    decreases |s|
  {
    if s == "" || !Padded(s) {
      i, j := 0, |s|;
      assert s[..|s|] == s;
    } else if IsSpace(s[0]) {
      i, j := TrimExactly(s[1..]);
      assert s[1..][i..j] == s[i + 1..j + 1];
      forall x | 0 <= x < i + 1 || j + 1 <= x < |s| ensures IsSpace(s[x]) {
        assert x > 0 ==> s[x] == s[1..][x - 1];
      }
      i, j := i + 1, j + 1;
    } else {
      i, j := TrimExactly(s[..|s| - 1]);
      assert s[..|s| - 1][i..j] == s[i..j];
      assert forall x | 0 <= x < |s| - 1 :: s[..|s| - 1][x] == s[x];
    }
  }

  /** The statements of the plan and the release after them are accepted and end in the closed form. */
  ghost predicate Committing(db: Database, client: Id, plan: Plan) {
    && plan.tables == ORDER
    && Run(db, plan, 15) == Applied(WithoutDoomed(db, client))
    && Selected(db, plan, 2) == DoomedIn(db, client, DataExports)
    && Delete(WithoutDoomed(db, client), ReleasedUploads(db, WithoutDoomed(db, client))) ==
       Applied(Erased(db, client))
  }

  lemma ThirdIsExports()
    ensures |ORDER| == 15 && ORDER[2] == DataExports
  {
  }

  lemma PlanCommits(db: Database, client: Id)
    requires Erasable(db, client)
    ensures Committing(db, client, PlanOf(db, client))
    ensures Valid(Erased(db, client))
  {
    TransactionCommits(db, client);
    StatementSelects(db, client, 2);
    ThirdIsExports();
  }

  /** The next statement of an accepted run, on the rows the earlier ones left. */
  lemma NextStatement(snapshot: Database, plan: Plan, n: nat, rows: Database)
    requires n < |plan.tables| && Run(snapshot, plan, n) == Applied(rows)
    requires Run(snapshot, plan, |plan.tables|).Applied?
    ensures
      var deleted := plan.where(rows, plan.tables[n]);
      && Selected(snapshot, plan, n) == deleted
      && Delete(rows, deleted).Applied? && Run(snapshot, plan, n + 1) == Delete(rows, deleted)
      && CountsAfter(snapshot, plan, n + 1) == CountsAfter(snapshot, plan, n)[plan.tables[n] := |deleted|]
  {
    EarlierStatementsAccepted(snapshot, plan, n + 1, |plan.tables|);
  }

  /** One erasure transaction over a snapshot. */
  class ForgetTransaction {
    const snapshot: Database
    const plan: Plan
    var rows: Database
    var counts: map<Table, nat>
    ghost var issued: nat

    ghost predicate Open()
      reads this
    {
      && issued <= |plan.tables|
      && Run(snapshot, plan, issued) == Applied(rows)
      && counts == CountsAfter(snapshot, plan, issued)
    }

    ghost predicate Accepted() {
      Run(snapshot, plan, |plan.tables|).Applied?
    }

    constructor (snapshot: Database, plan: Plan)
      ensures Open() && issued == 0
      ensures this.snapshot == snapshot && this.plan == plan
    {
      rows, counts, this.snapshot, this.plan := snapshot, map[], snapshot, plan;
      issued := 0;
    }

    /** One counted DELETE, with the rows it returns. The transaction has no handler for a constraint
        or trigger error, so it rests on the database accepting the statement. */
    method DeleteRows(t: Table) returns (deleted: set<Key>)
      requires Open() && Accepted() && issued < |plan.tables| && t == plan.tables[issued]
      modifies this
      ensures Open() && issued == old(issued) + 1
      ensures deleted == Selected(snapshot, plan, old(issued))
    {
      NextStatement(snapshot, plan, issued, rows);
      deleted := plan.where(rows, t);
      rows := Delete(rows, deleted).db;
      counts := counts[t := |deleted|];
      issued := issued + 1;
    }

    /** The runtime logs first, then the exports, whose rows are returned. */
    method DeleteRecords() returns (exports: set<Key>)
      requires Open() && Accepted() && issued == 0 && ORDER <= plan.tables
      modifies this
      ensures Open() && issued == 3
      ensures exports == Selected(snapshot, plan, 2)
    {
      var _ := DeleteRows(ActivityLogs);
      var _ := DeleteRows(EmailLogs);
      exports := DeleteRows(DataExports);
    }

    method DeleteMoney()
      requires Open() && Accepted() && issued == 3 && ORDER <= plan.tables
      modifies this
      ensures Open() && issued == 5
    {
      var _ := DeleteRows(Payments);
      var _ := DeleteRows(CreditNotes);
    }

    method DeleteDocuments()
      requires Open() && Accepted() && issued == 5 && ORDER <= plan.tables
      modifies this
      ensures Open() && issued == 8
    {
      var _ := DeleteRows(Contracts);
      var _ := DeleteRows(Invoices);
      var _ := DeleteRows(Proposals);
    }

    method DeleteWork()
      requires Open() && Accepted() && issued == 8 && ORDER <= plan.tables
      modifies this
      ensures Open() && issued == 12
    {
      var _ := DeleteRows(RecurringInvoices);
      var _ := DeleteRows(Expenses);
      var _ := DeleteRows(TimeEntries);
      var _ := DeleteRows(Tasks);
    }

    method DeleteClient()
      requires Open() && Accepted() && issued == 12 && ORDER <= plan.tables
      modifies this
      ensures Open() && issued == 15
    {
      var _ := DeleteRows(Projects);
      var _ := DeleteRows(ClientContacts);
      var _ := DeleteRows(Clients);
    }
  
    /** All fifteen statements. Returns the exports that went. */
    method DeleteSubgraph() returns (exports: set<Key>)
      requires Open() && Accepted() && issued == 0 && ORDER <= plan.tables
      modifies this
      ensures Open() && issued == 15
      ensures exports == Selected(snapshot, plan, 2)
    {
      exports := DeleteRecords();
      DeleteMoney();
      DeleteDocuments();
      DeleteWork();
      DeleteClient();
    }
  }

  datatype ForgetError = ClientNotFound | ConfirmationMismatch | SignedContracts(count: nat)

  datatype ActionResult = Data(id: Id) | Failed(error: ForgetError)

  /** The committed database with the queue of objects its rows have let go of. */
  class Instance {
    var rows: Database
    var queue: set<StoredObject>

    constructor (rows: Database)
      ensures this.rows == rows && queue == {}
    {
      this.rows, queue := rows, {};
    }

    /** The client's contracts that carry a signature, as both the write and the warning read them. */
    method ReadSignedContracts(client: Id) returns (signed: set<Key>)
      requires Valid(rows)
      ensures signed == BlockingContracts(rows, client)
    {
      var clientContracts := ClientRows(rows, Contracts, client, ProjectIdsOf(rows, client));
      signed := set k | k in clientContracts && Countersigned(rows, k);
      ClientRowsSelected(rows, client, Contracts);
    }

    /** The part of the erasure after the refusal: it commits exactly the closed form. */
    method EraseUnblocked(client: Id, plan: Plan)
      returns (counts: map<Table, nat>, released: set<StoredObject>)
      requires Committing(rows, client, plan)
      modifies this
      ensures rows == Erased(old(rows), client)
      ensures released == ReleasedObjects(old(rows), client)
      ensures queue == old(queue) + released
      ensures counts == CountsAfter(old(rows), plan, 15)
    {
      var tx := new ForgetTransaction(rows, plan);
      var exports := tx.DeleteSubgraph();
      var releasedUploads := ReleasedUploads(rows, tx.rows);
      released := ObjectsOf(rows, releasedUploads) + ArchivesOf(rows, exports);
      queue := queue + released;
      rows := Delete(tx.rows, releasedUploads).db;
      counts := tx.counts;
    }

    /** The erasure, on any database that satisfies its constraints: it changes nothing and says why,
        or commits exactly the closed form. No statement is ever rejected. */
    method ForgetClientWrite(client: Id) returns (result: ForgetResult)
      requires Valid(rows)
      modifies this
      ensures Valid(rows)
      ensures Key(Clients, client) !in old(rows) ==> result == NotFound
      ensures Key(Clients, client) in old(rows) && BlockingContracts(old(rows), client) != {} ==>
        result == BlockedBySignature(|BlockingContracts(old(rows), client)|)
      ensures Key(Clients, client) in old(rows) && BlockingContracts(old(rows), client) == {} ==>
        && result.Forgotten? && result.name == old(rows)[Key(Clients, client)].body.name
        && rows == Erased(old(rows), client)
        && queue == old(queue) + ReleasedObjects(old(rows), client)
        && result.released == ReleasedObjects(old(rows), client)
        && CountsConserved(old(rows), rows, result.counts)
      ensures !result.Forgotten? ==> rows == old(rows) && queue == old(queue)
    {
      if Key(Clients, client) !in rows {
        return NotFound;
      }
      assert RowOk(Clients, rows[Key(Clients, client)]);
      var name := rows[Key(Clients, client)].body.name;
      var signed := ReadSignedContracts(client);
      if |signed| > 0 {
        return BlockedBySignature(|signed|);
      }
      UnblockedHasNoSignatures(rows, client);
      ReportedCountsConserved(rows, client);
      PlanCommits(rows, client);
      var counts, released := EraseUnblocked(client, PlanOf(rows, client));
      result := Forgotten(name, counts, released);
    }

    /** The contracts the dialog warns about: the numbers of exactly those the write counts, in the order
        of the database's collation. */
    method ListErasureBlockingContracts(client: Id, atMost: Collation) returns (numbers: seq<string>)
      requires Valid(rows) && ContractsNumbered(rows) && IsCollation(atMost)
      ensures InOrder(numbers, atMost)
      ensures Elements(numbers) == ContractNumbers(rows, BlockingContracts(rows, client))
      ensures |numbers| == |Elements(numbers)| == |BlockingContracts(rows, client)|
    {
      var blocking := ReadSignedContracts(client);
      NumbersAreDistinct(rows, blocking);
      numbers := SelectNumbers(rows, blocking, atMost);
    }

    /** The owner's action: the typed name is compared before anything is read or deleted further. */
    method ForgetClientAction(client: Id, confirmation: string)
      returns (result: ActionResult, toDrain: set<StoredObject>)
      requires Valid(rows)
      modifies this
      ensures Valid(rows)
      ensures result.Data? ==>
        && result.id == client
        && rows == Erased(old(rows), client) && toDrain == ReleasedObjects(old(rows), client)
        && queue == old(queue) + toDrain
      ensures result.Failed? ==> rows == old(rows) && queue == old(queue) && toDrain == {}
      ensures result == Failed(ClientNotFound) <==> Key(Clients, client) !in old(rows)
      ensures result == Failed(ConfirmationMismatch) <==>
        && Key(Clients, client) in old(rows)
        && Trim(confirmation) != Trim(old(rows)[Key(Clients, client)].body.name)
      ensures result.Failed? && result.error.SignedContracts? <==>
        && Key(Clients, client) in old(rows) && BlockingContracts(old(rows), client) != {}
        && Trim(confirmation) == Trim(old(rows)[Key(Clients, client)].body.name)
      ensures result.Failed? && result.error.SignedContracts? ==>
        result.error.count == |BlockingContracts(old(rows), client)|
      ensures result.Data? && !Padded(confirmation) && !Padded(old(rows)[Key(Clients, client)].body.name) ==>
        confirmation == old(rows)[Key(Clients, client)].body.name
    {
      toDrain := {};
      if Key(Clients, client) !in rows {
        return Failed(ClientNotFound), {};
      }
      assert RowOk(Clients, rows[Key(Clients, client)]);
      var name := rows[Key(Clients, client)].body.name;
      ghost var i, j := TrimExactly(confirmation);
      ghost var m, n := TrimExactly(name);
      if Trim(confirmation) != Trim(name) {
        return Failed(ConfirmationMismatch), {};
      }
      var forgotten := ForgetClientWrite(client);
      match forgotten {
        case NotFound => result := Failed(ClientNotFound);
        case BlockedBySignature(count) => result := Failed(SignedContracts(count));
        case Forgotten(_, _, released) =>
          result := Data(client);
          toDrain := released;
      }
    }
  }

}
