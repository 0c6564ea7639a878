/** The grouped, left-joined queries behind the client list, its summary band and the client page, as
    operations on row sequences, against the plain sum they stand for. */
module Balances {
  import opened Wrappers
  import opened Money

  // The relational operators the queries use.

  datatype Row = Row(key: Id, value: int)

  /** GROUP BY key with SUM(value): one group for each key, in order of first appearance. */
  function GroupSum(rows: seq<Row>): seq<Row> {
    if rows == [] then []
    else AddTo(GroupSum(rows[..|rows| - 1]), rows[|rows| - 1])
  }

  function AddTo(groups: seq<Row>, row: Row): seq<Row> {
    if groups == [] then [row]
    else if groups[0].key == row.key then [Row(row.key, groups[0].value + row.value)] + groups[1..]
    else [groups[0]] + AddTo(groups[1..], row)
  }

  /** What a LEFT JOIN finds for one row: every group with its key, or a single NULL. */
  function Matches(groups: seq<Row>, key: Id): seq<Option<int>> {
    var found := Found(groups, key);
    if found == [] then [None] else found
  }

  function Found(groups: seq<Row>, key: Id): seq<Option<int>> {
    if groups == [] then []
    else (if groups[0].key == key then [Some(groups[0].value)] else []) + Found(groups[1..], key)
  }

  function Coalesce(value: Option<int>): int {
    if value.Some? then value.value else 0
  }

  function SumOf(rows: seq<Row>, key: Id): int {
    if rows == [] then 0
    else
      var last := rows[|rows| - 1];
      SumOf(rows[..|rows| - 1], key) + if last.key == key then last.value else 0
  }

  /** A LEFT JOIN against the groups of a GROUP BY gives exactly one row, with the sum of the rows that
      share its key: no fan-out and nothing lost. */
  predicate JoinsOnce(groups: seq<Row>, key: Id, sum: int) {
    |Matches(groups, key)| == 1 && Coalesce(Matches(groups, key)[0]) == sum
  }

  lemma {:induction false} AddToFound(groups: seq<Row>, row: Row, key: Id)
    requires |Found(groups, key)| <= 1
    ensures Found(AddTo(groups, row), key) ==
      if row.key != key then Found(groups, key)
      else [Some(Coalesce(Matches(groups, key)[0]) + row.value)]
    decreases |groups|
  {
    if groups == [] {
      assert AddTo(groups, row)[1..] == [];
    } else if groups[0].key == row.key {
      assert AddTo(groups, row)[1..] == groups[1..];
      NotFoundTwice(groups, key);
    } else {
      AddToFound(groups[1..], row, key);
      assert AddTo(groups, row)[1..] == AddTo(groups[1..], row);
      NotFoundTwice(groups, key);
    }
  }

  lemma NotFoundTwice(groups: seq<Row>, key: Id)
    requires groups != [] && |Found(groups, key)| <= 1
    ensures groups[0].key == key ==> Found(groups[1..], key) == []
  {
  }

  lemma {:induction false} GroupsJoinOnce(rows: seq<Row>, key: Id)
    ensures |Found(GroupSum(rows), key)| <= 1
    ensures JoinsOnce(GroupSum(rows), key, SumOf(rows, key))
    decreases |rows|
  {
    if rows != [] {
      GroupsJoinOnce(rows[..|rows| - 1], key);
      AddToFound(GroupSum(rows[..|rows| - 1]), rows[|rows| - 1], key);
    }
  }

  // The subqueries.

  function CreditRows(notes: seq<CreditNote>): seq<Row> {
    if notes == [] then []
    else
      var last := notes[|notes| - 1];
      CreditRows(notes[..|notes| - 1]) + if last.deleted then [] else [Row(last.invoice, last.total)]
  }

  /** The rows one invoice contributes: one for each match of its credited total. */
  function OwedRows(invoice: Invoice, credited: seq<Option<int>>): seq<Row> {
    if credited == [] then []
    else
      [Row(invoice.client.UnwrapOr(0), Max(invoice.total - Coalesce(credited[0]) - invoice.paid, 0))] +
      OwedRows(invoice, credited[1..])
  }

  predicate Outstanding(invoice: Invoice) {
    invoice.client.Some? && !invoice.deleted && invoice.status in {Sent, Paid}
  }

  function JoinedRows(invoices: seq<Invoice>, credited: seq<Row>): seq<Row> {
    if invoices == [] then []
    else
      var last := invoices[|invoices| - 1];
      JoinedRows(invoices[..|invoices| - 1], credited) +
      if Outstanding(last) then OwedRows(last, Matches(credited, last.id)) else []
  }

  function ClientOutstanding(invoices: seq<Invoice>, notes: seq<CreditNote>): seq<Row> {
    GroupSum(JoinedRows(invoices, GroupSum(CreditRows(notes))))
  }

  function CountRows(invoices: seq<Invoice>): seq<Row> {
    if invoices == [] then []
    else
      var last := invoices[|invoices| - 1];
      CountRows(invoices[..|invoices| - 1]) +
      if last.client.Some? && !last.deleted then [Row(last.client.value, 1)] else []
  }

  function ClientInvoiceCounts(invoices: seq<Invoice>): seq<Row> {
    GroupSum(CountRows(invoices))
  }

  lemma SumOfAppend(rows: seq<Row>, row: Row, key: Id)
    ensures SumOf(rows + [row], key) == SumOf(rows, key) + if row.key == key then row.value else 0
  {
  }

  lemma {:induction false} CreditRowsSum(notes: seq<CreditNote>, invoice: Id)
    ensures SumOf(CreditRows(notes), invoice) == Credited(notes, invoice)
    decreases |notes|
  {
    if notes != [] {
      var last := notes[|notes| - 1];
      CreditRowsSum(notes[..|notes| - 1], invoice);
      SumOfAppend(CreditRows(notes[..|notes| - 1]), Row(last.invoice, last.total), invoice);
      assert CreditRows(notes[..|notes| - 1]) + [] == CreditRows(notes[..|notes| - 1]);
    }
  }

  /** Each qualifying invoice contributes one row, with what it still owes. */
  lemma InvoiceContributesOnce(invoice: Invoice, notes: seq<CreditNote>)
    requires Outstanding(invoice)
    ensures OwedRows(invoice, Matches(GroupSum(CreditRows(notes)), invoice.id)) ==
            [Row(invoice.client.value, Owed(invoice, Credited(notes, invoice.id)))]
  {
    GroupsJoinOnce(CreditRows(notes), invoice.id);
    CreditRowsSum(notes, invoice.id);
    var matches := Matches(GroupSum(CreditRows(notes)), invoice.id);
    assert matches[1..] == [];
  }

  lemma {:induction false} JoinedRowsSum(invoices: seq<Invoice>, notes: seq<CreditNote>, client: Id)
    ensures SumOf(JoinedRows(invoices, GroupSum(CreditRows(notes))), client) ==
            Balance(client, invoices, notes)
    decreases |invoices|
  {
    if invoices != [] {
      var last := invoices[|invoices| - 1];
      var earlier := JoinedRows(invoices[..|invoices| - 1], GroupSum(CreditRows(notes)));
      JoinedRowsSum(invoices[..|invoices| - 1], notes, client);
      if Outstanding(last) {
        InvoiceContributesOnce(last, notes);
        SumOfAppend(earlier, Row(last.client.value, Owed(last, Credited(notes, last.id))), client);
      } else {
        assert earlier + [] == earlier;
      }
    }
  }

  lemma {:induction false} CountRowsSum(invoices: seq<Invoice>, client: Id)
    ensures SumOf(CountRows(invoices), client) == InvoiceCount(client, invoices)
    decreases |invoices|
  {
    if invoices != [] {
      var last, earlier := invoices[|invoices| - 1], CountRows(invoices[..|invoices| - 1]);
      CountRowsSum(invoices[..|invoices| - 1], client);
      if last.client.Some? && !last.deleted {
        SumOfAppend(earlier, Row(last.client.value, 1), client);
      } else {
        assert earlier + [] == earlier;
      }
    }
  }

  /** The grouped form is the plain sum, for every client, whatever the rows: joining it yields one row
      holding the balance. */
  lemma SubqueryIsBalance(invoices: seq<Invoice>, notes: seq<CreditNote>, client: Id)
    ensures JoinsOnce(ClientOutstanding(invoices, notes), client, Balance(client, invoices, notes))
    ensures JoinsOnce(ClientInvoiceCounts(invoices), client, InvoiceCount(client, invoices))
  {
    GroupsJoinOnce(JoinedRows(invoices, GroupSum(CreditRows(notes))), client);
    JoinedRowsSum(invoices, notes, client);
    GroupsJoinOnce(CountRows(invoices), client);
    CountRowsSum(invoices, client);
  }

  // The three reads.

  datatype Client = Client(id: Id, deleted: bool)

  datatype ClientRow = ClientRow(client: Client, balance: int, invoiceCount: int)

  /** The two left joins of one client row: every match of the balances with every match of the counts. */
  function JoinedClient(client: Client, balances: seq<Option<int>>, counts: seq<Option<int>>): seq<ClientRow> {
    if balances == [] then []
    else WithCounts(client, balances[0], counts) + JoinedClient(client, balances[1..], counts)
  }

  function WithCounts(client: Client, balance: Option<int>, counts: seq<Option<int>>): seq<ClientRow> {
    if counts == [] then []
    else
      [ClientRow(client, Coalesce(balance), Coalesce(counts[0]))] + WithCounts(client, balance, counts[1..])
  }

  function JoinedClients(clients: seq<Client>, invoices: seq<Invoice>, notes: seq<CreditNote>): seq<ClientRow> {
    if clients == [] then []
    else
      var last := clients[|clients| - 1];
      JoinedClients(clients[..|clients| - 1], invoices, notes) +
      JoinedClient(last, Matches(ClientOutstanding(invoices, notes), last.id),
                   Matches(ClientInvoiceCounts(invoices), last.id))
  }

  function Select(rows: seq<ClientRow>, keep: ClientRow -> bool): seq<ClientRow> {
    if rows == [] then []
    else
      Select(rows[..|rows| - 1], keep) + if keep(rows[|rows| - 1]) then [rows[|rows| - 1]] else []
  }

  /** The client list before sorting and paging: the joins, then the WHERE clause over the joined row. */
  function ListClients(
    clients: seq<Client>, invoices: seq<Invoice>, notes: seq<CreditNote>, where: ClientRow -> bool)
    : seq<ClientRow>
  {
    Select(JoinedClients(clients, invoices, notes), where)
  }

  predicate IsLive(row: ClientRow) {
    !row.client.deleted
  }

  function IsPageOf(id: Id): ClientRow -> bool {
    (row: ClientRow) => row.client.id == id && !row.client.deleted
  }

  function SummaryRows(clients: seq<Client>, invoices: seq<Invoice>, notes: seq<CreditNote>): seq<ClientRow> {
    ListClients(clients, invoices, notes, IsLive)
  }

  function DetailBalance(clients: seq<Client>, invoices: seq<Invoice>, notes: seq<CreditNote>, id: Id): int {
    var rows := ListClients(clients, invoices, notes, IsPageOf(id));
    if rows == [] then 0 else rows[0].balance
  }

  /** The row every view should show for a client. */
  function Expected(client: Client, invoices: seq<Invoice>, notes: seq<CreditNote>): ClientRow {
    ClientRow(client, Balance(client.id, invoices, notes), InvoiceCount(client.id, invoices))
  }

  lemma ClientJoinsOnce(client: Client, invoices: seq<Invoice>, notes: seq<CreditNote>)
    ensures JoinedClient(client, Matches(ClientOutstanding(invoices, notes), client.id),
                         Matches(ClientInvoiceCounts(invoices), client.id)) ==
            [Expected(client, invoices, notes)]
  {
    SubqueryIsBalance(invoices, notes, client.id);
    var balances := Matches(ClientOutstanding(invoices, notes), client.id);
    var counts := Matches(ClientInvoiceCounts(invoices), client.id);
    assert balances[1..] == [] && counts[1..] == [];
    assert WithCounts(client, balances[0], counts) == [Expected(client, invoices, notes)];
  }

  lemma LastClientJoins(clients: seq<Client>, invoices: seq<Invoice>, notes: seq<CreditNote>)
    requires clients != []
    ensures
      var last := |clients| - 1;
      JoinedClients(clients, invoices, notes) ==
      JoinedClients(clients[..last], invoices, notes) + [Expected(clients[last], invoices, notes)]
  {
    ClientJoinsOnce(clients[|clients| - 1], invoices, notes);
  }

  function ExpectedRows(clients: seq<Client>, invoices: seq<Invoice>, notes: seq<CreditNote>): seq<ClientRow> {
    if clients == [] then []
    else
      ExpectedRows(clients[..|clients| - 1], invoices, notes)
      + [Expected(clients[|clients| - 1], invoices, notes)]
  }

  lemma {:induction false} EachClientJoins(clients: seq<Client>, invoices: seq<Invoice>, notes: seq<CreditNote>)
    ensures JoinedClients(clients, invoices, notes) == ExpectedRows(clients, invoices, notes)
    decreases |clients|
  {
    if clients != [] {
      LastClientJoins(clients, invoices, notes);
      EachClientJoins(clients[..|clients| - 1], invoices, notes);
    }
  }

  lemma {:induction false} ExpectedRowAt(
      clients: seq<Client>, invoices: seq<Invoice>, notes: seq<CreditNote>, i: nat)
    ensures |ExpectedRows(clients, invoices, notes)| == |clients|
    ensures i < |clients| ==> ExpectedRows(clients, invoices, notes)[i] == Expected(clients[i], invoices, notes)
    decreases |clients|
  {
    if clients != [] {
      var earlier := clients[..|clients| - 1];
      ExpectedRowAt(earlier, invoices, notes, i);
      assert i < |earlier| ==> earlier[i] == clients[i];
    }
  }

  /** The joins neither repeat nor lose a client, and each row carries the plain balance and count. */
  lemma JoinedClientsExact(clients: seq<Client>, invoices: seq<Invoice>, notes: seq<CreditNote>)
    ensures |JoinedClients(clients, invoices, notes)| == |clients|
    ensures forall i | 0 <= i < |clients| ::
      JoinedClients(clients, invoices, notes)[i] == Expected(clients[i], invoices, notes)
  {
    EachClientJoins(clients, invoices, notes);
    ExpectedRowAt(clients, invoices, notes, 0);
    forall i | 0 <= i < |clients|
      ensures ExpectedRows(clients, invoices, notes)[i] == Expected(clients[i], invoices, notes)
    {
      ExpectedRowAt(clients, invoices, notes, i);
    }
  }

  lemma {:induction false} SelectMembers(rows: seq<ClientRow>, keep: ClientRow -> bool, row: ClientRow)
    ensures row in Select(rows, keep) <==> row in rows && keep(row)
    decreases |rows|
  {
    if rows != [] {
      SelectMembers(rows[..|rows| - 1], keep, row);
      assert rows == rows[..|rows| - 1] + [rows[|rows| - 1]];
    }
  }

  /** A selection keeps the order of the rows and each as often as it was. */
  lemma {:induction false} SelectInOrder(earlier: seq<ClientRow>, later: seq<ClientRow>, keep: ClientRow -> bool)
    ensures Select(earlier + later, keep) == Select(earlier, keep) + Select(later, keep)
    decreases |later|
  {
    if later == [] {
      assert earlier + later == earlier && Select(earlier, keep) + [] == Select(earlier, keep);
    } else {
      var last := |later| - 1;
      SelectInOrder(earlier, later[..last], keep);
      assert (earlier + later)[..|earlier + later| - 1] == earlier + later[..last];
    }
  }

  lemma SelectOne(row: ClientRow, keep: ClientRow -> bool)
    ensures Select([row], keep) == if keep(row) then [row] else []
  {
    assert [row][..0] == [];
  }

  /** List, summary and client page agree: whatever the filter, a row shown for a client is the expected
      one, the summary holds every live client, and the page shows the same balance for a live client
      and nothing owed for a deleted one. */
  lemma ViewsAgree(
    clients: seq<Client>, invoices: seq<Invoice>, notes: seq<CreditNote>, where: ClientRow -> bool,
    client: Client, balance: int, invoiceCount: int)
    requires client in clients && forall c | c in clients && c.id == client.id :: c == client
    ensures ClientRow(client, balance, invoiceCount) in ListClients(clients, invoices, notes, where) <==>
            ClientRow(client, balance, invoiceCount) == Expected(client, invoices, notes)
            && where(Expected(client, invoices, notes))
    ensures Expected(client, invoices, notes) in SummaryRows(clients, invoices, notes) <==> !client.deleted
    ensures DetailBalance(clients, invoices, notes, client.id) ==
            if client.deleted then 0 else Balance(client.id, invoices, notes)
  {
    var joined := JoinedClients(clients, invoices, notes);
    var shown := ClientRow(client, balance, invoiceCount);
    var expected := Expected(client, invoices, notes);
    JoinedClientsExact(clients, invoices, notes);
    var i :| 0 <= i < |clients| && clients[i] == client;
    assert joined[i] == expected;
    SelectMembers(joined, where, shown);
    SelectMembers(joined, IsLive, expected);
    var detail := IsPageOf(client.id);
    SelectMembers(joined, detail, expected);
    var rows := Select(joined, detail);
    assert DetailBalance(clients, invoices, notes, client.id) == if rows == [] then 0 else rows[0].balance;
    if rows != [] {
      SelectMembers(joined, detail, rows[0]);
      var j :| 0 <= j < |joined| && joined[j] == rows[0];
      assert joined[j] == Expected(clients[j], invoices, notes) && clients[j].id == client.id;
    }
  }

  // Health.

  datatype Health = Owing | Settled | Dormant

  function GetClientHealth(balance: int, invoiceCount: int): Health {
    if balance > 0 then Owing else if invoiceCount > 0 then Settled else Dormant
  }

  /** One disjunct of the health filter, as SQL evaluates it. */
  predicate Holds(part: Health, balance: int, invoiceCount: int) {
    match part
    case Owing => balance > 0
    case Settled => balance == 0 && invoiceCount > 0
    case Dormant => balance == 0 && invoiceCount == 0
  }

  predicate AnyHolds(parts: seq<Health>, balance: int, invoiceCount: int) {
    exists i | 0 <= i < |parts| :: Holds(parts[i], balance, invoiceCount)
  }

  /** The filter's disjuncts, or None for no condition at all. For every row the joins can produce, it
      admits the row exactly when its badge is one of those asked for. */
  method GetClientHealthCondition(healths: seq<Health>) returns (condition: Option<seq<Health>>)
    ensures condition.None? <==> healths == []
    ensures forall client: Client, invoices, notes ::
      var row := Expected(client, invoices, notes);
      condition.Some? ==>
        (AnyHolds(condition.value, row.balance, row.invoiceCount) <==>
         GetClientHealth(row.balance, row.invoiceCount) in healths)
    ensures forall client: Client, invoices, notes ::
      var row := Expected(client, invoices, notes);
      condition.Some? ==>
        (AnyHolds(condition.value, row.balance, row.invoiceCount) <==>
          || (row.balance > 0 && Owing in healths)
          || (row.balance == 0 && row.invoiceCount > 0 && Health.Settled in healths)
          || (row.balance == 0 && row.invoiceCount == 0 && Dormant in healths))
  {
    if |healths| == 0 {
      return None;
    }
    var parts := [];
    for i := 0 to |healths|
      invariant parts == healths[..i]
    {
      parts := parts + [healths[i]];
    }
    condition := Some(parts);
    forall balance: nat, invoiceCount: nat
      ensures AnyHolds(parts, balance, invoiceCount) <==> GetClientHealth(balance, invoiceCount) in healths
    {
      HealthPartsExact(parts, balance, invoiceCount);
    }
  }

  lemma HealthPartsExact(parts: seq<Health>, balance: nat, invoiceCount: nat)
    ensures AnyHolds(parts, balance, invoiceCount) <==> GetClientHealth(balance, invoiceCount) in parts
  {
  }

  /** The loop form of the sum over one client's invoices, credit totals already at hand. */
  method CalculateOutstandingBalance(invoices: seq<Invoice>, notes: seq<CreditNote>, client: Id)
    returns (outstanding: nat)
    requires forall i | 0 <= i < |invoices| :: invoices[i].client == Some(client) && !invoices[i].deleted
    ensures outstanding == Balance(client, invoices, notes)
  {
    outstanding := 0;
    for i := 0 to |invoices|
      invariant outstanding == Balance(client, invoices[..i], notes)
    {
      assert invoices[..i + 1][..i] == invoices[..i];
      if invoices[i].status in {Sent, Paid} {
        outstanding := outstanding + Owed(invoices[i], Credited(notes, invoices[i].id));
      }
    }
    assert invoices[..|invoices|] == invoices;
  }
}
