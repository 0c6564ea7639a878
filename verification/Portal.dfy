/** The client portal: its pages over a totally ordered list, the credit notes it groups by invoice, and
    the outstanding total it shows beside any page. */
module Portal {
  import opened Wrappers
  import opened Money
  import opened Settlement

  // The order and the pages.

  const PORTAL_PAGE_SIZE := 10

  /** Newest first, ties broken by id. */
  predicate Before(a: Invoice, b: Invoice) {
    a.created > b.created || (a.created == b.created && a.id > b.id)
  }

  predicate Ordered(rows: seq<Invoice>) {
    forall i, j | 0 <= i < j < |rows| :: Before(rows[i], rows[j])
  }

  /** Newest first. */
  lemma NewestFirst(rows: seq<Invoice>, i: nat, j: nat)
    requires Ordered(rows) && i < j < |rows|
    ensures rows[i].created >= rows[j].created
    ensures rows[i].created == rows[j].created ==> rows[i].id > rows[j].id
  {
    assert Before(rows[i], rows[j]);
  }

  /** The order is total, so two reads of the same rows list them identically. */
  lemma {:induction false} OneOrder(a: seq<Invoice>, b: seq<Invoice>)
    requires Ordered(a) && Ordered(b)
    requires forall row :: row in a <==> row in b
    ensures a == b
    decreases |a|
  {
    EmptyTogether(a, b);
    if a != [] {
      SameFirst(a, b);
      forall row ensures row in a[1..] <==> row in b[1..] {
        RestMembers(a, row);
        RestMembers(b, row);
      }
      OneOrder(a[1..], b[1..]);
      assert a == [a[0]] + a[1..] && b == [b[0]] + b[1..];
    }
  }

  lemma EmptyTogether(a: seq<Invoice>, b: seq<Invoice>)
    requires forall row :: row in a <==> row in b
    ensures a == [] <==> b == []
  {
    if a != [] { assert a[0] in a; }
    if b != [] { assert b[0] in b; }
  }

  lemma FirstComesFirst(rows: seq<Invoice>, row: Invoice)
    requires Ordered(rows) && row in rows
    ensures row == rows[0] || Before(rows[0], row)
  {
  }

  lemma SameFirst(a: seq<Invoice>, b: seq<Invoice>)
    requires Ordered(a) && Ordered(b) && a != [] && b != []
    requires forall row :: row in a <==> row in b
    ensures a[0] == b[0]
  {
    assert a[0] in a && b[0] in b;
    FirstComesFirst(a, b[0]);
    FirstComesFirst(b, a[0]);
  }

  lemma RestMembers(rows: seq<Invoice>, row: Invoice)
    requires Ordered(rows) && rows != []
    ensures row in rows[1..] <==> row in rows && row != rows[0]
  {
  }

  datatype PageWindow = PageWindow(page: nat, pageCount: nat, offset: nat)

  function Min(a: int, b: int): int {
    if a < b then a else b
  }

  function CeilDiv(n: nat, d: nat): nat
    requires d > 0
  {
    (n + d - 1) / d
  }

  function ResolvePortalPage(requested: int, totalRows: nat): (window: PageWindow)
    ensures 1 <= window.page <= window.pageCount
    ensures 1 <= requested <= window.pageCount ==> window.page == requested
    ensures requested > window.pageCount ==> window.page == window.pageCount
    ensures totalRows > 0 ==> window.offset < totalRows
    ensures totalRows <= window.pageCount * PORTAL_PAGE_SIZE
    ensures requested < 1 ==> window.page == 1
    ensures window.pageCount > 1 ==> (window.pageCount - 1) * 10 < totalRows
    ensures window.offset == (window.page - 1) * 10
  {
    var pageCount := Max(1, CeilDiv(totalRows, PORTAL_PAGE_SIZE));
    var page := Min(Max(1, requested), pageCount);
    PageWindow(page, pageCount, (page - 1) * PORTAL_PAGE_SIZE)
  }

  /** LIMIT and OFFSET over the ordered rows, with the page clamped first. */
  function PortalPage<T>(rows: seq<T>, requested: int): seq<T> {
    var offset := Min(ResolvePortalPage(requested, |rows|).offset, |rows|);
    rows[offset..Min(offset + PORTAL_PAGE_SIZE, |rows|)]
  }

  function FirstPages<T>(rows: seq<T>, pages: nat): seq<T> {
    if pages == 0 then [] else FirstPages(rows, pages - 1) + PortalPage(rows, pages)
  }

  lemma {:induction false} FirstPagesArePrefix<T>(rows: seq<T>, pages: nat)
    requires pages <= ResolvePortalPage(1, |rows|).pageCount
    ensures FirstPages(rows, pages) == rows[..Min(pages * PORTAL_PAGE_SIZE, |rows|)]
    decreases pages
  {
    if pages > 0 {
      FirstPagesArePrefix(rows, pages - 1);
      assert ResolvePortalPage(pages, |rows|).page == pages;
    }
  }

  /** Walking from page 1 to the page count shows every row exactly once, in order; a page past the end
      shows the last page, and no page is empty unless the list is. */
  lemma PagesCoverTheList<T>(rows: seq<T>, requested: int)
    ensures FirstPages(rows, ResolvePortalPage(1, |rows|).pageCount) == rows
    ensures requested > ResolvePortalPage(1, |rows|).pageCount ==>
      PortalPage(rows, requested) == PortalPage(rows, ResolvePortalPage(1, |rows|).pageCount)
    ensures rows != [] ==> PortalPage(rows, requested) != []
    ensures |PortalPage(rows, requested)| <= PORTAL_PAGE_SIZE
    ensures 1 <= requested && (requested - 1) * 10 < |rows| ==>
      PortalPage(rows, requested) == rows[(requested - 1) * 10..Min(requested * 10, |rows|)]
  {
    FirstPagesArePrefix(rows, ResolvePortalPage(1, |rows|).pageCount);
  }

  // Credit notes by invoice.

  function NotesOf(notes: seq<CreditNote>, invoice: Id): seq<CreditNote> {
    if notes == [] then []
    else
      var last := notes[|notes| - 1];
      NotesOf(notes[..|notes| - 1], invoice) + if last.invoice == invoice then [last] else []
  }

  /** The grouping loop: each invoice's notes, in the order they were read, under its own id only. */
  method GroupCreditNotesByInvoice(rows: seq<CreditNote>) returns (grouped: map<Id, seq<CreditNote>>)
    ensures forall i :: i in grouped <==> NotesOf(rows, i) != []
    ensures forall i | i in grouped :: grouped[i] == NotesOf(rows, i)
  {
    grouped := map[];
    for n := 0 to |rows|
      invariant forall i :: i in grouped <==> NotesOf(rows[..n], i) != []
      invariant forall i | i in grouped :: grouped[i] == NotesOf(rows[..n], i)
    {
      assert rows[..n + 1][..n] == rows[..n];
      var row := rows[n];
      if row.invoice in grouped {
        grouped := grouped[row.invoice := grouped[row.invoice] + [row]];
      } else {
        grouped := grouped[row.invoice := [row]];
      }
    }
    assert rows[..|rows|] == rows;
  }

  /** Each invoice's notes, in the order they were read. */
  lemma {:induction false} NotesInOrder(earlier: seq<CreditNote>, later: seq<CreditNote>, invoice: Id)
    ensures NotesOf(earlier + later, invoice) == NotesOf(earlier, invoice) + NotesOf(later, invoice)
    decreases |later|
  {
    if later == [] {
      assert earlier + later == earlier && NotesOf(earlier, invoice) + [] == NotesOf(earlier, invoice);
    } else {
      var last := |later| - 1;
      NotesInOrder(earlier, later[..last], invoice);
      assert (earlier + later)[..|earlier + later| - 1] == earlier + later[..last];
    }
  }

  lemma OneNote(note: CreditNote, invoice: Id)
    ensures NotesOf([note], invoice) == if note.invoice == invoice then [note] else []
  {
    assert [note][..0] == [];
  }

  function SumTotals(notes: seq<CreditNote>): int {
    if notes == [] then 0 else SumTotals(notes[..|notes| - 1]) + notes[|notes| - 1].total
  }

  /** The read behind the grouping: the live notes of the invoices shown or owed. */
  function NotesRead(notes: seq<CreditNote>, invoiceIds: set<Id>): seq<CreditNote> {
    if notes == [] then []
    else
      var last := notes[|notes| - 1];
      NotesRead(notes[..|notes| - 1], invoiceIds) +
      if last.invoice in invoiceIds && !last.deleted then [last] else []
  }

  /** Grouping what was read gives an invoice exactly its live credit, whichever others were read. */
  lemma {:induction false} GroupedCredit(notes: seq<CreditNote>, invoiceIds: set<Id>, i: Id)
    requires i in invoiceIds
    ensures SumTotals(NotesOf(NotesRead(notes, invoiceIds), i)) == Credited(notes, i)
    decreases |notes|
  {
    if notes != [] {
      var earlier := NotesRead(notes[..|notes| - 1], invoiceIds);
      var last := notes[|notes| - 1];
      GroupedCredit(notes[..|notes| - 1], invoiceIds, i);
      assert (earlier + [last])[..|earlier|] == earlier;
      assert earlier + [] == earlier;
      assert (NotesOf(earlier, i) + [last])[..|NotesOf(earlier, i)|] == NotesOf(earlier, i);
      assert NotesOf(earlier, i) + [] == NotesOf(earlier, i);
    }
  }

  // The outstanding total.

  datatype Line = Line(currency: string, cents: int)

  /** What the portal quotes for each owed invoice, from the notes read for it and the shown page. */
  function OwedLines(client: Id, invoices: seq<Invoice>, read: seq<CreditNote>): seq<Line> {
    if invoices == [] then []
    else
      var last := invoices[|invoices| - 1];
      OwedLines(client, invoices[..|invoices| - 1], read) +
      if OwedOnPortal(last, client)
      then [Line(last.currency, Owed(last, SumTotals(NotesOf(read, last.id))))] else []
  }

  function Bump(totals: seq<Line>, currency: string, cents: int): seq<Line> {
    if totals == [] then [Line(currency, cents)]
    else if totals[0].currency == currency then [Line(currency, totals[0].cents + cents)] + totals[1..]
    else [totals[0]] + Bump(totals[1..], currency, cents)
  }

  function Summarized(rows: seq<Line>): seq<Line> {
    if rows == [] then []
    else
      var last := rows[|rows| - 1];
      var earlier := Summarized(rows[..|rows| - 1]);
      if last.cents <= 0 then earlier else Bump(earlier, last.currency, last.cents)
  }

  method SummarizePortalOutstanding(rows: seq<Line>) returns (totals: seq<Line>)
    ensures totals == Summarized(rows)
  {
    totals := [];
    for i := 0 to |rows|
      invariant totals == Summarized(rows[..i])
    {
      assert rows[..i + 1][..i] == rows[..i];
      if rows[i].cents > 0 {
        totals := Bump(totals, rows[i].currency, rows[i].cents);
      }
    }
    assert rows[..|rows|] == rows;
  }

  function InCurrency(rows: seq<Line>, currency: string): int {
    if rows == [] then 0
    else
      InCurrency(rows[..|rows| - 1], currency) +
      if rows[|rows| - 1].currency == currency then Max(rows[|rows| - 1].cents, 0) else 0
  }

  function LineFor(totals: seq<Line>, currency: string): int {
    if totals == [] then 0
    else if totals[0].currency == currency then totals[0].cents
    else LineFor(totals[1..], currency)
  }

  lemma {:induction false} BumpLineFor(totals: seq<Line>, currency: string, cents: int, other: string)
    ensures LineFor(Bump(totals, currency, cents), other) ==
            LineFor(totals, other) + if other == currency then cents else 0
    decreases |totals|
  {
    if totals == [] {
      assert Bump(totals, currency, cents)[1..] == [];
    } else if totals[0].currency == currency {
      assert Bump(totals, currency, cents)[1..] == totals[1..];
    } else {
      BumpLineFor(totals[1..], currency, cents, other);
      assert Bump(totals, currency, cents)[1..] == Bump(totals[1..], currency, cents);
    }
  }

  /** Each currency's line is the sum of what is owed in it. */
  lemma {:induction false} SummaryByCurrency(rows: seq<Line>, currency: string)
    ensures LineFor(Summarized(rows), currency) == InCurrency(rows, currency)
    decreases |rows|
  {
    if rows != [] {
      var last := rows[|rows| - 1];
      SummaryByCurrency(rows[..|rows| - 1], currency);
      BumpLineFor(Summarized(rows[..|rows| - 1]), last.currency, last.cents, currency);
    }
  }

  /** The currencies with something to show, as they first come up. */
  function FirstSeen(rows: seq<Line>): seq<string> {
    if rows == [] then []
    else
      var last, earlier := rows[|rows| - 1], FirstSeen(rows[..|rows| - 1]);
      if last.cents <= 0 || last.currency in earlier then earlier else earlier + [last.currency]
  }

  function CurrenciesOf(totals: seq<Line>): seq<string> {
    if totals == [] then [] else [totals[0].currency] + CurrenciesOf(totals[1..])
  }

  lemma {:induction false} BumpKeepsOrder(totals: seq<Line>, currency: string, cents: int)
    ensures
      var before := CurrenciesOf(totals);
      CurrenciesOf(Bump(totals, currency, cents)) == if currency in before then before else before + [currency]
    decreases |totals|
  {
    if totals == [] {
      assert Bump(totals, currency, cents)[1..] == [];
    } else if totals[0].currency == currency {
      assert Bump(totals, currency, cents)[1..] == totals[1..];
    } else {
      BumpKeepsOrder(totals[1..], currency, cents);
      assert Bump(totals, currency, cents)[1..] == Bump(totals[1..], currency, cents);
    }
  }

  /** The lines come in the order their currencies first did. */
  lemma {:induction false} SummaryInOrder(rows: seq<Line>)
    ensures CurrenciesOf(Summarized(rows)) == FirstSeen(rows)
    decreases |rows|
  {
    if rows != [] {
      var last := rows[|rows| - 1];
      SummaryInOrder(rows[..|rows| - 1]);
      BumpKeepsOrder(Summarized(rows[..|rows| - 1]), last.currency, last.cents);
    }
  }

  function Total(rows: seq<Line>): int {
    if rows == [] then 0 else Max(rows[0].cents, 0) + Total(rows[1..])
  }

  predicate OneLinePerCurrency(totals: seq<Line>) {
    && (forall i | 0 <= i < |totals| :: totals[i].cents > 0)
    && forall i, j | 0 <= i < j < |totals| :: totals[i].currency != totals[j].currency
  }

  lemma {:induction false} BumpKeepsLines(totals: seq<Line>, currency: string, cents: int)
    requires OneLinePerCurrency(totals) && cents > 0
    ensures OneLinePerCurrency(Bump(totals, currency, cents))
    ensures Total(Bump(totals, currency, cents)) == Total(totals) + cents
    ensures forall line | line in Bump(totals, currency, cents) ::
      line.currency == currency || line in totals
    decreases |totals|
  {
    if totals == [] {
      assert Bump(totals, currency, cents)[1..] == [];
    } else if totals[0].currency == currency {
      assert Bump(totals, currency, cents)[1..] == totals[1..];
    } else {
      assert forall i | 0 <= i < |totals[1..]| :: totals[1..][i] == totals[i + 1];
      BumpKeepsLines(totals[1..], currency, cents);
      assert Bump(totals, currency, cents)[1..] == Bump(totals[1..], currency, cents);
      assert forall line | line in totals[1..] :: line in totals && line.currency != totals[0].currency;
    }
  }

  /** The summary has one positive line for each currency and loses no cent. */
  lemma {:induction false} SummaryConserves(rows: seq<Line>)
    requires forall i | 0 <= i < |rows| :: rows[i].cents >= 0
    ensures OneLinePerCurrency(Summarized(rows))
    ensures Total(Summarized(rows)) == SumLines(rows)
    decreases |rows|
  {
    if rows != [] {
      var last := rows[|rows| - 1];
      SummaryConserves(rows[..|rows| - 1]);
      if last.cents > 0 {
        BumpKeepsLines(Summarized(rows[..|rows| - 1]), last.currency, last.cents);
      }
    }
  }

  function SumLines(rows: seq<Line>): int {
    if rows == [] then 0 else SumLines(rows[..|rows| - 1]) + rows[|rows| - 1].cents
  }

  lemma {:induction false} OwedLinesSum(client: Id, invoices: seq<Invoice>, notes: seq<CreditNote>, ids: set<Id>)
    requires forall i | 0 <= i < |invoices| && OwedOnPortal(invoices[i], client) :: invoices[i].id in ids
    ensures SumLines(OwedLines(client, invoices, NotesRead(notes, ids))) ==
            PortalTotal(client, invoices, notes)
    ensures forall line | line in OwedLines(client, invoices, NotesRead(notes, ids)) :: line.cents >= 0
    decreases |invoices|
  {
    if invoices != [] {
      var last := invoices[|invoices| - 1];
      var earlier := OwedLines(client, invoices[..|invoices| - 1], NotesRead(notes, ids));
      OwedLinesSum(client, invoices[..|invoices| - 1], notes, ids);
      if OwedOnPortal(last, client) {
        GroupedCredit(notes, ids, last.id);
        var line := Line(last.currency, Owed(last, Credited(notes, last.id)));
        assert (earlier + [line])[..|earlier|] == earlier;
      } else {
        assert earlier + [] == earlier;
      }
    }
  }

  function InvoicesIn(invoices: seq<Invoice>, currency: string): seq<Invoice> {
    if invoices == [] then []
    else
      var last := invoices[|invoices| - 1];
      InvoicesIn(invoices[..|invoices| - 1], currency) + if last.currency == currency then [last] else []
  }

  /** Each currency's line is what the client's sent invoices in that currency still owe. */
  lemma {:induction false} OwedInCurrency(
    client: Id, invoices: seq<Invoice>, notes: seq<CreditNote>, ids: set<Id>, currency: string)
    requires forall i | 0 <= i < |invoices| && OwedOnPortal(invoices[i], client) :: invoices[i].id in ids
    ensures InCurrency(OwedLines(client, invoices, NotesRead(notes, ids)), currency) ==
            PortalTotal(client, InvoicesIn(invoices, currency), notes)
    decreases |invoices|
  {
    if invoices != [] {
      var last := invoices[|invoices| - 1];
      var earlier := OwedLines(client, invoices[..|invoices| - 1], NotesRead(notes, ids));
      var chosen := InvoicesIn(invoices[..|invoices| - 1], currency);
      OwedInCurrency(client, invoices[..|invoices| - 1], notes, ids, currency);
      assert (chosen + [last])[..|chosen|] == chosen && chosen + [] == chosen;
      if OwedOnPortal(last, client) {
        GroupedCredit(notes, ids, last.id);
        var line := Line(last.currency, Owed(last, Credited(notes, last.id)));
        assert (earlier + [line])[..|earlier|] == earlier;
      } else {
        assert earlier + [] == earlier;
      }
    }
  }

  lemma PortalByCurrency(client: Id, invoices: seq<Invoice>, notes: seq<CreditNote>, ids: set<Id>, currency: string)
    requires forall i | 0 <= i < |invoices| && OwedOnPortal(invoices[i], client) :: invoices[i].id in ids
    ensures LineFor(Summarized(OwedLines(client, invoices, NotesRead(notes, ids))), currency) ==
            PortalTotal(client, InvoicesIn(invoices, currency), notes)
  {
    SummaryByCurrency(OwedLines(client, invoices, NotesRead(notes, ids)), currency);
    OwedInCurrency(client, invoices, notes, ids, currency);
  }

  /** Whatever page is shown, the portal's outstanding lines add up to the client's balance exactly when
      no live paid invoice still owes. */
  lemma PortalOutstandingIsBalance(
    client: Id, invoices: seq<Invoice>, notes: seq<CreditNote>, shown: set<Id>, owed: set<Id>)
    requires owed == set i | 0 <= i < |invoices| && OwedOnPortal(invoices[i], client) :: invoices[i].id
    ensures
      var lines := Summarized(OwedLines(client, invoices, NotesRead(notes, shown + owed)));
      && OneLinePerCurrency(lines)
      && (Total(lines) == Balance(client, invoices, notes) <==>
          forall i | 0 <= i < |invoices| :: !PaidAndOwing(invoices[i], client, notes))
  {
    OwedLinesSum(client, invoices, notes, shown + owed);
    SummaryConserves(OwedLines(client, invoices, NotesRead(notes, shown + owed)));
    TotalsAgree(client, invoices, notes);
  }
}
