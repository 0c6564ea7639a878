/** What a client owes, stated as the plain nested sum every money view stands for. */
module Money {
  import opened Wrappers

  type Id = nat

  datatype InvoiceStatus = Draft | Sent | Paid

  datatype Invoice = Invoice(
    id: Id, client: Option<Id>, status: InvoiceStatus, currency: string, total: int, paid: int,
    deleted: bool, created: nat)

  /** An amount posted against an invoice: a credit note or a payment. */
  datatype Posting = Posting(id: Id, invoice: Id, total: int, deleted: bool)

  type CreditNote = Posting

  type Payment = Posting

  /** The live credit notes of one invoice. */
  function Credited(notes: seq<CreditNote>, invoice: Id): int {
    if notes == [] then 0
    else
      var last := notes[|notes| - 1];
      Credited(notes[..|notes| - 1], invoice) +
      if last.invoice == invoice && !last.deleted then last.total else 0
  }

  /** The live payments of one invoice add up the same way. */
  function Recorded(payments: seq<Payment>, invoice: Id): int {
    Credited(payments, invoice)
  }

  function Max(a: int, b: int): int {
    if a > b then a else b
  }

  function Owed(invoice: Invoice, credited: int): nat {
    Max(invoice.total - credited - invoice.paid, 0)
  }

  predicate Counts(invoice: Invoice, client: Id) {
    invoice.client == Some(client) && !invoice.deleted && invoice.status in {Sent, Paid}
  }

  /** A client's balance: over its live sent and paid invoices, what each still owes. */
  function Balance(client: Id, invoices: seq<Invoice>, notes: seq<CreditNote>): nat {
    if invoices == [] then 0
    else
      var last := invoices[|invoices| - 1];
      Balance(client, invoices[..|invoices| - 1], notes) +
      if Counts(last, client) then Owed(last, Credited(notes, last.id)) else 0
  }

  /** The three sums, one posting or one invoice at a time. An invoice's live postings count. */
  lemma CreditAddsUp(notes: seq<CreditNote>, note: CreditNote, i: Id)
    ensures Credited([], i) == 0
    ensures Credited(notes + [note], i) ==
            Credited(notes, i) + if note.invoice == i && !note.deleted then note.total else 0
  {
    assert (notes + [note])[..|notes|] == notes;
  }

  /** Of a client's invoices those out of the trash, sent or paid, count with what they still owe. */
  lemma BalanceAddsUp(client: Id, invoices: seq<Invoice>, notes: seq<CreditNote>, invoice: Invoice)
    ensures Balance(client, [], notes) == 0
    ensures
      var rest := invoice.total - Credited(notes, invoice.id) - invoice.paid;
      var owes := invoice.client == Some(client) && !invoice.deleted && !invoice.status.Draft? && rest > 0;
      Balance(client, invoices + [invoice], notes) ==
      Balance(client, invoices, notes) + if owes then rest else 0
  {
    assert (invoices + [invoice])[..|invoices|] == invoices;
  }

  lemma CountAddsUp(client: Id, invoices: seq<Invoice>, invoice: Invoice)
    ensures InvoiceCount(client, []) == 0
    ensures InvoiceCount(client, invoices + [invoice]) ==
            InvoiceCount(client, invoices) + if invoice.client == Some(client) && !invoice.deleted then 1 else 0
  {
    assert (invoices + [invoice])[..|invoices|] == invoices;
  }

  function InvoiceCount(client: Id, invoices: seq<Invoice>): nat {
    if invoices == [] then 0
    else
      var last := invoices[|invoices| - 1];
      InvoiceCount(client, invoices[..|invoices| - 1]) +
      if last.client == Some(client) && !last.deleted then 1 else 0
  }
}
