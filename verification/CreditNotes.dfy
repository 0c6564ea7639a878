/** The credit-note actions as written: the note's row first, the invoice's settlement re-decided behind
    it in the same transaction. */
module CreditNotes {
  import opened Money
  import opened Settlement

  class Ledger {
    var invoices: seq<Invoice>
    var notes: seq<CreditNote>
    var payments: seq<Payment>

    ghost function Rows(): State
      reads this
    {
      State(invoices, notes, payments)
    }

    constructor (invoices: seq<Invoice>, payments: seq<Payment>)
      ensures Rows() == State(invoices, [], payments)
    {
      this.invoices, notes, this.payments := invoices, [], payments;
    }

    static method SumLive(postings: seq<Posting>, invoice: Id) returns (total: int)
      ensures total == Credited(postings, invoice)
    {
      total := 0;
      for n := 0 to |postings|
        invariant total == Credited(postings[..n], invoice)
      {
        assert postings[..n + 1][..n] == postings[..n];
        if postings[n].invoice == invoice && !postings[n].deleted {
          total := total + postings[n].total;
        }
      }
      assert postings[..|postings|] == postings;
    }

    method ResettleInvoiceWrite(i: Id)
      requires i < |invoices| && invoices[i].id == i
      modifies this`invoices
      ensures Rows() == Resettle(old(Rows()), i)
      ensures !old(invoices)[i].deleted && !old(invoices)[i].status.Draft? ==>
        Resettled(old(invoices), invoices, i, Recorded(payments, i), Credited(notes, i))
      ensures old(invoices)[i].deleted || old(invoices)[i].status.Draft? ==> invoices == old(invoices)
    {
      ResettleLands(Rows(), i);
      var invoice := invoices[i];
      if invoice.deleted || invoice.status.Draft? {
        return;
      }
      var paid := SumLive(payments, i);
      var credited := SumLive(notes, i);
      var settled := Settled(invoice.(paid := paid), credited);
      invoices := invoices[i := invoice.(paid := paid, status := ResolveStatus(invoice.status, settled))];
    }

    method CreateCreditNote(i: Id, total: int) returns (created: bool)
      requires WellNumbered(Rows())
      modifies this
      ensures Rows() == Step(old(Rows()), CreateNote(i, total)) && WellNumbered(Rows())
      ensures created <==>
        i < |old(invoices)| && !old(invoices)[i].deleted && !old(invoices)[i].status.Draft? && total > 0
      ensures created ==> NotesAre(old(Rows()), Rows(), old(notes) + [Posting(|old(notes)|, i, total, false)], i)
      ensures !created ==> Rows() == old(Rows())
      ensures PaidIsSettled(old(Rows())) ==> PaidIsSettled(Rows())
    {
      ghost var before := Rows();
      NoteLands(before, i, total);
      StepKeepsNumbers(before, CreateNote(i, total));
      if PaidIsSettled(before) {
        StepKeepsPaidSettled(before, CreateNote(i, total));
      }
      if i >= |invoices| || invoices[i].deleted || invoices[i].status.Draft? || total <= 0 {
        return false;
      }
      notes := notes + [Posting(|notes|, i, total, false)];
      ResettleInvoiceWrite(i);
      created := true;
    }

    method SoftDeleteCreditNote(n: Id) returns (deleted: bool)
      requires WellNumbered(Rows())
      modifies this
      ensures Rows() == Step(old(Rows()), DeleteNote(n)) && WellNumbered(Rows())
      ensures deleted <==> n < |old(notes)| && !old(notes)[n].deleted
      ensures deleted ==>
        NotesAre(old(Rows()), Rows(), old(notes)[n := old(notes)[n].(deleted := true)], old(notes)[n].invoice)
      ensures !deleted ==> Rows() == old(Rows())
      ensures PaidIsSettled(old(Rows())) ==> (PaidIsSettled(Rows()) <==> !Uncovers(old(Rows()), DeleteNote(n)))
    {
      ghost var before := Rows();
      if n < |notes| { NoteMoves(before, n); }
      StepKeepsNumbers(before, DeleteNote(n));
      if PaidIsSettled(before) {
        StepKeepsPaidSettled(before, DeleteNote(n));
      }
      if n >= |notes| || notes[n].deleted {
        return false;
      }
      notes := notes[n := notes[n].(deleted := true)];
      ResettleInvoiceWrite(notes[n].invoice);
      deleted := true;
    }

    method RestoreCreditNote(n: Id) returns (restored: bool)
      requires WellNumbered(Rows())
      modifies this
      ensures Rows() == Step(old(Rows()), RestoreNote(n)) && WellNumbered(Rows())
      ensures restored <==>
        n < |old(notes)| && old(notes)[n].deleted && !old(invoices)[old(notes)[n].invoice].deleted
      ensures restored ==>
        NotesAre(old(Rows()), Rows(), old(notes)[n := old(notes)[n].(deleted := false)], old(notes)[n].invoice)
      ensures !restored ==> Rows() == old(Rows())
      ensures PaidIsSettled(old(Rows())) ==> PaidIsSettled(Rows())
    {
      ghost var before := Rows();
      if n < |notes| { NoteMoves(before, n); }
      StepKeepsNumbers(before, RestoreNote(n));
      if PaidIsSettled(before) {
        StepKeepsPaidSettled(before, RestoreNote(n));
      }
      if n >= |notes| || !notes[n].deleted || invoices[notes[n].invoice].deleted {
        return false;
      }
      notes := notes[n := notes[n].(deleted := false)];
      ResettleInvoiceWrite(notes[n].invoice);
      restored := true;
    }
  }
}
