/** Credit notes and the settlement they re-decide: when a stored `paid` still means nothing is owed, and
    when the portal's total over sent invoices is the dashboard's over sent and paid ones. Invoices and
    notes are numbered by their place. */
module Settlement {
  import opened Wrappers
  import opened Money

  datatype State = State(invoices: seq<Invoice>, notes: seq<CreditNote>, payments: seq<Payment>)

  datatype Event =
    | CreateNote(invoice: Id, total: int)
    | DeleteNote(note: Id)
    | RestoreNote(note: Id)
    | DeleteInvoice(invoice: Id)
    | RestoreInvoice(invoice: Id)

  /** Places are ids, amounts are not negative, and each invoice's aggregate is the sum of its live
      payments. */
  predicate WellNumbered(s: State) {
    && (forall i | 0 <= i < |s.invoices| :: s.invoices[i].paid == Recorded(s.payments, s.invoices[i].id))
    && (forall i | 0 <= i < |s.invoices| :: s.invoices[i].id == i)
    && forall n | 0 <= n < |s.notes| :: s.notes[n].invoice < |s.invoices| && s.notes[n].total >= 0
  }

  /** The settlement rule: a positive total, not overpaid, nothing outstanding. */
  predicate Settled(invoice: Invoice, credited: int) {
    invoice.paid <= invoice.total && invoice.total > 0 && Owed(invoice, credited) == 0
  }

  function ResolveStatus(current: InvoiceStatus, settled: bool): InvoiceStatus {
    if settled then Paid else if current.Paid? then Sent else current
  }

  /** What an invoice still owes, in plain arithmetic. */
  lemma OwedExactly(invoice: Invoice, credited: int)
    ensures Owed(invoice, credited) == 0 <==> invoice.paid + credited >= invoice.total
    ensures invoice.paid + credited < invoice.total ==>
      Owed(invoice, credited) == invoice.total - invoice.paid - credited
  {
  }

  /** The invoice carries `paid`, is paid exactly when that and the credit cover its positive total, and
      nothing else of it or of another invoice changed. */
  ghost predicate Resettled(before: seq<Invoice>, after: seq<Invoice>, i: Id, paid: int, credited: int) {
    && i < |before| == |after|
    && (forall j | 0 <= j < |before| && j != i :: after[j] == before[j])
    && after[i] == before[i].(paid := paid, status := after[i].status)
    && (after[i].status.Paid? <==> before[i].total > 0 && paid <= before[i].total && paid + credited >= before[i].total)
    && (!after[i].status.Paid? ==> after[i].status == if before[i].status.Paid? then Sent else before[i].status)
  }

  /** The settlement decision: the aggregate from the payment rows, the status from it and the credit. */
  function Decided(invoice: Invoice, paid: int, credited: int): Invoice {
    var summed := invoice.(paid := paid);
    summed.(status := ResolveStatus(invoice.status, Settled(summed, credited)))
  }

  /** The invoice is read under a lock that skips soft-deleted ones; a draft is left alone. */
  function Resettle(s: State, i: Id): State
    requires i < |s.invoices|
  {
    var invoice := s.invoices[i];
    if invoice.deleted || invoice.status.Draft? then s
    else
      var decided := Decided(invoice, Recorded(s.payments, invoice.id), Credited(s.notes, invoice.id));
      s.(invoices := s.invoices[i := decided])
  }

  function Step(s: State, e: Event): State
    requires WellNumbered(s)
  {
    match e
    case CreateNote(i, total) =>
      if i >= |s.invoices| || s.invoices[i].deleted || s.invoices[i].status.Draft? || total <= 0 then s
      else Resettle(s.(notes := s.notes + [Posting(|s.notes|, i, total, false)]), i)
    case DeleteNote(n) =>
      if n >= |s.notes| || s.notes[n].deleted then s
      else Resettle(s.(notes := s.notes[n := s.notes[n].(deleted := true)]), s.notes[n].invoice)
    case RestoreNote(n) =>
      if n >= |s.notes| || !s.notes[n].deleted || s.invoices[s.notes[n].invoice].deleted then s
      else Resettle(s.(notes := s.notes[n := s.notes[n].(deleted := false)]), s.notes[n].invoice)
    case DeleteInvoice(i) =>
      if i >= |s.invoices| || s.invoices[i].deleted then s
      else s.(invoices := s.invoices[i := s.invoices[i].(deleted := true)])
    case RestoreInvoice(i) =>
      if i >= |s.invoices| || !s.invoices[i].deleted then s
      else s.(invoices := s.invoices[i := s.invoices[i].(deleted := false)])
  }

  /** The re-settlement of a live issued invoice, from its live payments and notes; any other is left. */
  lemma ResettleLands(s: State, i: Id)
    requires i < |s.invoices| && s.invoices[i].id == i
    ensures
      var after := Resettle(s, i);
      && after.notes == s.notes && after.payments == s.payments
      && if !s.invoices[i].deleted && !s.invoices[i].status.Draft?
         then Resettled(s.invoices, after.invoices, i, Recorded(s.payments, i), Credited(s.notes, i))
         else after.invoices == s.invoices
  {
    OwedExactly(s.invoices[i].(paid := Recorded(s.payments, i)), Credited(s.notes, i));
  }

  /** What a change of the notes leaves: the note as asked, and its invoice re-settled if it is out of the
      trash. */
  ghost predicate NotesAre(s: State, after: State, notes: seq<CreditNote>, i: Id) {
    && i < |s.invoices| && after.notes == notes && after.payments == s.payments
    && if !s.invoices[i].deleted && !s.invoices[i].status.Draft?
       then Resettled(s.invoices, after.invoices, i, s.invoices[i].paid, Credited(notes, i))
       else after.invoices == s.invoices
  }

  lemma NoteLands(s: State, i: Id, total: int)
    requires WellNumbered(s)
    ensures
      var after := Step(s, CreateNote(i, total));
      if i < |s.invoices| && !s.invoices[i].deleted && !s.invoices[i].status.Draft? && total > 0
      then NotesAre(s, after, s.notes + [Posting(|s.notes|, i, total, false)], i)
      else after == s
  {
    if i < |s.invoices| {
      ResettleLands(s.(notes := s.notes + [Posting(|s.notes|, i, total, false)]), i);
    }
  }

  lemma NoteMoves(s: State, n: Id)
    requires WellNumbered(s) && n < |s.notes|
    ensures
      var i, note := s.notes[n].invoice, s.notes[n];
      && (if note.deleted then Step(s, DeleteNote(n)) == s
          else NotesAre(s, Step(s, DeleteNote(n)), s.notes[n := note.(deleted := true)], i))
      && (if !note.deleted || s.invoices[i].deleted then Step(s, RestoreNote(n)) == s
          else NotesAre(s, Step(s, RestoreNote(n)), s.notes[n := note.(deleted := false)], i))
  {
    ResettleLands(s.(notes := s.notes[n := s.notes[n].(deleted := true)]), s.notes[n].invoice);
    ResettleLands(s.(notes := s.notes[n := s.notes[n].(deleted := false)]), s.notes[n].invoice);
  }

  /** The trash takes an invoice and gives it back with all it had, settling nothing. */
  lemma InvoiceMoves(s: State, i: Id)
    requires WellNumbered(s) && i < |s.invoices|
    ensures Step(s, DeleteInvoice(i)) == s.(invoices := s.invoices[i := s.invoices[i].(deleted := true)])
    ensures Step(s, RestoreInvoice(i)) == s.(invoices := s.invoices[i := s.invoices[i].(deleted := false)])
  {
    assert s.invoices[i].deleted ==> s.invoices[i := s.invoices[i].(deleted := true)] == s.invoices;
    assert !s.invoices[i].deleted ==> s.invoices[i := s.invoices[i].(deleted := false)] == s.invoices;
  }

  lemma StepKeepsNumbers(s: State, e: Event)
    requires WellNumbered(s)
    ensures WellNumbered(Step(s, e)) && |Step(s, e).invoices| == |s.invoices|
  {
  }

  function Run(s: State, events: seq<Event>): State
    requires WellNumbered(s)
    ensures WellNumbered(Run(s, events))
    decreases |events|
  {
    if events == [] then s
    else
      StepKeepsNumbers(s, events[0]);
      Run(Step(s, events[0]), events[1..])
  }

  /** An issued invoice is paid exactly when it is settled, in the trash or out of it. */
  predicate PaidIsSettled(s: State) {
    forall i | 0 <= i < |s.invoices| && !s.invoices[i].status.Draft? ::
      s.invoices[i].status.Paid? <==> Settled(s.invoices[i], Credited(s.notes, s.invoices[i].id))
  }

  lemma CreditedAppend(notes: seq<CreditNote>, note: CreditNote, i: Id)
    ensures Credited(notes + [note], i) ==
            Credited(notes, i) + if note.invoice == i && !note.deleted then note.total else 0
  {
  }

  /** Marking one note deleted or live moves its own invoice's credit by its total and no other's. */
  lemma {:induction false} CreditedFlip(notes: seq<CreditNote>, n: nat, gone: bool, i: Id)
    requires n < |notes| && notes[n].deleted == !gone
    ensures Credited(notes[n := notes[n].(deleted := gone)], i) ==
            Credited(notes, i) +
            if notes[n].invoice != i then 0 else if gone then -notes[n].total else notes[n].total
    decreases |notes|
  {
    var flipped := notes[n := notes[n].(deleted := gone)];
    var last := |notes| - 1;
    if n == last {
      assert flipped[..last] == notes[..last];
    } else {
      CreditedFlip(notes[..last], n, gone, i);
      assert flipped[..last] == notes[..last][n := notes[n].(deleted := gone)];
    }
  }

  /** The one step that breaks the rule: withdrawing a live note under a trashed paid invoice that the
      note was covering. */
  predicate Uncovers(s: State, e: Event)
    requires WellNumbered(s)
  {
    && e.DeleteNote? && e.note < |s.notes| && !s.notes[e.note].deleted
    && var invoice := s.invoices[s.notes[e.note].invoice];
       && invoice.deleted && invoice.status.Paid?
       && Owed(invoice, Credited(s.notes, invoice.id) - s.notes[e.note].total) > 0
  }

  lemma ResettleKeepsOthers(s: State, before: State, i: Id)
    requires WellNumbered(s) && i < |s.invoices|
    requires before.invoices == s.invoices && before.payments == s.payments
    requires PaidIsSettled(before)
    requires forall j: Id | j != i :: Credited(s.notes, j) == Credited(before.notes, j)
    requires s.invoices[i].deleted && !s.invoices[i].status.Draft? ==>
      (s.invoices[i].status.Paid? <==> Settled(s.invoices[i], Credited(s.notes, i)))
    ensures PaidIsSettled(Resettle(s, i))
  {
  }

  /** A step keeps the rule exactly when it is not that one. */
  lemma StepKeepsPaidSettled(s: State, e: Event)
    requires WellNumbered(s) && PaidIsSettled(s)
    ensures PaidIsSettled(Step(s, e)) <==> !Uncovers(s, e)
  {
    match e
    case CreateNote(i, total) => CreateKeepsPaidSettled(s, i, total);
    case DeleteNote(n) =>
      if n < |s.notes| && !s.notes[n].deleted {
        DeleteKeepsPaidSettled(s, n);
      }
    case RestoreNote(n) => RestoreKeepsPaidSettled(s, n);
    case DeleteInvoice(_) =>
    case RestoreInvoice(_) =>
  }

  lemma CreateKeepsPaidSettled(s: State, i: Id, total: int)
    requires WellNumbered(s) && PaidIsSettled(s)
    ensures PaidIsSettled(Step(s, CreateNote(i, total)))
  {
    var note := Posting(|s.notes|, i, total, false);
    forall j: Id ensures Credited(s.notes + [note], j) ==
                     Credited(s.notes, j) + if i == j then total else 0 {
      CreditedAppend(s.notes, note, j);
    }
    if Step(s, CreateNote(i, total)) != s {
      ResettleKeepsOthers(s.(notes := s.notes + [note]), s, i);
    }
  }

  lemma RestoreKeepsPaidSettled(s: State, n: Id)
    requires WellNumbered(s) && PaidIsSettled(s)
    ensures PaidIsSettled(Step(s, RestoreNote(n)))
  {
    if n < |s.notes| && s.notes[n].deleted && !s.invoices[s.notes[n].invoice].deleted {
      var notes := s.notes[n := s.notes[n].(deleted := false)];
      forall j: Id | j != s.notes[n].invoice ensures Credited(notes, j) == Credited(s.notes, j) {
        CreditedFlip(s.notes, n, false, j);
      }
      ResettleKeepsOthers(s.(notes := notes), s, s.notes[n].invoice);
    }
  }

  lemma DeleteKeepsPaidSettled(s: State, n: Id)
    requires WellNumbered(s) && PaidIsSettled(s) && n < |s.notes| && !s.notes[n].deleted
    ensures PaidIsSettled(Step(s, DeleteNote(n))) <==> !Uncovers(s, DeleteNote(n))
  {
    var i := s.notes[n].invoice;
    var notes := s.notes[n := s.notes[n].(deleted := true)];
    forall j: Id ensures Credited(notes, j) == Credited(s.notes, j) - if i == j then s.notes[n].total else 0 {
      CreditedFlip(s.notes, n, true, j);
    }
    if Uncovers(s, DeleteNote(n)) {
      assert !Settled(s.invoices[i], Credited(notes, i));
      assert Step(s, DeleteNote(n)).invoices[i] == s.invoices[i];
    } else {
      ResettleKeepsOthers(s.(notes := notes), s, i);
    }
  }

  /** No step of the run withdraws a note that was covering a trashed paid invoice. */
  ghost predicate Covered(s: State, events: seq<Event>)
    requires WellNumbered(s)
    decreases |events|
  {
    events != [] ==>
      && !Uncovers(s, events[0])
      && (StepKeepsNumbers(s, events[0]); Covered(Step(s, events[0]), events[1..]))
  }

  lemma {:induction false} RunKeepsPaidSettled(s: State, events: seq<Event>)
    requires WellNumbered(s) && PaidIsSettled(s) && Covered(s, events)
    ensures PaidIsSettled(Run(s, events))
    decreases |events|
  {
    if events != [] {
      StepKeepsNumbers(s, events[0]);
      StepKeepsPaidSettled(s, events[0]);
      RunKeepsPaidSettled(Step(s, events[0]), events[1..]);
    }
  }

  // The portal's total against the dashboard's.

  predicate OwedOnPortal(invoice: Invoice, client: Id) {
    invoice.client == Some(client) && !invoice.deleted && invoice.status.Sent?
  }

  function PortalTotal(client: Id, invoices: seq<Invoice>, notes: seq<CreditNote>): nat {
    if invoices == [] then 0
    else
      var last := invoices[|invoices| - 1];
      PortalTotal(client, invoices[..|invoices| - 1], notes) +
      if OwedOnPortal(last, client) then Owed(last, Credited(notes, last.id)) else 0
  }

  /** What paid invoices out of the trash still owe: the part the portal does not count. */
  function PaidOwing(client: Id, invoices: seq<Invoice>, notes: seq<CreditNote>): nat {
    if invoices == [] then 0
    else
      var last := invoices[|invoices| - 1];
      PaidOwing(client, invoices[..|invoices| - 1], notes) +
      if last.client == Some(client) && !last.deleted && last.status.Paid?
      then Owed(last, Credited(notes, last.id)) else 0
  }

  lemma {:induction false} BalanceSplits(client: Id, invoices: seq<Invoice>, notes: seq<CreditNote>)
    ensures Balance(client, invoices, notes) ==
            PortalTotal(client, invoices, notes) + PaidOwing(client, invoices, notes)
    decreases |invoices|
  {
    if invoices != [] {
      BalanceSplits(client, invoices[..|invoices| - 1], notes);
    }
  }

  predicate PaidAndOwing(invoice: Invoice, client: Id, notes: seq<CreditNote>) {
    invoice.client == Some(client) && !invoice.deleted && invoice.status.Paid?
    && Owed(invoice, Credited(notes, invoice.id)) > 0
  }

  /** The two totals agree exactly when no live paid invoice of the client still owes. */
  lemma {:induction false} TotalsAgree(client: Id, invoices: seq<Invoice>, notes: seq<CreditNote>)
    ensures PortalTotal(client, invoices, notes) <= Balance(client, invoices, notes)
    ensures PortalTotal(client, invoices, notes) == Balance(client, invoices, notes) <==>
            forall i | 0 <= i < |invoices| :: !PaidAndOwing(invoices[i], client, notes)
    decreases |invoices|
  {
    if invoices != [] {
      var last := |invoices| - 1;
      TotalsAgree(client, invoices[..last], notes);
      assert forall i | 0 <= i < last :: invoices[..last][i] == invoices[i];
    }
  }

  /** Over any covered run, the portal and the dashboard quote every client the same balance. */
  lemma PortalMatchesDashboard(s: State, events: seq<Event>, client: Id)
    requires WellNumbered(s) && PaidIsSettled(s) && Covered(s, events)
    ensures
      var after := Run(s, events);
      PortalTotal(client, after.invoices, after.notes) == Balance(client, after.invoices, after.notes)
  {
    RunKeepsPaidSettled(s, events);
    var after := Run(s, events);
    TotalsAgree(client, after.invoices, after.notes);
  }

  function Hundred(client: Id, status: InvoiceStatus, deleted: bool): Invoice {
    Invoice(0, Some(client), status, "EUR", 100, 0, deleted, 0)
  }

  /** One invoice of a hundred and its one full note. */
  function Single(client: Id, status: InvoiceStatus, trashed: bool, withdrawn: bool): State {
    State([Hundred(client, status, trashed)], [Posting(0, 0, 100, withdrawn)], [])
  }

  lemma SingleCredit(client: Id, status: InvoiceStatus, trashed: bool, withdrawn: bool)
    ensures
      var s := Single(client, status, trashed, withdrawn);
      WellNumbered(s) && Credited(s.notes, 0) == if withdrawn then 0 else 100
  {
    assert Single(client, status, trashed, withdrawn).notes[..0] == [];
  }

  lemma FullNoteSettles(client: Id)
    ensures
      var s := State([Hundred(client, Sent, false)], [], []);
      WellNumbered(s) && PaidIsSettled(s) && Step(s, CreateNote(0, 100)) == Single(client, Paid, false, false)
  {
    SingleCredit(client, Sent, false, false);
    assert [] + [Posting(0, 0, 100, false)] == [Posting(0, 0, 100, false)];
    assert Resettle(Single(client, Sent, false, false), 0).invoices == [Hundred(client, Paid, false)];
  }

  lemma TrashedNoteGoes(client: Id)
    ensures WellNumbered(Single(client, Paid, false, false)) && WellNumbered(Single(client, Paid, true, false))
    ensures WellNumbered(Single(client, Paid, true, true))
    ensures Step(Single(client, Paid, false, false), DeleteInvoice(0)) == Single(client, Paid, true, false)
    ensures Step(Single(client, Paid, true, false), DeleteNote(0)) == Single(client, Paid, true, true)
    ensures Step(Single(client, Paid, true, true), RestoreInvoice(0)) == Single(client, Paid, false, true)
  {
    SingleCredit(client, Paid, false, false);
    SingleCredit(client, Paid, true, false);
    SingleCredit(client, Paid, true, true);
    assert Step(Single(client, Paid, false, false), DeleteInvoice(0)).invoices == [Hundred(client, Paid, true)];
    assert Step(Single(client, Paid, true, false), DeleteNote(0)).notes == [Posting(0, 0, 100, true)];
    assert Step(Single(client, Paid, true, true), RestoreInvoice(0)).invoices == [Hundred(client, Paid, false)];
  }

  lemma PaidNoteGoes(client: Id)
    ensures WellNumbered(Single(client, Paid, false, false))
    ensures Run(Single(client, Paid, false, false), [DeleteInvoice(0), DeleteNote(0), RestoreInvoice(0)])
            == Single(client, Paid, false, true)
  {
    TrashedNoteGoes(client);
    RunStarts(Single(client, Paid, false, false), DeleteInvoice(0), [DeleteNote(0), RestoreInvoice(0)]);
    RunStarts(Single(client, Paid, true, false), DeleteNote(0), [RestoreInvoice(0)]);
    RunStarts(Single(client, Paid, true, true), RestoreInvoice(0), []);
    assert [DeleteInvoice(0), DeleteNote(0), RestoreInvoice(0)] ==
           [DeleteInvoice(0)] + [DeleteNote(0), RestoreInvoice(0)];
  }

  /** The gap is real: credit a sent invoice in full, trash it, withdraw the note and restore it. */
  lemma RestoredPaidInvoiceOwes(client: Id)
    ensures
      var s := State([Hundred(client, Sent, false)], [], []);
      && WellNumbered(s) && PaidIsSettled(s)
      && var after := Run(s, [CreateNote(0, 100), DeleteInvoice(0), DeleteNote(0), RestoreInvoice(0)]);
         && after.invoices == [Hundred(client, Paid, false)]
         && PortalTotal(client, after.invoices, after.notes) == 0
         && Balance(client, after.invoices, after.notes) == 100
  {
    var s := State([Hundred(client, Sent, false)], [], []);
    FullNoteSettles(client);
    var rest := [DeleteInvoice(0), DeleteNote(0), RestoreInvoice(0)];
    RunStarts(s, CreateNote(0, 100), rest);
    PaidNoteGoes(client);
    assert [CreateNote(0, 100), DeleteInvoice(0), DeleteNote(0), RestoreInvoice(0)] == [CreateNote(0, 100)] + rest;
    SingleTotals(client);
  }

  lemma SingleTotals(client: Id)
    ensures
      var s := Single(client, Paid, false, true);
      PortalTotal(client, s.invoices, s.notes) == 0 && Balance(client, s.invoices, s.notes) == 100
  {
    SingleCredit(client, Paid, false, true);
    assert Single(client, Paid, false, true).invoices[..0] == [];
  }

  lemma RunStarts(s: State, e: Event, rest: seq<Event>)
    requires WellNumbered(s)
    ensures WellNumbered(Step(s, e)) && Run(s, [e] + rest) == Run(Step(s, e), rest)
  {
    StepKeepsNumbers(s, e);
    assert ([e] + rest)[1..] == rest;
  }
}
