/** What payments, credit notes and the trash do to the stored fields when nothing interferes, and when
    the overpayment check lets a payment through. */
module PaymentEffects {
  import opened Wrappers
  import opened Money
  import opened InvoiceLock
  import Settlement

  // The overpayment check.

  /** A transaction that holds the lock is turned away exactly when its change adds money and what is
      recorded would pass the invoice's total: paying exactly the rest is accepted. */
  lemma DecideAccepts(s: Session, tx: Id)
    requires Wellformed(s) && tx in s.open && s.open[tx].Holding?
    ensures
      var change, after := s.open[tx].change, Step(s, Decide(tx));
      var i := InvoiceOf(s.rows, change);
      var fits :=
        || change.AddNote? || change.WithdrawNote? || change.BringBackNote? || change.WithdrawPayment?
        || Recorded(s.rows.payments, i) + PaidDelta(s.rows, change) <= s.rows.invoices[i].total;
      && after.rows == s.rows
      && (fits ==> tx in after.open && after.open[tx].Decision? && after.open[tx].change == change)
      && (!fits ==> after.open == s.open - {tx})
  {
    ChangeMovesOneInvoice(s.rows, s.open[tx].change, InvoiceOf(s.rows, s.open[tx].change));
  }

  // One change alone.

  function Steps(change: Change): seq<InvoiceLock.Event> {
    [Begin(1, change), Lock(1), Decide(1), Commit(1)]
  }

  ghost function Alone(rows: Settlement.State, change: Change): Settlement.State
    requires Inv(Session(rows, map[]))
  {
    Run(Session(rows, map[]), Steps(change)).rows
  }

  lemma RunStarts(s: Session, e: InvoiceLock.Event, rest: seq<InvoiceLock.Event>)
    requires Inv(s)
    ensures Inv(Step(s, e)) && Run(s, [e] + rest) == Run(Step(s, e), rest)
  {
    StepKeepsInv(s, e);
    assert ([e] + rest)[1..] == rest;
  }

  /** Begun, locked, decided and committed with nothing in between. */
  lemma AloneCommits(rows: Settlement.State, change: Change)
    requires Inv(Session(rows, map[])) && Admitted(rows, change)
    requires !rows.invoices[InvoiceOf(rows, change)].deleted
    ensures
      Alone(rows, change) ==
        if MayOverpay(change) && Decided(rows, change).paid > Decided(rows, change).total then rows
        else Committed(rows, change, Decided(rows, change))
  {
    AloneHolds(rows, change);
    HeldCommits(rows, change);
  }

  lemma AloneHolds(rows: Settlement.State, change: Change)
    requires Inv(Session(rows, map[])) && Admitted(rows, change)
    requires !rows.invoices[InvoiceOf(rows, change)].deleted
    ensures Inv(Session(rows, map[1 := Holding(change)]))
    ensures Alone(rows, change) == Run(Session(rows, map[1 := Holding(change)]), [Decide(1), Commit(1)]).rows
  {
    var start, begun := Session(rows, map[]), Session(rows, map[1 := Wrote(change)]);
    AloneBegins(rows, change);
    RunStarts(start, Begin(1, change), [Lock(1), Decide(1), Commit(1)]);
    BegunLocks(rows, change);
    RunStarts(begun, Lock(1), [Decide(1), Commit(1)]);
    assert Steps(change) == [Begin(1, change)] + [Lock(1), Decide(1), Commit(1)];
    assert [Lock(1), Decide(1), Commit(1)] == [Lock(1)] + [Decide(1), Commit(1)];
  }

  lemma AloneBegins(rows: Settlement.State, change: Change)
    requires Wellformed(Session(rows, map[])) && Admitted(rows, change)
    requires !rows.invoices[InvoiceOf(rows, change)].deleted
    ensures InvoiceLock.Step(Session(rows, map[]), Begin(1, change)) == Session(rows, map[1 := Wrote(change)])
  {
  }

  lemma BegunLocks(rows: Settlement.State, change: Change)
    requires Wellformed(Session(rows, map[1 := Wrote(change)])) && Admitted(rows, change)
    requires !rows.invoices[InvoiceOf(rows, change)].deleted
    ensures InvoiceLock.Step(Session(rows, map[1 := Wrote(change)]), Lock(1)) ==
            Session(rows, map[1 := Holding(change)])
  {
    assert map[1 := Wrote(change)][1 := Holding(change)] == map[1 := Holding(change)];
  }

  lemma HeldCommits(rows: Settlement.State, change: Change)
    requires Inv(Session(rows, map[1 := Holding(change)]))
    ensures
      Run(Session(rows, map[1 := Holding(change)]), [Decide(1), Commit(1)]).rows ==
        if MayOverpay(change) && Decided(rows, change).paid > Decided(rows, change).total then rows
        else Committed(rows, change, Decided(rows, change))
  {
    var held := Session(rows, map[1 := Holding(change)]);
    assert Admitted(rows, held.open[1].change);
    RunStarts(held, Decide(1), [Commit(1)]);
    RunStarts(InvoiceLock.Step(held, Decide(1)), Commit(1), []);
    assert [Decide(1), Commit(1)] == [Decide(1)] + [Commit(1)] && [Commit(1)] == [Commit(1)] + [];
  }

  // What each change leaves, field by field.

  /** An issued invoice out of the trash. */
  predicate Open(rows: Settlement.State, i: Id) {
    i < |rows.invoices| && !rows.invoices[i].deleted && !rows.invoices[i].status.Draft?
  }

  lemma DecidedResettles(rows: Settlement.State, change: Change)
    requires Settlement.WellNumbered(rows) && Admitted(rows, change)
    ensures
      var i := InvoiceOf(rows, change);
      Settlement.Resettled(rows.invoices, Committed(rows, change, Decided(rows, change)).invoices, i,
                rows.invoices[i].paid + PaidDelta(rows, change),
                Credited(rows.notes, i) + CreditDelta(rows, change))
  {
    var i := InvoiceOf(rows, change);
    ChangeMovesOneInvoice(rows, change, i);
    Settlement.OwedExactly(rows.invoices[i].(paid := rows.invoices[i].paid + PaidDelta(rows, change)),
                           Credited(rows.notes, i) + CreditDelta(rows, change));
  }

  /** A payment that fits under the total, the whole outstanding rest included, is stored and pays its
      invoice exactly when payments and credits then cover it; a larger one changes nothing. */
  lemma PaymentAlone(rows: Settlement.State, i: Id, total: int)
    requires Inv(Session(rows, map[])) && Open(rows, i) && total > 0
    ensures
      var after := Alone(rows, AddPayment(i, total));
      if rows.invoices[i].paid + total <= rows.invoices[i].total then
        && after.payments == rows.payments + [Posting(|rows.payments|, i, total, false)]
        && after.notes == rows.notes
        && Settlement.Resettled(
             rows.invoices, after.invoices, i, rows.invoices[i].paid + total, Credited(rows.notes, i))
      else after == rows
  {
    AloneCommits(rows, AddPayment(i, total));
    DecidedResettles(rows, AddPayment(i, total));
    ChangeMovesOneInvoice(rows, AddPayment(i, total), i);
  }

  /** So does an edited amount, in place of the one it replaces. */
  lemma EditAlone(rows: Settlement.State, k: Id, total: int)
    requires Inv(Session(rows, map[])) && k < |rows.payments| && !rows.payments[k].deleted && total > 0
    requires Open(rows, rows.payments[k].invoice)
    ensures
      var i := rows.payments[k].invoice;
      var after, paid := Alone(rows, EditPayment(k, total)), rows.invoices[i].paid - rows.payments[k].total + total;
      if paid <= rows.invoices[i].total then
        && after.payments == rows.payments[k := rows.payments[k].(total := total)] && after.notes == rows.notes
        && Settlement.Resettled(rows.invoices, after.invoices, i, paid, Credited(rows.notes, i))
      else after == rows
  {
    AloneCommits(rows, EditPayment(k, total));
    DecidedResettles(rows, EditPayment(k, total));
    ChangeMovesOneInvoice(rows, EditPayment(k, total), rows.payments[k].invoice);
  }

  /** And a payment brought back from the trash. */
  lemma RestoredPaymentAlone(rows: Settlement.State, k: Id)
    requires Inv(Session(rows, map[])) && k < |rows.payments| && rows.payments[k].deleted
    requires Open(rows, rows.payments[k].invoice)
    ensures
      var i := rows.payments[k].invoice;
      var after, paid := Alone(rows, BringBackPayment(k)), rows.invoices[i].paid + rows.payments[k].total;
      if paid <= rows.invoices[i].total then
        && after.payments == rows.payments[k := rows.payments[k].(deleted := false)] && after.notes == rows.notes
        && Settlement.Resettled(rows.invoices, after.invoices, i, paid, Credited(rows.notes, i))
      else after == rows
  {
    AloneCommits(rows, BringBackPayment(k));
    DecidedResettles(rows, BringBackPayment(k));
    ChangeMovesOneInvoice(rows, BringBackPayment(k), rows.payments[k].invoice);
  }

  /** A withdrawn payment is never refused. */
  lemma WithdrawnPaymentAlone(rows: Settlement.State, k: Id)
    requires Inv(Session(rows, map[])) && k < |rows.payments| && !rows.payments[k].deleted
    requires Open(rows, rows.payments[k].invoice)
    ensures
      var i, after := rows.payments[k].invoice, Alone(rows, WithdrawPayment(k));
      && after.payments == rows.payments[k := rows.payments[k].(deleted := true)] && after.notes == rows.notes
      && Settlement.Resettled(rows.invoices, after.invoices, i, rows.invoices[i].paid - rows.payments[k].total,
                   Credited(rows.notes, i))
  {
    AloneCommits(rows, WithdrawPayment(k));
    DecidedResettles(rows, WithdrawPayment(k));
  }

  /** A credit note is never refused, and settles its invoice when it covers what is left. */
  lemma NoteAlone(rows: Settlement.State, i: Id, total: int)
    requires Inv(Session(rows, map[])) && Open(rows, i) && total > 0
    ensures
      var after := Alone(rows, AddNote(i, total));
      && after.notes == rows.notes + [Posting(|rows.notes|, i, total, false)] && after.payments == rows.payments
      && Settlement.Resettled(rows.invoices, after.invoices, i, rows.invoices[i].paid, Credited(rows.notes, i) + total)
  {
    AloneCommits(rows, AddNote(i, total));
    DecidedResettles(rows, AddNote(i, total));
  }

  lemma WithdrawnNoteAlone(rows: Settlement.State, n: Id)
    requires Inv(Session(rows, map[])) && n < |rows.notes| && !rows.notes[n].deleted
    requires Open(rows, rows.notes[n].invoice)
    ensures
      var i, after := rows.notes[n].invoice, Alone(rows, WithdrawNote(n));
      && after.notes == rows.notes[n := rows.notes[n].(deleted := true)] && after.payments == rows.payments
      && Settlement.Resettled(rows.invoices, after.invoices, i, rows.invoices[i].paid,
                   Credited(rows.notes, i) - rows.notes[n].total)
  {
    AloneCommits(rows, WithdrawNote(n));
    DecidedResettles(rows, WithdrawNote(n));
  }

  lemma RestoredNoteAlone(rows: Settlement.State, n: Id)
    requires Inv(Session(rows, map[])) && n < |rows.notes| && rows.notes[n].deleted
    requires Open(rows, rows.notes[n].invoice)
    ensures
      var i, after := rows.notes[n].invoice, Alone(rows, BringBackNote(n));
      && after.notes == rows.notes[n := rows.notes[n].(deleted := false)] && after.payments == rows.payments
      && Settlement.Resettled(rows.invoices, after.invoices, i, rows.invoices[i].paid,
                   Credited(rows.notes, i) + rows.notes[n].total)
  {
    AloneCommits(rows, BringBackNote(n));
    DecidedResettles(rows, BringBackNote(n));
  }

  // Before the lock, and under the trash.

  /** Another transaction has a change of the same stored row open. */
  ghost predicate RowTaken(s: Session, change: Change) {
    exists t | t in s.open :: ChangesSameRow(s.open[t].change, change)
  }

  predicate ChangesSameRow(one: Change, other: Change) {
    match other
    case AddNote(_, _) => false
    case AddPayment(_, _) => false
    case WithdrawNote(n) => one == WithdrawNote(n) || one == BringBackNote(n)
    case BringBackNote(n) => one == WithdrawNote(n) || one == BringBackNote(n)
    case _ => (one.EditPayment? || one.WithdrawPayment? || one.BringBackPayment?) && one.row == other.row
  }

  predicate Stands(postings: seq<Posting>, n: Id, gone: bool) {
    n < |postings| && postings[n].deleted == gone
  }

  predicate IssuedInvoice(rows: Settlement.State, i: Id) {
    i < |rows.invoices| && !rows.invoices[i].status.Draft?
  }

  /** A change starts when what it is about is there and nobody else is changing it; a new note and one
      brought back also look at the trash first. A transaction given up leaves no trace. */
  lemma ChangeBegins(s: Session, tx: Id, change: Change)
    requires Wellformed(s) && tx !in s.open
    ensures
      var notes, payments, invoices := s.rows.notes, s.rows.payments, s.rows.invoices;
      var due :=
        match change
        case AddNote(i, total) => total > 0 && IssuedInvoice(s.rows, i) && !invoices[i].deleted
        case WithdrawNote(n) => Stands(notes, n, false) && IssuedInvoice(s.rows, notes[n].invoice)
        case BringBackNote(n) =>
          && Stands(notes, n, true) && IssuedInvoice(s.rows, notes[n].invoice)
          && !invoices[notes[n].invoice].deleted
        case AddPayment(i, total) => total > 0 && IssuedInvoice(s.rows, i)
        case EditPayment(k, total) =>
          total > 0 && Stands(payments, k, false) && IssuedInvoice(s.rows, payments[k].invoice)
        case WithdrawPayment(k) => Stands(payments, k, false) && IssuedInvoice(s.rows, payments[k].invoice)
        case BringBackPayment(k) => Stands(payments, k, true) && IssuedInvoice(s.rows, payments[k].invoice);
      InvoiceLock.Step(s, Begin(tx, change)) ==
        if due && !RowTaken(s, change) then s.(open := s.open[tx := Wrote(change)]) else s
    ensures
      var begun := InvoiceLock.Step(s, Begin(tx, change));
      Wellformed(begun) && InvoiceLock.Step(begun, Abort(tx)) == s
  {
    TakenIsNotFree(s, change);
    assert s.open - {tx} == s.open && s.open[tx := Wrote(change)] - {tx} == s.open;
  }

  lemma TakenIsNotFree(s: Session, change: Change)
    ensures RowTaken(s, change) <==> !RowFree(s, change)
  {
    forall t | t in s.open
      ensures ChangesSameRow(s.open[t].change, change) <==> SameRow(s.open[t].change, change)
    {
    }
  }

  /** An invoice nobody holds goes into the trash and comes back with all it had; one that is held waits. */
  lemma TrashMoves(s: Session, i: Id, gone: bool)
    requires Wellformed(s) && i < |s.rows.invoices| && s.rows.invoices[i].deleted == !gone
    ensures
      var after := InvoiceLock.Step(s, if gone then Trash(i) else Untrash(i));
      if exists t | t in s.open ::
           (s.open[t].Holding? || s.open[t].Decision?) && InvoiceOf(s.rows, s.open[t].change) == i
      then after == s
      else
        && after.open == s.open && after.rows.notes == s.rows.notes && after.rows.payments == s.rows.payments
        && after.rows.invoices == s.rows.invoices[i := s.rows.invoices[i].(deleted := gone)]
  {
  }

  /** A transaction gets the lock of a live invoice when nobody has it, and waits while somebody does. */
  lemma LockIsTaken(s: Session, tx: Id)
    requires Wellformed(s) && tx in s.open && s.open[tx].Wrote?
    requires !s.rows.invoices[InvoiceOf(s.rows, s.open[tx].change)].deleted
    ensures
      var i := InvoiceOf(s.rows, s.open[tx].change);
      InvoiceLock.Step(s, Lock(tx)) ==
        if exists t | t in s.open ::
             (s.open[t].Holding? || s.open[t].Decision?) && InvoiceOf(s.rows, s.open[t].change) == i
        then s
        else s.(open := s.open[tx := Holding(s.open[tx].change)])
  {
  }

  /** At the lock of a trashed invoice a payment ends, and a note goes on without settling anything. */
  lemma LockFindsTrash(s: Session, tx: Id)
    requires Wellformed(s) && tx in s.open && s.open[tx].Wrote?
    requires s.rows.invoices[InvoiceOf(s.rows, s.open[tx].change)].deleted
    ensures
      var change, after := s.open[tx].change, InvoiceLock.Step(s, Lock(tx));
      && after.rows == s.rows
      && if change.AddNote? || change.WithdrawNote? || change.BringBackNote?
         then after.open == s.open[tx := Unsettled(change)] else after.open == s.open - {tx}
  {
  }

  /** What a note without its settlement leaves. */
  lemma UnsettledNoteCommits(s: Session, tx: Id)
    requires Wellformed(s) && tx in s.open && s.open[tx].Unsettled? && !OnPayments(s.open[tx].change)
    ensures
      var change, after := s.open[tx].change, InvoiceLock.Step(s, Commit(tx));
      && after.rows.invoices == s.rows.invoices && after.rows.payments == s.rows.payments
      && after.open == s.open - {tx}
      && after.rows.notes ==
         match change
         case AddNote(i, total) => s.rows.notes + [Posting(|s.rows.notes|, i, total, false)]
         case BringBackNote(n) => s.rows.notes[n := s.rows.notes[n].(deleted := false)]
         case WithdrawNote(n) => s.rows.notes[n := s.rows.notes[n].(deleted := true)]
         case _ => []
  {
    var i := InvoiceOf(s.rows, s.open[tx].change);
    assert s.rows.invoices[i := s.rows.invoices[i]] == s.rows.invoices;
  }
}
