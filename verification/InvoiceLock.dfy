/** Payments, credit notes and the trash over many concurrent transactions on issued invoices. Each change
    writes its own row, takes the invoice's lock if the invoice is out of the trash, decides the settlement
    from the committed rows and its own, and commits; only the lock keeps two decisions on one invoice
    apart. */
module InvoiceLock {
  import opened Wrappers
  import opened Money
  import opened Settlement

  datatype Change =
    | AddNote(invoice: Id, total: int)
    | WithdrawNote(row: Id)
    | BringBackNote(row: Id)
    | AddPayment(invoice: Id, total: int)
    | EditPayment(row: Id, total: int)
    | WithdrawPayment(row: Id)
    | BringBackPayment(row: Id)

  /** `Decision` carries the invoice as the transaction is about to write it. `Unsettled` found its invoice
      in the trash, so it holds no lock and will write its note alone. */
  datatype Transaction =
    | Wrote(change: Change)
    | Holding(change: Change)
    | Decision(change: Change, invoice: Invoice)
    | Unsettled(change: Change)

  datatype Session = Session(rows: State, open: map<Id, Transaction>)

  datatype Event =
    | Begin(tx: Id, change: Change)
    | Lock(tx: Id)
    | Decide(tx: Id)
    | Commit(tx: Id)
    | Abort(tx: Id)
    | Trash(invoice: Id)
    | Untrash(invoice: Id)

  predicate OnPayments(change: Change) {
    change.AddPayment? || change.EditPayment? || change.WithdrawPayment? || change.BringBackPayment?
  }

  predicate Adds(change: Change) {
    change.AddNote? || change.AddPayment?
  }

  predicate BringsBack(change: Change) {
    change.BringBackNote? || change.BringBackPayment?
  }

  /** The changes that are refused when they would overpay. */
  predicate MayOverpay(change: Change) {
    change.AddPayment? || change.EditPayment? || change.BringBackPayment?
  }

  function Postings(rows: State, change: Change): seq<Posting> {
    if OnPayments(change) then rows.payments else rows.notes
  }

  predicate Issued(rows: State, i: Id) {
    i < |rows.invoices| && !rows.invoices[i].status.Draft?
  }

  /** A change the stored rows admit: a positive new amount on an issued invoice, or a row of one that is
      there to edit, to withdraw or to bring back. */
  predicate Admitted(rows: State, change: Change) {
    if Adds(change) then change.total > 0 && Issued(rows, change.invoice)
    else
      var postings := Postings(rows, change);
      && change.row < |postings| && Issued(rows, postings[change.row].invoice)
      && postings[change.row].deleted == BringsBack(change)
      && (change.EditPayment? ==> change.total > 0)
  }

  function InvoiceOf(rows: State, change: Change): Id
    requires Admitted(rows, change)
  {
    if Adds(change) then change.invoice else Postings(rows, change)[change.row].invoice
  }

  /** The two credit-note actions that look at the trash before they start. The others find out at the
      lock. */
  predicate LooksFirst(change: Change) {
    change.AddNote? || change.BringBackNote?
  }

  /** The rows with a change in them, settlement aside. */
  function Applied(postings: seq<Posting>, change: Change): seq<Posting>
    requires Adds(change) || change.row < |postings|
  {
    if Adds(change) then postings + [Posting(|postings|, change.invoice, change.total, false)]
    else if change.EditPayment? then postings[change.row := postings[change.row].(total := change.total)]
    else postings[change.row := postings[change.row].(deleted := !BringsBack(change))]
  }

  /** How much a change adds to its invoice's live postings. */
  function Delta(rows: State, change: Change): int
    requires Admitted(rows, change)
  {
    if Adds(change) then change.total
    else
      var before := Postings(rows, change)[change.row].total;
      if change.EditPayment? then change.total - before else if BringsBack(change) then before else -before
  }

  function CreditDelta(rows: State, change: Change): int
    requires Admitted(rows, change)
  {
    if OnPayments(change) then 0 else Delta(rows, change)
  }

  function PaidDelta(rows: State, change: Change): int
    requires Admitted(rows, change)
  {
    if OnPayments(change) then Delta(rows, change) else 0
  }

  /** What the transaction sees: the committed rows with its own change in them. */
  function OwnPayments(rows: State, change: Change): seq<Payment>
    requires Admitted(rows, change)
  {
    if OnPayments(change) then Applied(rows.payments, change) else rows.payments
  }

  function OwnNotes(rows: State, change: Change): seq<CreditNote>
    requires Admitted(rows, change)
  {
    if OnPayments(change) then rows.notes else Applied(rows.notes, change)
  }

  /** The invoice as the settlement decision of a change would write it. */
  function Decided(rows: State, change: Change): Invoice
    requires Admitted(rows, change)
  {
    var i := InvoiceOf(rows, change);
    Settlement.Decided(rows.invoices[i],
      Recorded(OwnPayments(rows, change), i), Credited(OwnNotes(rows, change), i))
  }

  function Committed(rows: State, change: Change, invoice: Invoice): State
    requires Admitted(rows, change)
  {
    State(rows.invoices[InvoiceOf(rows, change) := invoice], OwnNotes(rows, change), OwnPayments(rows, change))
  }

  /** Two changes of one stored row. */
  predicate SameRow(one: Change, other: Change) {
    !Adds(one) && !Adds(other) && OnPayments(one) == OnPayments(other) && one.row == other.row
  }

  predicate RowFree(s: Session, change: Change) {
    forall tx | tx in s.open :: !SameRow(s.open[tx].change, change)
  }

  predicate HoldsLock(t: Transaction) {
    t.Holding? || t.Decision?
  }

  ghost predicate Wellformed(s: Session) {
    WellNumbered(s.rows) && forall tx | tx in s.open :: Admitted(s.rows, s.open[tx].change)
  }

  ghost predicate InvoiceFree(s: Session, i: Id)
    requires Wellformed(s)
  {
    forall tx | tx in s.open && HoldsLock(s.open[tx]) :: InvoiceOf(s.rows, s.open[tx].change) != i
  }

  function Marked(rows: State, i: Id, gone: bool): State
    requires i < |rows.invoices|
  {
    rows.(invoices := rows.invoices[i := rows.invoices[i].(deleted := gone)])
  }

  /** The invoice row a commit leaves: the decision, or the row as it stands. */
  function LeavesInvoice(s: Session, tx: Id): Invoice
    requires tx in s.open && Admitted(s.rows, s.open[tx].change)
  {
    if s.open[tx].Decision? then s.open[tx].invoice
    else s.rows.invoices[InvoiceOf(s.rows, s.open[tx].change)]
  }

  predicate Ready(s: Session, tx: Id) {
    tx in s.open && (s.open[tx].Decision? || s.open[tx].Unsettled?)
  }

  /** Moving an invoice into the trash or out of it waits for its lock. */
  ghost function TrashStep(s: Session, i: Id, gone: bool): Session
    requires Wellformed(s)
  {
    if i >= |s.rows.invoices| || s.rows.invoices[i].deleted == gone || !InvoiceFree(s, i) then s
    else s.(rows := Marked(s.rows, i, gone))
  }

  ghost function LockStep(s: Session, tx: Id): Session
    requires Wellformed(s) && tx in s.open && s.open[tx].Wrote?
  {
    var change := s.open[tx].change;
    var i := InvoiceOf(s.rows, change);
    if s.rows.invoices[i].deleted then
      s.(open := if OnPayments(change) then s.open - {tx} else s.open[tx := Unsettled(change)])
    else if InvoiceFree(s, i) then s.(open := s.open[tx := Holding(change)])
    else s
  }

  ghost function Step(s: Session, e: Event): Session
    requires Wellformed(s)
  {
    match e
    case Begin(tx, change) =>
      if tx in s.open || !Admitted(s.rows, change) || !RowFree(s, change) then s
      else if LooksFirst(change) && s.rows.invoices[InvoiceOf(s.rows, change)].deleted then s
      else s.(open := s.open[tx := Wrote(change)])
    case Lock(tx) =>
      if tx in s.open && s.open[tx].Wrote? then LockStep(s, tx) else s
    case Decide(tx) =>
      if tx !in s.open || !s.open[tx].Holding? then s
      else
        var change := s.open[tx].change;
        var invoice := Decided(s.rows, change);
        if MayOverpay(change) && invoice.paid > invoice.total then s.(open := s.open - {tx})
        else s.(open := s.open[tx := Decision(change, invoice)])
    case Commit(tx) =>
      if !Ready(s, tx) then s
      else Session(Committed(s.rows, s.open[tx].change, LeavesInvoice(s, tx)), s.open - {tx})
    case Abort(tx) => s.(open := s.open - {tx})
    case Trash(i) => TrashStep(s, i, true)
    case Untrash(i) => TrashStep(s, i, false)
  }

  // What a change does to the sums.

  /** Editing one row's amount moves its own invoice's sum by the difference. */
  lemma {:induction false} CreditedEdit(postings: seq<Posting>, n: nat, total: int, i: Id)
    requires n < |postings| && !postings[n].deleted
    ensures Credited(postings[n := postings[n].(total := total)], i) ==
            Credited(postings, i) + if postings[n].invoice == i then total - postings[n].total else 0
    decreases |postings|
  {
    var edited := postings[n := postings[n].(total := total)];
    var last := |postings| - 1;
    if n == last {
      assert edited[..last] == postings[..last];
    } else {
      CreditedEdit(postings[..last], n, total, i);
      assert edited[..last] == postings[..last][n := postings[n].(total := total)];
    }
  }

  lemma AppliedMovesOneSum(rows: State, change: Change, j: Id)
    requires Admitted(rows, change)
    ensures
      Credited(Applied(Postings(rows, change), change), j) ==
      Credited(Postings(rows, change), j) + if j == InvoiceOf(rows, change) then Delta(rows, change) else 0
  {
    var postings := Postings(rows, change);
    if Adds(change) {
      CreditedAppend(postings, Posting(|postings|, change.invoice, change.total, false), j);
    } else if change.EditPayment? {
      CreditedEdit(postings, change.row, change.total, j);
    } else {
      CreditedFlip(postings, change.row, !BringsBack(change), j);
    }
  }

  lemma ChangeMovesOneInvoice(rows: State, change: Change, j: Id)
    requires Admitted(rows, change)
    ensures
      var here := j == InvoiceOf(rows, change);
      && Credited(OwnNotes(rows, change), j) ==
         Credited(rows.notes, j) + (if here then CreditDelta(rows, change) else 0)
      && Recorded(OwnPayments(rows, change), j) ==
         Recorded(rows.payments, j) + (if here then PaidDelta(rows, change) else 0)
  {
    AppliedMovesOneSum(rows, change, j);
  }

  // What every state keeps.

  /** No issued invoice carries more than its total, and amounts paid are positive. */
  predicate NotOverpaid(rows: State) {
    && (forall i | 0 <= i < |rows.invoices| && !rows.invoices[i].status.Draft? ::
          rows.invoices[i].paid <= rows.invoices[i].total)
    && forall k | 0 <= k < |rows.payments| :: rows.payments[k].total > 0
  }

  /** A decision's status aside, it is what the committed rows and its own change say. */
  predicate PaidFits(rows: State, change: Change, invoice: Invoice)
    requires Admitted(rows, change)
  {
    && invoice == Decided(rows, change).(status := invoice.status)
    && !invoice.status.Draft? && invoice.paid <= invoice.total
  }

  predicate Apart(rows: State, one: Transaction, other: Transaction)
    requires Admitted(rows, one.change) && Admitted(rows, other.change)
  {
    && !SameRow(one.change, other.change)
    && (HoldsLock(one) && HoldsLock(other) ==> InvoiceOf(rows, one.change) != InvoiceOf(rows, other.change))
  }

  predicate OpenFits(rows: State, t: Transaction)
    requires Admitted(rows, t.change)
  {
    && (t.Unsettled? ==> !OnPayments(t.change))
    && (t.Decision? ==> PaidFits(rows, t.change, t.invoice))
  }

  predicate OpenInLine(rows: State, t: Transaction)
    requires Admitted(rows, t.change)
  {
    t.Decision? ==> t.invoice == Decided(rows, t.change)
  }

  /** A held lock is held alone, rows are changed by one transaction at a time, and the aggregates that
      stand or are about to be written are the sums of the payments, none past its total. */
  ghost predicate Inv(s: Session) {
    && Wellformed(s)
    && NotOverpaid(s.rows)
    && (forall t, u | t in s.open && u in s.open && t != u :: Apart(s.rows, s.open[t], s.open[u]))
    && forall t | t in s.open :: OpenFits(s.rows, s.open[t])
  }

  /** The statuses that stand, and those about to be written, follow the credits and payments. */
  ghost predicate InLine(s: Session)
    requires Wellformed(s)
  {
    && PaidIsSettled(s.rows)
    && forall t | t in s.open :: OpenInLine(s.rows, s.open[t])
  }

  /** What a commit leaves of one invoice. */
  lemma CommittedAt(rows: State, change: Change, invoice: Invoice, j: Id)
    requires WellNumbered(rows) && NotOverpaid(rows) && Admitted(rows, change)
    requires PaidFits(rows, change, invoice) && j < |rows.invoices|
    ensures
      var after := Committed(rows, change, invoice);
      && after.invoices[j].id == j && after.invoices[j].paid == Recorded(after.payments, j)
      && (j != InvoiceOf(rows, change) ==>
            after.invoices[j] == rows.invoices[j] && Credited(after.notes, j) == Credited(rows.notes, j))
  {
    ChangeMovesOneInvoice(rows, change, j);
  }

  /** What a commit writes and what it leaves alone. */
  lemma CommittedKeeps(rows: State, change: Change, invoice: Invoice)
    requires WellNumbered(rows) && NotOverpaid(rows) && Admitted(rows, change)
    requires PaidFits(rows, change, invoice)
    ensures
      var after := Committed(rows, change, invoice);
      && WellNumbered(after) && NotOverpaid(after)
      && forall j | 0 <= j < |rows.invoices| && j != InvoiceOf(rows, change) ::
           after.invoices[j] == rows.invoices[j] && Credited(after.notes, j) == Credited(rows.notes, j)
  {
    var after := Committed(rows, change, invoice);
    forall j | 0 <= j < |rows.invoices|
      ensures after.invoices[j].id == j && after.invoices[j].paid == Recorded(after.payments, j)
      ensures j != InvoiceOf(rows, change) ==>
        after.invoices[j] == rows.invoices[j] && Credited(after.notes, j) == Credited(rows.notes, j)
    {
      CommittedAt(rows, change, invoice, j);
    }
    AppliedKeepsPostings(rows, change);
  }

  lemma AppliedKeepsPostings(rows: State, change: Change)
    requires WellNumbered(rows) && NotOverpaid(rows) && Admitted(rows, change)
    ensures forall n | 0 <= n < |OwnNotes(rows, change)| ::
      OwnNotes(rows, change)[n].invoice < |rows.invoices| && OwnNotes(rows, change)[n].total >= 0
    ensures forall k | 0 <= k < |OwnPayments(rows, change)| :: OwnPayments(rows, change)[k].total > 0
  {
  }

  /** A settled commit keeps paid equivalent to settled. */
  lemma CommittedFits(rows: State, change: Change)
    requires WellNumbered(rows) && NotOverpaid(rows) && PaidIsSettled(rows) && Admitted(rows, change)
    requires PaidFits(rows, change, Decided(rows, change))
    ensures PaidIsSettled(Committed(rows, change, Decided(rows, change)))
  {
    CommittedKeeps(rows, change, Decided(rows, change));
  }

  lemma StillAdmitted(rows: State, change: Change, invoice: Invoice, other: Change)
    requires Admitted(rows, change) && Admitted(rows, other) && !SameRow(change, other)
    requires !invoice.status.Draft?
    ensures
      var after := Committed(rows, change, invoice);
      && Admitted(after, other) && InvoiceOf(after, other) == InvoiceOf(rows, other)
      && Delta(after, other) == Delta(rows, other)
  {
    var after := Committed(rows, change, invoice);
    if !Adds(other) {
      assert Postings(after, other)[other.row] == Postings(rows, other)[other.row];
    }
  }

  /** What a change of another row sees paid and credited on its invoice moves by the commit's own amounts
      if that is on the same invoice, and not at all otherwise. */
  lemma OwnSumsAfter(rows: State, change: Change, invoice: Invoice, other: Change)
    requires Admitted(rows, change) && Admitted(rows, other)
    requires !SameRow(change, other) && !invoice.status.Draft?
    ensures
      var after, i := Committed(rows, change, invoice), InvoiceOf(rows, other);
      var here := i == InvoiceOf(rows, change);
      && Admitted(after, other)
      && Recorded(OwnPayments(after, other), i) ==
         Recorded(OwnPayments(rows, other), i) + (if here then PaidDelta(rows, change) else 0)
      && Credited(OwnNotes(after, other), i) ==
         Credited(OwnNotes(rows, other), i) + (if here then CreditDelta(rows, change) else 0)
  {
    var i := InvoiceOf(rows, other);
    StillAdmitted(rows, change, invoice, other);
    ChangeMovesOneInvoice(rows, change, i);
    ChangeMovesOneInvoice(rows, other, i);
    ChangeMovesOneInvoice(Committed(rows, change, invoice), other, i);
  }

  /** A change of another row, on the committed rows, is admitted as before, and on another invoice decides
      the same. */
  lemma OthersUnmoved(rows: State, change: Change, invoice: Invoice, other: Change)
    requires Admitted(rows, change) && Admitted(rows, other)
    requires !SameRow(change, other) && !invoice.status.Draft?
    ensures
      var after, i := Committed(rows, change, invoice), InvoiceOf(rows, other);
      && Admitted(after, other) && InvoiceOf(after, other) == i
      && (i != InvoiceOf(rows, change) ==> Decided(after, other) == Decided(rows, other))
  {
    StillAdmitted(rows, change, invoice, other);
    OwnSumsAfter(rows, change, invoice, other);
  }

  lemma MarkedFits(rows: State, i: Id, gone: bool)
    requires WellNumbered(rows) && NotOverpaid(rows) && i < |rows.invoices|
    ensures WellNumbered(Marked(rows, i, gone)) && NotOverpaid(Marked(rows, i, gone))
    ensures PaidIsSettled(rows) ==> PaidIsSettled(Marked(rows, i, gone))
  {
  }

  /** What other transactions' work on the stored rows leaves of an open one. */
  predicate Unmoved(rows: State, after: State, t: Transaction)
    requires Admitted(rows, t.change)
  {
    && Admitted(after, t.change) && InvoiceOf(after, t.change) == InvoiceOf(rows, t.change)
    && (OpenFits(rows, t) ==> OpenFits(after, t))
  }

  lemma MarkedLeaves(rows: State, i: Id, gone: bool, t: Transaction)
    requires i < |rows.invoices| && Admitted(rows, t.change)
    requires HoldsLock(t) ==> InvoiceOf(rows, t.change) != i
    ensures Unmoved(rows, Marked(rows, i, gone), t)
    ensures OpenInLine(rows, t) ==> OpenInLine(Marked(rows, i, gone), t)
  {
  }

  /** A decision exists only under the lock, and a commit without the lock is a note's. */
  predicate Compatible(rows: State, change: Change, t: Transaction)
    requires Admitted(rows, change) && Admitted(rows, t.change)
  {
    && !SameRow(change, t.change)
    && (t.Decision? && InvoiceOf(rows, t.change) == InvoiceOf(rows, change) ==> !OnPayments(change))
  }

  lemma CommitLeaves(rows: State, change: Change, invoice: Invoice, t: Transaction)
    requires WellNumbered(rows) && NotOverpaid(rows) && Admitted(rows, change) && Admitted(rows, t.change)
    requires PaidFits(rows, change, invoice) && Compatible(rows, change, t)
    ensures Unmoved(rows, Committed(rows, change, invoice), t)
  {
    OthersUnmoved(rows, change, invoice, t.change);
    if t.Decision? && InvoiceOf(rows, t.change) == InvoiceOf(rows, change) {
      OwnSumsAfter(rows, change, invoice, t.change);
    }
  }

  ghost predicate AllUnmoved(s: Session, after: State, open: map<Id, Transaction>)
    requires Wellformed(s)
  {
    forall t | t in open :: t in s.open && open[t] == s.open[t] && Unmoved(s.rows, after, s.open[t])
  }

  /** The session on changed rows, if each open transaction that is left is unmoved. */
  lemma MovedKeepsInv(s: Session, after: State, open: map<Id, Transaction>)
    requires Inv(s) && WellNumbered(after) && NotOverpaid(after) && AllUnmoved(s, after, open)
    ensures Inv(Session(after, open))
  {
    forall t, u | t in open && u in open && t != u ensures Apart(after, open[t], open[u]) {
      assert Apart(s.rows, s.open[t], s.open[u]);
    }
  }

  lemma TrashKeepsInv(s: Session, i: Id, gone: bool)
    requires Inv(s)
    ensures Inv(TrashStep(s, i, gone))
    ensures InLine(s) ==> InLine(TrashStep(s, i, gone))
  {
    if TrashStep(s, i, gone) != s {
      MarkedFits(s.rows, i, gone);
      forall t | t in s.open
        ensures Unmoved(s.rows, Marked(s.rows, i, gone), s.open[t])
        ensures OpenInLine(s.rows, s.open[t]) ==> OpenInLine(Marked(s.rows, i, gone), s.open[t])
      {
        MarkedLeaves(s.rows, i, gone, s.open[t]);
      }
      MovedKeepsInv(s, Marked(s.rows, i, gone), s.open);
    }
  }

  lemma LeavesFits(s: Session, tx: Id)
    requires Inv(s) && Ready(s, tx)
    ensures PaidFits(s.rows, s.open[tx].change, LeavesInvoice(s, tx))
  {
    assert OpenFits(s.rows, s.open[tx]);
    ChangeMovesOneInvoice(s.rows, s.open[tx].change, InvoiceOf(s.rows, s.open[tx].change));
  }

  lemma OpenIsCompatible(s: Session, tx: Id, t: Id)
    requires Inv(s) && Ready(s, tx) && t in s.open && t != tx
    ensures Compatible(s.rows, s.open[tx].change, s.open[t])
  {
    assert Apart(s.rows, s.open[tx], s.open[t]) && OpenFits(s.rows, s.open[tx]);
  }

  lemma CommitKeepsInv(s: Session, tx: Id)
    requires Inv(s) && Ready(s, tx)
    ensures Inv(Step(s, Commit(tx)))
  {
    SumsAfterCommit(s, tx);
    AllAfterCommit(s, tx);
    MovedKeepsInv(s, Committed(s.rows, s.open[tx].change, LeavesInvoice(s, tx)), s.open - {tx});
  }

  lemma AllAfterCommit(s: Session, tx: Id)
    requires Inv(s) && Ready(s, tx)
    ensures AllUnmoved(s, Committed(s.rows, s.open[tx].change, LeavesInvoice(s, tx)), s.open - {tx})
  {
    forall t | t in s.open && t != tx
      ensures Unmoved(s.rows, Committed(s.rows, s.open[tx].change, LeavesInvoice(s, tx)), s.open[t])
    {
      OpenAfterCommit(s, tx, t);
    }
  }

  lemma SumsAfterCommit(s: Session, tx: Id)
    requires Inv(s) && Ready(s, tx)
    ensures
      var after := Committed(s.rows, s.open[tx].change, LeavesInvoice(s, tx));
      WellNumbered(after) && NotOverpaid(after)
  {
    LeavesFits(s, tx);
    CommittedKeeps(s.rows, s.open[tx].change, LeavesInvoice(s, tx));
  }

  lemma OpenAfterCommit(s: Session, tx: Id, t: Id)
    requires Inv(s) && Ready(s, tx) && t in s.open && t != tx
    ensures Unmoved(s.rows, Committed(s.rows, s.open[tx].change, LeavesInvoice(s, tx)), s.open[t])
  {
    LeavesFits(s, tx);
    OpenIsCompatible(s, tx, t);
    CommitLeaves(s.rows, s.open[tx].change, LeavesInvoice(s, tx), s.open[t]);
  }

  /** A transaction moved to a phase that fits keeps the rest. */
  lemma PhaseKeeps(s: Session, tx: Id, phase: Transaction)
    requires Inv(s) && Admitted(s.rows, phase.change)
    requires forall u | u in s.open && u != tx :: Apart(s.rows, s.open[u], phase)
    requires OpenFits(s.rows, phase)
    ensures Inv(s.(open := s.open[tx := phase]))
    ensures InLine(s) && OpenInLine(s.rows, phase) ==> InLine(s.(open := s.open[tx := phase]))
  {
  }

  lemma LeavingKeeps(s: Session, tx: Id)
    requires Inv(s)
    ensures Inv(s.(open := s.open - {tx}))
    ensures InLine(s) ==> InLine(s.(open := s.open - {tx}))
  {
  }

  lemma LockKeeps(s: Session, tx: Id)
    requires Inv(s) && tx in s.open && s.open[tx].Wrote?
    ensures Inv(LockStep(s, tx))
    ensures InLine(s) ==> InLine(LockStep(s, tx))
  {
    var change := s.open[tx].change;
    LeavingKeeps(s, tx);
    forall u | u in s.open && u != tx ensures !SameRow(s.open[u].change, change) {
      assert Apart(s.rows, s.open[u], s.open[tx]);
    }
    if s.rows.invoices[InvoiceOf(s.rows, change)].deleted {
      if !OnPayments(change) { PhaseKeeps(s, tx, Unsettled(change)); }
    } else if InvoiceFree(s, InvoiceOf(s.rows, change)) {
      PhaseKeeps(s, tx, Holding(change));
    }
  }

  lemma DecideKeeps(s: Session, tx: Id)
    requires Inv(s)
    ensures Inv(Step(s, Decide(tx)))
    ensures InLine(s) ==> InLine(Step(s, Decide(tx)))
  {
    if tx in s.open && s.open[tx].Holding? {
      var change := s.open[tx].change;
      LeavingKeeps(s, tx);
      if !(MayOverpay(change) && Decided(s.rows, change).paid > Decided(s.rows, change).total) {
        DecisionFits(s.rows, change);
        forall u | u in s.open && u != tx ensures Apart(s.rows, s.open[u], Decision(change, Decided(s.rows, change))) {
          assert Apart(s.rows, s.open[u], s.open[tx]);
        }
        PhaseKeeps(s, tx, Decision(change, Decided(s.rows, change)));
      }
    }
  }

  lemma OnlyThreeAddMoney(rows: State, change: Change)
    requires NotOverpaid(rows) && Admitted(rows, change) && !MayOverpay(change)
    ensures PaidDelta(rows, change) <= 0
  {
  }

  /** A change that cannot add to the payments never overpays. */
  lemma DecisionFits(rows: State, change: Change)
    requires WellNumbered(rows) && NotOverpaid(rows) && Admitted(rows, change)
    requires MayOverpay(change) ==> Decided(rows, change).paid <= Decided(rows, change).total
    ensures PaidFits(rows, change, Decided(rows, change))
    ensures
      Decided(rows, change).paid == Recorded(rows.payments, InvoiceOf(rows, change)) + PaidDelta(rows, change)
      <= rows.invoices[InvoiceOf(rows, change)].total
  {
    DecisionCarries(rows, change);
    if !MayOverpay(change) {
      OnlyThreeAddMoney(rows, change);
    }
  }

  lemma DecisionCarries(rows: State, change: Change)
    requires WellNumbered(rows) && Admitted(rows, change)
    ensures
      var i := InvoiceOf(rows, change);
      && Decided(rows, change).total == rows.invoices[i].total
      && Decided(rows, change).paid == Recorded(rows.payments, i) + PaidDelta(rows, change)
      && rows.invoices[i].paid == Recorded(rows.payments, i)
  {
    ChangeMovesOneInvoice(rows, change, InvoiceOf(rows, change));
  }

  /** Every step but a commit keeps the locks and the sums, and the statuses in line if they were. */
  lemma OtherStepsKeep(s: Session, e: Event)
    requires Inv(s) && !e.Commit?
    ensures Inv(Step(s, e))
    ensures InLine(s) ==> InLine(Step(s, e))
  {
    match e
    case Begin(tx, change) =>
      if Step(s, e) != s { PhaseKeeps(s, tx, Wrote(change)); }
    case Lock(tx) =>
      if tx in s.open && s.open[tx].Wrote? { LockKeeps(s, tx); }
    case Decide(tx) => DecideKeeps(s, tx);
    case Abort(tx) => LeavingKeeps(s, tx);
    case Trash(i) => TrashKeepsInv(s, i, true);
    case Untrash(i) => TrashKeepsInv(s, i, false);
  }

  lemma StepKeepsInv(s: Session, e: Event)
    requires Inv(s)
    ensures Inv(Step(s, e))
  {
    if e.Commit? {
      if Ready(s, e.tx) { CommitKeepsInv(s, e.tx); }
    } else {
      OtherStepsKeep(s, e);
    }
  }

  ghost function Run(s: Session, events: seq<Event>): Session
    requires Inv(s)
    ensures Inv(Run(s, events))
    decreases |events|
  {
    if events == [] then s
    else
      StepKeepsInv(s, events[0]);
      Run(Step(s, events[0]), events[1..])
  }

  // When the statuses stay in line.

  /** A note written without a settlement moves its invoice across the settlement line. */
  predicate Crosses(rows: State, change: Change)
    requires Admitted(rows, change)
  {
    var i := InvoiceOf(rows, change);
    rows.invoices[i].status.Paid? !=
    Settled(rows.invoices[i], Credited(rows.notes, i) + CreditDelta(rows, change))
  }

  /** Its invoice has come back from the trash since, and another transaction's decision on it does not
      know of the note. */
  predicate Outdates(rows: State, change: Change, t: Transaction)
    requires Admitted(rows, change) && Admitted(rows, t.change)
  {
    var i := InvoiceOf(rows, change);
    && t.Decision? && InvoiceOf(rows, t.change) == i
    && t.invoice.status !=
       ResolveStatus(rows.invoices[i].status,
         Settled(t.invoice, Credited(OwnNotes(rows, t.change), i) + CreditDelta(rows, change)))
  }

  ghost predicate Unsettles(s: Session, e: Event)
    requires Wellformed(s)
  {
    && e.Commit? && e.tx in s.open && s.open[e.tx].Unsettled?
    && (|| Crosses(s.rows, s.open[e.tx].change)
        || exists t | t in s.open && t != e.tx :: Outdates(s.rows, s.open[e.tx].change, s.open[t]))
  }

  /** An unsettled note leaves the stored statuses in line exactly when it crosses no settlement line. */
  lemma NoteAlone(rows: State, change: Change)
    requires WellNumbered(rows) && NotOverpaid(rows) && PaidIsSettled(rows)
    requires Admitted(rows, change) && !OnPayments(change)
    requires PaidFits(rows, change, rows.invoices[InvoiceOf(rows, change)])
    ensures
      PaidIsSettled(Committed(rows, change, rows.invoices[InvoiceOf(rows, change)])) <==> !Crosses(rows, change)
  {
    var i := InvoiceOf(rows, change);
    CommittedKeeps(rows, change, rows.invoices[i]);
    ChangeMovesOneInvoice(rows, change, i);
    var after := Committed(rows, change, rows.invoices[i]);
    assert after.invoices[i] == rows.invoices[i];
    assert Credited(after.notes, i) == Credited(rows.notes, i) + CreditDelta(rows, change);
  }

  /** On its own invoice, an unsettled note leaves a decision right exactly when it does not outdate it. */
  lemma OutdatedExactly(rows: State, change: Change, t: Transaction)
    requires Admitted(rows, change) && Admitted(rows, t.change) && !SameRow(change, t.change)
    requires t.Decision? && t.invoice == Decided(rows, t.change)
    requires !OnPayments(change) && InvoiceOf(rows, t.change) == InvoiceOf(rows, change)
    ensures
      var after := Committed(rows, change, rows.invoices[InvoiceOf(rows, change)]);
      Admitted(after, t.change) && (t.invoice == Decided(after, t.change) <==> !Outdates(rows, change, t))
  {
    var i := InvoiceOf(rows, change);
    OthersUnmoved(rows, change, rows.invoices[i], t.change);
    OwnSumsAfter(rows, change, rows.invoices[i], t.change);
    var after := Committed(rows, change, rows.invoices[i]);
    var paid, credited := Recorded(OwnPayments(rows, t.change), i), Credited(OwnNotes(after, t.change), i);
    assert after.invoices[i] == rows.invoices[i];
    assert Decided(after, t.change) == Settlement.Decided(rows.invoices[i], paid, credited);
    DecidedSame(rows.invoices[i], paid, Credited(OwnNotes(rows, t.change), i), credited);
  }

  /** Two decisions on the same payments differ in the status at most. */
  lemma DecidedSame(invoice: Invoice, paid: int, credited: int, other: int)
    ensures
      var one := Settlement.Decided(invoice, paid, credited);
      one == Settlement.Decided(invoice, paid, other) <==>
      one.status == ResolveStatus(invoice.status, Settled(one, other))
  {
  }

  /** What a commit leaves of another transaction's decision. */
  lemma DecisionAfterCommit(s: Session, tx: Id, t: Id)
    requires Inv(s) && InLine(s) && Ready(s, tx) && t in s.open && t != tx
    ensures
      var change, after := s.open[tx].change, Committed(s.rows, s.open[tx].change, LeavesInvoice(s, tx));
      && Admitted(after, s.open[t].change)
      && (OpenInLine(after, s.open[t]) <==> s.open[tx].Decision? || !Outdates(s.rows, change, s.open[t]))
  {
    LeavesFits(s, tx);
    assert OpenFits(s.rows, s.open[tx]) && OpenInLine(s.rows, s.open[t]);
    assert Apart(s.rows, s.open[tx], s.open[t]);
    OthersUnmoved(s.rows, s.open[tx].change, LeavesInvoice(s, tx), s.open[t].change);
    if s.open[t].Decision? && InvoiceOf(s.rows, s.open[t].change) == InvoiceOf(s.rows, s.open[tx].change) {
      OutdatedExactly(s.rows, s.open[tx].change, s.open[t]);
    }
  }

  lemma RowsAfterCommit(s: Session, tx: Id)
    requires Inv(s) && InLine(s) && Ready(s, tx)
    ensures
      PaidIsSettled(Committed(s.rows, s.open[tx].change, LeavesInvoice(s, tx))) <==>
      s.open[tx].Decision? || !Crosses(s.rows, s.open[tx].change)
  {
    LeavesFits(s, tx);
    assert OpenFits(s.rows, s.open[tx]) && OpenInLine(s.rows, s.open[tx]);
    if s.open[tx].Decision? {
      CommittedFits(s.rows, s.open[tx].change);
    } else {
      NoteAlone(s.rows, s.open[tx].change);
    }
  }

  lemma CommitInLine(s: Session, tx: Id, after: Session)
    requires Inv(s) && InLine(s) && Ready(s, tx) && Wellformed(after)
    requires after == Session(Committed(s.rows, s.open[tx].change, LeavesInvoice(s, tx)), s.open - {tx})
    ensures InLine(after) <==> !Unsettles(s, Commit(tx))
  {
    RowsAfterCommit(s, tx);
    forall t | t in after.open ensures LineKept(s, tx, after.rows, t) {
      DecisionAfterCommit(s, tx, t);
    }
    LineIsAll(s, tx, after);
  }

  ghost predicate LineKept(s: Session, tx: Id, rows: State, t: Id)
    requires Wellformed(s) && tx in s.open
  {
    && t in s.open && Admitted(rows, s.open[t].change)
    && (OpenInLine(rows, s.open[t]) <==>
          s.open[tx].Decision? || !Outdates(s.rows, s.open[tx].change, s.open[t]))
  }

  lemma LineIsAll(s: Session, tx: Id, after: Session)
    requires Wellformed(s) && Ready(s, tx) && Wellformed(after) && after.open == s.open - {tx}
    requires PaidIsSettled(after.rows) <==> s.open[tx].Decision? || !Crosses(s.rows, s.open[tx].change)
    requires forall t | t in after.open :: LineKept(s, tx, after.rows, t)
    ensures InLine(after) <==> !Unsettles(s, Commit(tx))
  {
    forall t | t in after.open ensures after.open[t] == s.open[t] && LineKept(s, tx, after.rows, t) {
    }
  }

  /** In line before, in line after, exactly when the step is not an unsettled commit that crosses the
      settlement line of its invoice or outdates a decision on it. */
  lemma StepKeepsInLine(s: Session, e: Event)
    requires Inv(s) && InLine(s)
    ensures Inv(Step(s, e)) && (InLine(Step(s, e)) <==> !Unsettles(s, e))
  {
    if !e.Commit? {
      OtherStepsKeep(s, e);
    } else if Ready(s, e.tx) {
      CommitKeepsInv(s, e.tx);
      CommitInLine(s, e.tx, Step(s, e));
    }
  }

  ghost predicate InLineThroughout(s: Session, events: seq<Event>)
    requires Inv(s)
    decreases |events|
  {
    InLine(s) &&
    (events != [] ==> (StepKeepsInv(s, events[0]); InLineThroughout(Step(s, events[0]), events[1..])))
  }

  ghost predicate NoneUnsettles(s: Session, events: seq<Event>)
    requires Inv(s)
    decreases |events|
  {
    events != [] ==>
      && !Unsettles(s, events[0])
      && (StepKeepsInv(s, events[0]); NoneUnsettles(Step(s, events[0]), events[1..]))
  }

  /** Over every run, the statuses are in line at every point exactly when no step of it is such a
      commit. */
  lemma {:induction false} InLineExactly(s: Session, events: seq<Event>)
    requires Inv(s) && InLine(s)
    ensures InLineThroughout(s, events) <==> NoneUnsettles(s, events)
    decreases |events|
  {
    if events != [] {
      StepKeepsInLine(s, events[0]);
      if !Unsettles(s, events[0]) {
        InLineExactly(Step(s, events[0]), events[1..]);
      } else {
        assert !InLineThroughout(Step(s, events[0]), events[1..]);
      }
    }
  }

  // What every run keeps.

  lemma StepKeepsInvoices(s: Session, e: Event)
    requires Wellformed(s)
    ensures |Step(s, e).rows.invoices| == |s.rows.invoices|
  {
  }

  lemma {:induction false} RunKeepsInvoices(s: Session, events: seq<Event>)
    requires Inv(s)
    ensures |Run(s, events).rows.invoices| == |s.rows.invoices|
    decreases |events|
  {
    if events != [] {
      StepKeepsInv(s, events[0]);
      StepKeepsInvoices(s, events[0]);
      RunKeepsInvoices(Step(s, events[0]), events[1..]);
    }
  }

  lemma {:induction false} RunStaysInLine(s: Session, events: seq<Event>)
    requires Inv(s) && InLine(s) && NoneUnsettles(s, events)
    ensures InLine(Run(s, events))
    decreases |events|
  {
    if events != [] {
      StepKeepsInLine(s, events[0]);
      RunStaysInLine(Step(s, events[0]), events[1..]);
    }
  }

  /** Whatever payments, edits, withdrawals, restores, credit notes and trashings interleave, and whoever
      commits last: each invoice's aggregate is the sum of its committed payments, an issued one's never
      passes its total, and with no unsettling commit on the way it is paid exactly when those payments and
      its committed credits settle it. */
  lemma PaidMeansSettledThroughout(rows: State, events: seq<Event>, i: Id)
    requires WellNumbered(rows) && NotOverpaid(rows) && i < |rows.invoices|
    ensures
      var now := Run(Session(rows, map[]), events).rows;
      && |now.invoices| == |rows.invoices|
      && now.invoices[i].paid == Recorded(now.payments, i)
      && (!now.invoices[i].status.Draft? ==> now.invoices[i].paid <= now.invoices[i].total)
      && (PaidIsSettled(rows) && NoneUnsettles(Session(rows, map[]), events)
          && !now.invoices[i].status.Draft? ==>
            (now.invoices[i].status.Paid? <==> Settled(now.invoices[i], Credited(now.notes, i))))
  {
    RunKeepsInvoices(Session(rows, map[]), events);
    if PaidIsSettled(rows) && NoneUnsettles(Session(rows, map[]), events) {
      RunStaysInLine(Session(rows, map[]), events);
    }
  }

  /** Every issued invoice is out of the trash, and nobody found one in it. */
  predicate AllLive(s: Session) {
    && (forall i | 0 <= i < |s.rows.invoices| && !s.rows.invoices[i].status.Draft? :: !s.rows.invoices[i].deleted)
    && forall t | t in s.open :: !s.open[t].Unsettled?
  }

  lemma StepKeepsLive(s: Session, e: Event)
    requires Inv(s) && AllLive(s) && !e.Trash?
    ensures AllLive(Step(s, e))
  {
    if e.Commit? && Ready(s, e.tx) {
      CommitKeepsLive(s, e.tx);
    } else if e.Lock? && e.tx in s.open && s.open[e.tx].Wrote? {
      assert !s.rows.invoices[InvoiceOf(s.rows, s.open[e.tx].change)].deleted;
      assert Step(s, e).rows == s.rows;
    } else if e.Untrash? && Step(s, e) != s {
      assert forall j | 0 <= j < |s.rows.invoices| && j != e.invoice ::
        Step(s, e).rows.invoices[j] == s.rows.invoices[j];
    }
  }

  lemma CommitKeepsLive(s: Session, tx: Id)
    requires Inv(s) && AllLive(s) && Ready(s, tx)
    ensures AllLive(Step(s, Commit(tx)))
  {
    var i := InvoiceOf(s.rows, s.open[tx].change);
    LeavesFits(s, tx);
    assert LeavesInvoice(s, tx).deleted == s.rows.invoices[i].deleted;
    assert Step(s, Commit(tx)).rows.invoices == s.rows.invoices[i := LeavesInvoice(s, tx)];
  }

  /** What callers can see to: while no invoice is moved to the trash, no commit unsettles. */
  lemma {:induction false} LiveNeverUnsettles(s: Session, events: seq<Event>)
    requires Inv(s) && AllLive(s) && forall e | e in events :: !e.Trash?
    ensures NoneUnsettles(s, events)
    decreases |events|
  {
    if events != [] {
      assert events[0] in events;
      StepKeepsInv(s, events[0]);
      StepKeepsLive(s, events[0]);
      LiveNeverUnsettles(Step(s, events[0]), events[1..]);
    }
  }

  // Why the lock, and what it does not reach.

  const TWICE_CREDITED: State :=
    State([Invoice(0, None, Paid, "EUR", 100, 0, false, 0)],
          [Posting(0, 0, 100, false), Posting(1, 0, 100, false)], [])

  /** Two withdrawals that both decided on the rows before either committed: each saw the other's note
      still covering the invoice, and together they leave it paid and owing. */
  lemma StaleDecisionLeavesPaidOwing()
    ensures WellNumbered(TWICE_CREDITED) && PaidIsSettled(TWICE_CREDITED)
    ensures
      var first := Decided(TWICE_CREDITED, WithdrawNote(0));
      var stale := Decided(TWICE_CREDITED, WithdrawNote(1));
      var after := Committed(TWICE_CREDITED, WithdrawNote(0), first);
      && Admitted(after, WithdrawNote(1))
      && var last := Committed(after, WithdrawNote(1), stale);
         last.invoices[0].status.Paid? && Owed(last.invoices[0], Credited(last.notes, 0)) == 100
  {
    var rows := TWICE_CREDITED;
    assert Credited(rows.notes, 0) == 200 by {
      assert rows.notes[..1] == [Posting(0, 0, 100, false)] && rows.notes[..1][..0] == [];
      assert Credited(rows.notes[..1], 0) == 100;
    }
    assert Recorded(rows.payments, 0) == 0;
    ChangeMovesOneInvoice(rows, WithdrawNote(0), 0);
    ChangeMovesOneInvoice(rows, WithdrawNote(1), 0);
    var after := Committed(rows, WithdrawNote(0), Decided(rows, WithdrawNote(0)));
    ChangeMovesOneInvoice(after, WithdrawNote(1), 0);
  }

  const SENT: State := State([Invoice(0, None, Sent, "EUR", 100, 0, false, 0)], [], [])

  const FULL: Change := AddNote(0, 100)

  /** The note of an invoice that was trashed before the note's lock. */
  const FOUND: Session := Session(Marked(SENT, 0, true), map[1 := Unsettled(FULL)])

  lemma TwoSteps(s: Session, one: Event, other: Event)
    requires Inv(s)
    ensures Inv(Step(s, one)) && Run(s, [one, other]) == Step(Step(s, one), other)
  {
    StepKeepsInv(s, one);
    assert [one, other][1..] == [other] && [other][1..] == [];
    assert Run(Step(s, one), [other]) == Step(Step(s, one), other);
  }

  lemma SentFits(open: map<Id, Transaction>, gone: bool)
    requires forall t | t in open :: t == 1 && open[t].change == FULL && !open[t].Decision?
    ensures Inv(Session(Marked(SENT, 0, gone), open)) && InLine(Session(Marked(SENT, 0, gone), open))
  {
    assert Recorded(SENT.payments, 0) == 0 && Credited(SENT.notes, 0) == 0;
  }

  lemma NoteBegins()
    ensures Marked(SENT, 0, false) == SENT && Inv(Session(SENT, map[1 := Wrote(FULL)]))
    ensures Inv(Session(SENT, map[])) && Step(Session(SENT, map[]), Begin(1, FULL)) ==
            Session(SENT, map[1 := Wrote(FULL)])
  {
    assert SENT.invoices[0 := SENT.invoices[0]] == SENT.invoices;
    SentFits(map[], false);
    SentFits(map[1 := Wrote(FULL)], false);
  }

  /** A full credit note begins on a live invoice, which is trashed before the note's lock. */
  lemma NoteFindsTrash()
    ensures Inv(Session(SENT, map[1 := Wrote(FULL)]))
    ensures Run(Session(SENT, map[1 := Wrote(FULL)]), [Trash(0), Lock(1)]) == FOUND
  {
    NoteBegins();
    var begun := Session(SENT, map[1 := Wrote(FULL)]);
    TwoSteps(begun, Trash(0), Lock(1));
    assert Step(begun, Trash(0)) == Session(Marked(SENT, 0, true), map[1 := Wrote(FULL)]);
  }

  const CREDITED: State := State(Marked(SENT, 0, true).invoices, [Posting(0, 0, 100, false)], [])

  lemma NoteLands()
    ensures Inv(FOUND) && InLine(FOUND) && Step(FOUND, Commit(1)) == Session(CREDITED, map[])
    ensures Credited(CREDITED.notes, 0) == 100
  {
    SentFits(map[1 := Unsettled(FULL)], true);
    var gone := Marked(SENT, 0, true);
    assert gone.invoices[0 := gone.invoices[0]] == gone.invoices;
    assert Committed(gone, FULL, gone.invoices[0]) == CREDITED;
    assert FOUND.open - {1} == map[];
    assert CREDITED.notes[..0] == [];
  }

  lemma NoteCrosses()
    ensures Admitted(FOUND.rows, FULL) && Crosses(FOUND.rows, FULL)
  {
    assert Credited(FOUND.rows.notes, 0) == 0;
  }

  /** The note is then committed, nothing is settled, and the restored invoice stays open with nothing
      owed. */
  lemma CreditedWhileTrashed()
    ensures Inv(FOUND) && InLine(FOUND) && Unsettles(FOUND, Commit(1))
    ensures
      var now := Run(FOUND, [Commit(1), Untrash(0)]).rows;
      now.invoices == SENT.invoices && Settled(now.invoices[0], Credited(now.notes, 0))
  {
    NoteLands();
    NoteCrosses();
    TwoSteps(FOUND, Commit(1), Untrash(0));
    BroughtBack();
  }

  lemma BroughtBack()
    requires Wellformed(Session(CREDITED, map[]))
    ensures
      var now := Step(Session(CREDITED, map[]), Untrash(0)).rows;
      now.invoices == SENT.invoices && now.notes == CREDITED.notes
  {
    assert Marked(CREDITED, 0, false).invoices == SENT.invoices;
  }
}
