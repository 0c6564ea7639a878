/** Document numbers claimed from one settings row by concurrent creations, and the strings printed for
    them. */
module Numbering {
  import opened Wrappers

  type Id = nat

  datatype Kind = ContractNumber | CreditNoteNumber

  /** A creation that waits for the settings row, or has bumped a counter and not yet committed. The
      bump locks the row, for both counters at once. */
  datatype Creation = Waiting(kind: Kind) | Claimed(kind: Kind, number: nat)

  /** `issued` lists the committed numbers of each kind, oldest first. */
  datatype State = State(next: map<Kind, nat>, creations: map<Id, Creation>, issued: map<Kind, seq<nat>>)

  datatype Event = Begin(tx: Id, kind: Kind) | Claim(tx: Id) | Commit(tx: Id) | Rollback(tx: Id)

  predicate Complete(s: State) {
    forall kind: Kind :: kind in s.next && kind in s.issued
  }

  predicate RowLocked(s: State) {
    exists tx | tx in s.creations :: s.creations[tx].Claimed?
  }

  /** The UPDATE waits for the lock and then reads the committed counter; the number it owns is one below
      the value it leaves. A rollback takes the bump back with the insert. */
  function Step(s: State, e: Event): State
    requires Complete(s)
  {
    match e
    case Begin(tx, kind) =>
      if tx in s.creations then s else s.(creations := s.creations[tx := Waiting(kind)])
    case Claim(tx) =>
      if tx !in s.creations || s.creations[tx].Claimed? || RowLocked(s) then s
      else
        var kind := s.creations[tx].kind;
        s.(creations := s.creations[tx := Claimed(kind, s.next[kind])])
    case Commit(tx) =>
      if tx !in s.creations || s.creations[tx].Waiting? then s
      else
        var claim := s.creations[tx];
        s.(next := s.next[claim.kind := s.next[claim.kind] + 1],
           issued := s.issued[claim.kind := s.issued[claim.kind] + [claim.number]],
           creations := s.creations - {tx})
    case Rollback(tx) => s.(creations := s.creations - {tx})
  }

  function Run(s: State, events: seq<Event>): State
    requires Complete(s)
    ensures Complete(Run(s, events))
    decreases |events|
  {
    if events == [] then s else Run(Step(s, events[0]), events[1..])
  }

  /** From `first`, the committed numbers of a kind run without a gap or a repeat up to its counter. */
  ghost predicate GapFree(s: State, first: map<Kind, nat>) {
    && Complete(s)
    && forall kind: Kind ::
         && kind in first && s.next[kind] == first[kind] + |s.issued[kind]|
         && forall i | 0 <= i < |s.issued[kind]| :: s.issued[kind][i] == first[kind] + i
  }

  ghost predicate ClaimsFit(s: State) {
    && Complete(s)
    && (forall tx | tx in s.creations && s.creations[tx].Claimed? ::
          s.creations[tx].number == s.next[s.creations[tx].kind])
    && forall t, u | t in s.creations && u in s.creations && s.creations[t].Claimed? && s.creations[u].Claimed? ::
         t == u
  }

  lemma StepKeepsNumbers(s: State, e: Event, first: map<Kind, nat>)
    requires GapFree(s, first) && ClaimsFit(s)
    ensures GapFree(Step(s, e), first) && ClaimsFit(Step(s, e))
  {
    if e.Commit? && e.tx in s.creations && s.creations[e.tx].Claimed? {
      CommitKeepsGapFree(s, e.tx, first);
      CommitKeepsClaims(s, e.tx);
    }
  }

  lemma CommitKeepsGapFree(s: State, tx: Id, first: map<Kind, nat>)
    requires GapFree(s, first) && ClaimsFit(s) && tx in s.creations && s.creations[tx].Claimed?
    ensures GapFree(Step(s, Commit(tx)), first)
  {
    var claim, after := s.creations[tx], Step(s, Commit(tx));
    forall kind: Kind
      ensures after.next[kind] == first[kind] + |after.issued[kind]|
      ensures forall i | 0 <= i < |after.issued[kind]| :: after.issued[kind][i] == first[kind] + i
    {
      if kind != claim.kind {
        assert after.next[kind] == s.next[kind] && after.issued[kind] == s.issued[kind];
      }
    }
  }

  lemma CommitKeepsClaims(s: State, tx: Id)
    requires ClaimsFit(s) && tx in s.creations && s.creations[tx].Claimed?
    ensures ClaimsFit(Step(s, Commit(tx)))
  {
  }

  /** Over every interleaving of creations, commits and rollbacks, each counter is its start plus the
      committed documents of its kind, whose numbers are distinct and leave no gap. */
  lemma {:induction false} NumbersAreGapFree(s: State, events: seq<Event>, first: map<Kind, nat>)
    requires GapFree(s, first) && ClaimsFit(s)
    ensures GapFree(Run(s, events), first) && ClaimsFit(Run(s, events))
    ensures forall kind: Kind, i, j | 0 <= i < j < |Run(s, events).issued[kind]| ::
      Run(s, events).issued[kind][i] != Run(s, events).issued[kind][j]
    decreases |events|
  {
    if events != [] {
      StepKeepsNumbers(s, events[0], first);
      NumbersAreGapFree(Step(s, events[0]), events[1..], first);
    }
  }

  /** What each event does: a claim waits for whoever holds the settings row and then owns the counter's
      value; a commit bumps the counter and issues that number; a rollback leaves both as they were. */
  lemma CreationsMove(s: State, tx: Id, kind: Kind)
    requires Complete(s)
    ensures Step(s, Begin(tx, kind)) ==
      if tx in s.creations then s else s.(creations := s.creations[tx := Waiting(kind)])
    ensures tx in s.creations && s.creations[tx].Waiting? ==>
      var own := s.creations[tx].kind;
      Step(s, Claim(tx)) ==
        if exists other | other in s.creations :: s.creations[other].Claimed? then s
        else s.(creations := s.creations[tx := Claimed(own, s.next[own])])
    ensures tx in s.creations && s.creations[tx].Claimed? ==>
      var own, after := s.creations[tx].kind, Step(s, Commit(tx));
      && after.creations == s.creations - {tx}
      && after.next == s.next[own := s.next[own] + 1]
      && after.issued == s.issued[own := s.issued[own] + [s.creations[tx].number]]
    ensures Step(s, Rollback(tx)) == s.(creations := s.creations - {tx})
  {
  }

  // The printed form.

  function Digit(d: nat): char
    requires d < 10
  {
    '0' + d as char
  }

  function Decimal(n: nat): string {
    if n < 10 then [Digit(n)] else Decimal(n / 10) + [Digit(n % 10)]
  }

  function PadStart(s: string, width: nat): string
    decreases width - |s|
  {
    if |s| >= width then s else PadStart(['0'] + s, width)
  }

  function FormatNumber(prefix: string, number: nat, width: nat): string {
    prefix + PadStart(Decimal(number), width)
  }

  predicate IsDigits(s: string) {
    forall i | 0 <= i < |s| :: '0' <= s[i] <= '9'
  }

  /** What a digit string reads as. */
  function Value(s: string): nat
    requires IsDigits(s)
  {
    if s == "" then 0
    else 10 * Value(s[..|s| - 1]) + (s[|s| - 1] as int - '0' as int)
  }

  lemma {:induction false} DecimalReadsBack(n: nat)
    ensures IsDigits(Decimal(n)) && Value(Decimal(n)) == n
    decreases n
  {
    if n >= 10 {
      DecimalReadsBack(n / 10);
      assert Decimal(n)[..|Decimal(n)| - 1] == Decimal(n / 10);
    } else {
      assert Decimal(n)[..0] == "";
    }
  }

  lemma {:induction false} LeadingZero(s: string)
    requires IsDigits(s)
    ensures IsDigits(['0'] + s) && Value(['0'] + s) == Value(s)
    decreases |s|
  {
    var padded := ['0'] + s;
    if s == "" {
      assert padded[..0] == "";
    } else {
      LeadingZero(s[..|s| - 1]);
      assert padded[..|padded| - 1] == ['0'] + s[..|s| - 1];
    }
  }

  lemma {:induction false} PaddingReadsBack(s: string, width: nat)
    requires IsDigits(s)
    ensures IsDigits(PadStart(s, width)) && Value(PadStart(s, width)) == Value(s)
    ensures |PadStart(s, width)| == if |s| > width then |s| else width
    ensures |s| >= width ==> PadStart(s, width) == s
    decreases width - |s|
  {
    if |s| < width {
      LeadingZero(s);
      PaddingReadsBack(['0'] + s, width);
    }
  }

  /** A printed number is never truncated and reads back as the number, whatever the padding. */
  lemma FormatReadsBack(prefix: string, number: nat, width: nat)
    ensures |FormatNumber(prefix, number, width)| >= |prefix| + width
    ensures FormatNumber(prefix, number, width)[..|prefix|] == prefix
    ensures number >= 1 && |FormatNumber(prefix, number, width)| > |prefix| + width ==>
      FormatNumber(prefix, number, width)[|prefix|] != '0'
    ensures IsDigits(FormatNumber(prefix, number, width)[|prefix|..])
    ensures Value(FormatNumber(prefix, number, width)[|prefix|..]) == number
  {
    DecimalReadsBack(number);
    PaddingReadsBack(Decimal(number), width);
    assert FormatNumber(prefix, number, width)[|prefix|..] == PadStart(Decimal(number), width);
    if number >= 1 {
      DecimalLeads(number);
    }
  }

  /** So under one prefix, distinct numbers print distinct strings even if the padding changed between
      them. */
  lemma PrintedNumbersDiffer(prefix: string, one: nat, other: nat, width: nat, laterWidth: nat)
    requires one != other
    ensures FormatNumber(prefix, one, width) != FormatNumber(prefix, other, laterWidth)
  {
    FormatReadsBack(prefix, one, width);
    FormatReadsBack(prefix, other, laterWidth);
  }

  // A changed prefix.

  predicate Collide(p: string, n: nat, w: nat, q: string, m: nat, v: nat) {
    FormatNumber(p, n, w) == FormatNumber(q, m, v)
  }

  /** Two printed numbers are alike exactly when the longer prefix extends the shorter one and what it
      adds starts the shorter one's padded number. */
  lemma CollideExactly(p: string, n: nat, w: nat, q: string, m: nat, v: nat)
    requires |p| <= |q|
    ensures Collide(p, n, w, q, m, v) <==>
      p <= q && PadStart(Decimal(n), w) == q[|p|..] + PadStart(Decimal(m), v)
  {
    var one := PadStart(Decimal(n), w);
    var other := PadStart(Decimal(m), v);
    if p + one == q + other {
      assert p == (p + one)[..|p|] == (q + other)[..|p|] == q[..|p|];
      assert one == (p + one)[|p|..] == (q + other)[|p|..] == q[|p|..] + other;
    }
    if p <= q && one == q[|p|..] + other {
      assert q == p + q[|p|..];
      assert p + (q[|p|..] + other) == (p + q[|p|..]) + other;
    }
  }

  lemma {:induction false} OneStringPerValue(s: string, t: string)
    requires IsDigits(s) && IsDigits(t) && |s| == |t| && Value(s) == Value(t)
    ensures s == t
    decreases |s|
  {
    if s != "" {
      var last := |s| - 1;
      OneStringPerValue(s[..last], t[..last]);
      assert s == s[..last] + [s[last]] && t == t[..last] + [t[last]];
    }
  }

  /** The decimal form is the shortest, and a string without a leading zero is that form's length. */
  lemma {:induction false} DecimalIsShortest(s: string)
    requires IsDigits(s) && s != ""
    ensures |Decimal(Value(s))| <= |s|
    ensures s[0] != '0' ==> Value(s) >= 1 && |Decimal(Value(s))| == |s|
    decreases |s|
  {
    var last := |s| - 1;
    assert Value(s) / 10 == Value(s[..last]);
    if last > 0 {
      DecimalIsShortest(s[..last]);
    } else {
      assert s[..last] == "";
    }
  }

  /** Every non-empty digit string is some padded number: its value, at its own width, or at width one
      if it has no leading zero. */
  lemma DigitsArePadded(s: string)
    requires IsDigits(s) && s != ""
    ensures PadStart(Decimal(Value(s)), |s|) == s
    ensures s[0] != '0' ==> PadStart(Decimal(Value(s)), 1) == s
  {
    DecimalReadsBack(Value(s));
    DecimalIsShortest(s);
    PaddingReadsBack(Decimal(Value(s)), |s|);
    OneStringPerValue(PadStart(Decimal(Value(s)), |s|), s);
    if s[0] != '0' {
      PaddingReadsBack(Decimal(Value(s)), 1);
      OneStringPerValue(Decimal(Value(s)), s);
    }
  }

  lemma {:induction false} DecimalLeads(n: nat)
    requires n >= 1
    ensures Decimal(n)[0] != '0'
    decreases n
  {
    if n >= 10 {
      DecimalLeads(n / 10);
    }
  }

  lemma {:induction false} ZerosAddNothing(t: string, s: string)
    requires IsDigits(t) && IsDigits(s) && Value(t) == 0
    ensures IsDigits(t + s) && Value(t + s) == Value(s)
    decreases |s|
  {
    if s == "" {
      assert t + s == t;
    } else {
      ZerosAddNothing(t, s[..|s| - 1]);
      assert (t + s)[..|t + s| - 1] == t + s[..|s| - 1];
    }
  }

  lemma ValueOfOneMore(t: string)
    requires IsDigits(t)
    ensures IsDigits(t + "1") && Value(t + "1") == 10 * Value(t) + 1
  {
    assert (t + "1")[..|t|] == t;
  }

  lemma CollisionAddsDigits(p: string, n: nat, w: nat, q: string, m: nat, v: nat)
    requires |p| <= |q| && Collide(p, n, w, q, m, v)
    ensures p <= q && IsDigits(q[|p|..])
    ensures IsDigits(PadStart(Decimal(n), w)) && IsDigits(PadStart(Decimal(m), v))
    ensures PadStart(Decimal(n), w) == q[|p|..] + PadStart(Decimal(m), v)
  {
    CollideExactly(p, n, w, q, m, v);
    DecimalReadsBack(n);
    DecimalReadsBack(m);
    PaddingReadsBack(Decimal(n), w);
    PaddingReadsBack(Decimal(m), v);
    var t := q[|p|..];
    forall i | 0 <= i < |t| ensures '0' <= t[i] <= '9' {
      assert t[i] == PadStart(Decimal(n), w)[i];
    }
  }

  /** Whatever the numbers and widths, two prefixes can print alike exactly when the longer is the
      shorter followed by digits only. */
  lemma PrefixesCanCollide(p: string, q: string)
    requires |p| <= |q|
    ensures (exists n: nat, w: nat, m: nat, v: nat :: Collide(p, n, w, q, m, v)) <==>
            p <= q && IsDigits(q[|p|..])
  {
    forall n: nat, w: nat, m: nat, v: nat | Collide(p, n, w, q, m, v)
      ensures p <= q && IsDigits(q[|p|..])
    {
      CollisionAddsDigits(p, n, w, q, m, v);
    }
    if p <= q && IsDigits(q[|p|..]) {
      PaddedCollision(p, q);
    }
  }

  /** The collision with the longer prefix's first document, at the widths that give it. */
  lemma PaddedCollision(p: string, q: string)
    requires p <= q && IsDigits(q[|p|..])
    ensures
      var t := q[|p|..] + "1";
      && IsDigits(t) && Collide(p, Value(t), |t|, q, 1, 1)
      && (t[0] != '0' ==> Collide(p, Value(t), 1, q, 1, 1))
  {
    var t := q[|p|..] + "1";
    ValueOfOneMore(q[|p|..]);
    DigitsArePadded(t);
    assert PadStart(Decimal(1), 1) == "1";
    CollideExactly(p, Value(t), |t|, q, 1, 1);
    CollideExactly(p, Value(t), 1, q, 1, 1);
  }

  /** The padding widths the settings accept. */
  predicate Accepted(width: nat) {
    1 <= width <= 10
  }

  /** A collision of two documents: distinct numbers, as committed ones are, from counters that start at
      one, at accepted widths. */
  predicate DocumentsCollide(p: string, n: nat, w: nat, q: string, m: nat, v: nat) {
    n >= 1 && m >= 1 && n != m && Accepted(w) && Accepted(v) && Collide(p, n, w, q, m, v)
  }

  /** The longer prefix adds digits, not all of them zeros, and either the first of them is no zero or
      there are at most nine. */
  predicate Risky(p: string, q: string) {
    p <= q && IsDigits(q[|p|..]) && Value(q[|p|..]) != 0 && (q[|p|] != '0' || |q| - |p| <= 9)
  }

  /** Two documents printed under different prefixes, in whichever order, can collide exactly when the
      longer prefix is risky beside the shorter one. */
  lemma PrefixesCollideUnordered(p: string, q: string)
    requires |p| <= |q|
    ensures (exists n: nat, w: nat, m: nat, v: nat :: DocumentsCollide(p, n, w, q, m, v)) <==> Risky(p, q)
  {
    forall n: nat, w: nat, m: nat, v: nat | DocumentsCollide(p, n, w, q, m, v) ensures Risky(p, q) {
      CollisionIsRisky(p, n, w, q, m, v);
    }
    if Risky(p, q) {
      FirstCollides(p, q);
    }
  }

  /** The longer prefix's first document, and the later number it collides with under the shorter one. */
  lemma FirstCollides(p: string, q: string)
    requires Risky(p, q)
    ensures
      var t := q[|p|..] + "1";
      && IsDigits(t) && Value(t) > 1
      && DocumentsCollide(p, Value(t), if t[0] != '0' then 1 else |t|, q, 1, 1)
  {
    PaddedCollision(p, q);
    ValueOfOneMore(q[|p|..]);
  }

  /** A change of prefix: the counter only rises, so what is printed after it has the larger number. */
  predicate ChangeCollides(earlier: string, n: nat, w: nat, later: string, m: nat, v: nat) {
    1 <= n < m && Accepted(w) && Accepted(v) && Collide(earlier, n, w, later, m, v)
  }

  lemma {:induction false} DigitsBeforeAdd(t: string, s: string)
    requires IsDigits(t) && IsDigits(s)
    ensures IsDigits(t + s) && Value(t + s) >= Value(s)
    ensures Value(t) > 0 ==> Value(t + s) > Value(s)
    decreases |s|
  {
    if s == "" {
      assert t + s == t;
    } else {
      DigitsBeforeAdd(t, s[..|s| - 1]);
      assert (t + s)[..|t + s| - 1] == t + s[..|s| - 1];
    }
  }

  /** A prefix that is lengthened, or replaced by one as long, never collides with what came before. */
  lemma LengtheningIsSafe(earlier: string, n: nat, w: nat, later: string, m: nat, v: nat)
    requires |earlier| <= |later| && n < m
    ensures !Collide(earlier, n, w, later, m, v)
  {
    if Collide(earlier, n, w, later, m, v) {
      CollisionAddsDigits(earlier, n, w, later, m, v);
      DecimalReadsBack(n);
      DecimalReadsBack(m);
      PaddingReadsBack(Decimal(n), w);
      PaddingReadsBack(Decimal(m), v);
      DigitsBeforeAdd(later[|earlier|..], PadStart(Decimal(m), v));
    }
  }

  /** After a change, some later number can print as an earlier one did exactly when the new prefix is the
      shorter and the old one was risky beside it. */
  lemma PrefixChangeCollides(earlier: string, later: string)
    ensures (exists n: nat, w: nat, m: nat, v: nat :: ChangeCollides(earlier, n, w, later, m, v)) <==>
            Risky(later, earlier)
  {
    forall n: nat, w: nat, m: nat, v: nat | ChangeCollides(earlier, n, w, later, m, v)
      ensures Risky(later, earlier)
    {
      if |earlier| <= |later| {
        LengtheningIsSafe(earlier, n, w, later, m, v);
      } else {
        assert DocumentsCollide(later, m, v, earlier, n, w);
        CollisionIsRisky(later, m, v, earlier, n, w);
      }
    }
    if Risky(later, earlier) {
      FirstCollides(later, earlier);
      var t := earlier[|later|..] + "1";
      assert ChangeCollides(earlier, 1, 1, later, Value(t), if t[0] != '0' then 1 else |t|);
    }
  }

  /** However many documents came before such a change, if what the old prefix added starts with no zero
      then the last of them will be met again by a number still to come. */
  lemma LastDocumentIsMetAgain(earlier: string, later: string, last: nat)
    requires Risky(later, earlier) && earlier[|later|] != '0' && last >= 1
    ensures
      var t := earlier[|later|..] + Decimal(last);
      IsDigits(t) && ChangeCollides(earlier, last, 1, later, Value(t), 1)
  {
    var added := earlier[|later|..];
    var t := added + Decimal(last);
    DecimalReadsBack(last);
    DigitsBeforeAdd(added, Decimal(last));
    assert t[0] == earlier[|later|];
    DigitsArePadded(t);
    PaddingReadsBack(Decimal(last), 1);
    CollideExactly(later, Value(t), 1, earlier, last, 1);
  }

  lemma CollisionIsRisky(p: string, n: nat, w: nat, q: string, m: nat, v: nat)
    requires |p| <= |q| && DocumentsCollide(p, n, w, q, m, v)
    ensures Risky(p, q)
  {
    CollisionAddsDigits(p, n, w, q, m, v);
    AddedDigitsMatter(q[|p|..], n, w, m, v);
  }

  lemma AddedDigitsMatter(t: string, n: nat, w: nat, m: nat, v: nat)
    requires n >= 1 && n != m && w <= 10 && v >= 1 && IsDigits(t)
    requires PadStart(Decimal(n), w) == t + PadStart(Decimal(m), v)
    ensures Value(t) != 0 && t != "" && (t[0] != '0' || |t| <= 9)
  {
    var other := PadStart(Decimal(m), v);
    DecimalReadsBack(n);
    DecimalReadsBack(m);
    PaddingReadsBack(Decimal(n), w);
    PaddingReadsBack(Decimal(m), v);
    DecimalLeads(n);
    if Value(t) == 0 {
      ZerosAddNothing(t, other);
    } else {
      assert (t + other)[0] == t[0];
    }
  }

  /** An instance: number 1 under "A1", and later, under "A", number 11. */
  lemma RiskyInstance()
    ensures Risky("A", "A1") && ChangeCollides("A1", 1, 1, "A", 11, 1)
  {
    assert "A1"[1..] == "1" && "1"[..0] == "";
    assert Decimal(11) == Decimal(1) + [Digit(1)];
    assert FormatNumber("A", 11, 1) == "A11" && FormatNumber("A1", 1, 1) == "A11";
  }

  /** The claim as written: one UPDATE that returns the counter after its own bump. */
  class Settings {
    var nextNumber: nat
    var prefix: string
    var paddingWidth: nat

    constructor (start: nat, prefix: string, paddingWidth: nat)
      ensures nextNumber == start && this.prefix == prefix && this.paddingWidth == paddingWidth
    {
      nextNumber, this.prefix, this.paddingWidth := start, prefix, paddingWidth;
    }

    method ClaimNumber() returns (number: string)
      modifies this`nextNumber
      ensures nextNumber == old(nextNumber) + 1
      ensures |number| >= |prefix| + paddingWidth && number[..|prefix|] == prefix
      ensures old(nextNumber) >= 1 && |number| > |prefix| + paddingWidth ==> number[|prefix|] != '0'
      ensures IsDigits(number[|prefix|..]) && Value(number[|prefix|..]) == old(nextNumber)
    {
      nextNumber := nextNumber + 1;
      number := FormatNumber(prefix, nextNumber - 1, paddingWidth);
      FormatReadsBack(prefix, nextNumber - 1, paddingWidth);
    }
  }
}
