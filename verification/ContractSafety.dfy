/** What every reachable state of the contract protocol keeps, and what no run can undo. */
module ContractSafety {
  import opened Wrappers
  import opened ContractProtocol

  predicate RowFits(row: Contract) {
    && (row.status.Draft? <==> row.issuedAt.None?)
    && (row.status.Terminated? <==> row.terminatedAt.Some?)
    && !row.status.Expired?
  }

  ghost predicate RowsFit(s: State) {
    forall c | c in s.contracts ::
      RowFits(s.contracts[c]) && c in s.usedIds
      && ParentsHold(s, s.contracts[c].client, s.contracts[c].project)
      && (s.contracts[c].token.Some? ==> s.contracts[c].token.value in s.minted)
  }

  /** No orphan signatures, at most one for each contract, and one for each signed contract. */
  ghost predicate SignaturesFit(s: State) {
    && (forall g | g in s.signatures ::
          s.signatures[g] in s.contracts && s.contracts[s.signatures[g]].status in {Signed, Terminated})
    && (forall g, h | g in s.signatures && h in s.signatures && s.signatures[g] == s.signatures[h] :: g == h)
    && forall c | c in s.contracts && s.contracts[c].status.Signed? :: SignedRow(s, c)
  }

  /** What a request in flight can rely on about a row it has seen or holds. */
  ghost predicate RequestFits(s: State, r: Request) {
    match r
    case Holding(c) => Live(s, c) && s.contracts[c].status.Sent?
    case Erasing(client, seen) =>
      forall c | c in seen ::
        && c in s.usedIds
        && (c in s.contracts ==> seen[c] <= s.contracts[c].version)
        && (c in s.contracts && seen[c] == s.contracts[c].version ==>
              !SignedRow(s, c) && s.contracts[c].client == client)
    case Clearing(client, rows) =>
      forall c | c in rows :: c in s.contracts && !SignedRow(s, c) && s.contracts[c].client == client
    case Sending(c) =>
      c in s.usedIds
      && (c in s.contracts && !HasContent(s.contracts[c].content.blocks) ==> c in s.raced)
    case _ => true
  }

  ghost predicate RequestsFit(s: State) {
    forall req | req in s.requests :: RequestFits(s, s.requests[req])
  }

  ghost predicate LocksExclude(s: State) {
    forall p, q, c | p in s.requests && q in s.requests && Holds(s.requests[p], c) && Holds(s.requests[q], c) ::
      p == q
  }

  ghost predicate ProposalsUnique(s: State) {
    forall c, d | Live(s, c) && Live(s, d) && s.contracts[c].proposal.Some?
                  && s.contracts[c].proposal == s.contracts[d].proposal :: c == d
  }

  ghost predicate TokensUnique(s: State) {
    forall c, d | c in s.contracts && d in s.contracts && s.contracts[c].token.Some?
                  && s.contracts[c].token == s.contracts[d].token :: c == d
  }

  ghost predicate BlanksRaced(s: State) {
    forall c | c in s.contracts && s.contracts[c].issuedAt.Some? && !HasContent(s.contracts[c].content.blocks) ::
      c in s.raced
  }

  ghost predicate Inv(s: State) {
    RowsFit(s) && SignaturesFit(s) && RequestsFit(s) && LocksExclude(s) && ProposalsUnique(s)
    && TokensUnique(s) && BlanksRaced(s)
  }

  // One row replaced.

  /** A row version a statement on an unlocked row may commit. */
  ghost predicate Fits(s: State, c: Id, row: Contract) {
    && c in s.contracts && RowFits(row) && !Locked(s, c) && ParentsHold(s, row.client, row.project)
    && (SignedRow(s, c) ==> row.status in {Signed, Terminated})
    && (row.status.Signed? ==> SignedRow(s, c))
    && (!row.deleted && row.proposal.Some? ==>
          forall d | Live(s, d) && s.contracts[d].proposal == row.proposal :: d == c)
    && (row.token.Some? ==> row.token == s.contracts[c].token || row.token.value !in s.minted)
    && (row.issuedAt.Some? && !HasContent(row.content.blocks) ==> c in s.raced)
  }

  lemma PutKeepsSignatures(s: State, c: Id, row: Contract)
    requires SignaturesFit(s) && Fits(s, c, row)
    ensures SignaturesFit(Put(s, c, row))
  {
  }

  lemma PutKeepsRequest(s: State, c: Id, row: Contract, req: Id)
    requires RequestsFit(s) && Fits(s, c, row) && req in s.requests
    ensures RequestFits(Put(s, c, row), s.requests[req])
  {
  }

  lemma PutKeepsUniqueness(s: State, c: Id, row: Contract)
    requires RowsFit(s) && ProposalsUnique(s) && TokensUnique(s) && Fits(s, c, row)
    ensures ProposalsUnique(Put(s, c, row)) && TokensUnique(Put(s, c, row))
  {
    var after := Put(s, c, row);
    forall d, e | Live(after, d) && Live(after, e) && after.contracts[d].proposal.Some?
                  && after.contracts[d].proposal == after.contracts[e].proposal
      ensures d == e
    {
      assert d != c ==> Live(s, d);
      assert e != c ==> Live(s, e);
    }
  }

  lemma PutKeepsInv(s: State, c: Id, row: Contract)
    requires Inv(s) && Fits(s, c, row)
    ensures Inv(Put(s, c, row))
  {
    PutKeepsSignatures(s, c, row);
    PutKeepsUniqueness(s, c, row);
    forall req | req in s.requests {
      PutKeepsRequest(s, c, row, req);
    }
  }

  lemma DoneKeepsInv(s: State, req: Id)
    requires Inv(s)
    ensures Inv(Done(s, req))
  {
    var after := Done(s, req);
    forall r | r in after.requests ensures RequestFits(after, after.requests[r]) {
      assert RequestFits(s, s.requests[r]);
      assert forall c :: SignedRow(after, c) == SignedRow(s, c);
    }
    forall c | c in s.contracts && s.contracts[c].status.Signed? ensures SignedRow(after, c) {
      assert SignedRow(s, c);
    }
  }

  /** What an UPDATE of one row may produce, statement by statement. */
  lemma UpdatedFits(s: State, r: Request, now: Time, token: Token)
    requires Inv(s)
    requires IsUpdate(r)
    requires RequestFits(s, r) && !Locked(s, r.contract) && (r.Rotating? ==> token !in s.minted)
    requires Updated(s, r, now, token).Some?
    ensures Fits(s, r.contract, Updated(s, r, now, token).value)
  {
    var c := r.contract;
    assert RowFits(s.contracts[c]);
    if SignedRow(s, c) {
      assert s.contracts[c].status in {Signed, Terminated};
    }
    if r.Restoring? {
      assert !ProposalTaken(s, s.contracts[c].proposal);
    }
  }

  lemma SoftDeleteFits(s: State, c: Id)
    requires Inv(s) && Live(s, c) && !Locked(s, c)
    ensures Fits(s, c, s.contracts[c].(deleted := true))
  {
  }

  // Inserts, locks and commits.

  lemma InsertKeepsInv(s: State, r: Request, newId: Id, token: Token)
    requires Inv(s) && r.Inserting? && newId !in s.usedIds && token !in s.minted
    requires !ProposalTaken(s, r.proposal) && ParentsHold(s, r.client, r.project)
    ensures Inv(Insert(s, r, newId, token))
  {
    InsertKeepsRows(s, r, newId, token);
    InsertKeepsSignatures(s, r, newId, token);
    InsertKeepsProposals(s, r, newId, token);
    var after := Insert(s, r, newId, token);
    forall req | req in s.requests ensures RequestFits(after, s.requests[req]) {
      InsertKeepsRequest(s, r, newId, token, req);
    }
  }

  lemma InsertKeepsRows(s: State, r: Request, newId: Id, token: Token)
    requires RowsFit(s) && TokensUnique(s) && BlanksRaced(s)
    requires r.Inserting? && newId !in s.usedIds && token !in s.minted && ParentsHold(s, r.client, r.project)
    ensures
      var after := Insert(s, r, newId, token);
      RowsFit(after) && TokensUnique(after) && BlanksRaced(after)
  {
  }

  lemma InsertKeepsSignatures(s: State, r: Request, newId: Id, token: Token)
    requires RowsFit(s) && SignaturesFit(s) && r.Inserting? && newId !in s.usedIds
    ensures SignaturesFit(Insert(s, r, newId, token))
  {
    forall c ensures SignedRow(Insert(s, r, newId, token), c) <==> SignedRow(s, c) {
    }
  }

  lemma InsertKeepsProposals(s: State, r: Request, newId: Id, token: Token)
    requires RowsFit(s) && ProposalsUnique(s) && r.Inserting? && newId !in s.usedIds
    requires !ProposalTaken(s, r.proposal)
    ensures ProposalsUnique(Insert(s, r, newId, token))
  {
    var after := Insert(s, r, newId, token);
    forall c, d | Live(after, c) && Live(after, d) && after.contracts[c].proposal.Some?
                  && after.contracts[c].proposal == after.contracts[d].proposal
      ensures c == d
    {
      assert c != newId ==> Live(s, c);
      assert d != newId ==> Live(s, d);
    }
  }

  lemma InsertKeepsRequest(s: State, r: Request, newId: Id, token: Token, req: Id)
    requires Inv(s) && r.Inserting? && newId !in s.usedIds && req in s.requests
    ensures RequestFits(Insert(s, r, newId, token), s.requests[req])
  {
  }

  /** What is stored does not depend on who is under way. */
  lemma StoredStays(s: State, requests: map<Id, Request>)
    requires RowsFit(s) && SignaturesFit(s) && ProposalsUnique(s) && TokensUnique(s) && BlanksRaced(s)
    ensures
      var after := s.(requests := requests);
      RowsFit(after) && SignaturesFit(after) && ProposalsUnique(after) && TokensUnique(after)
      && BlanksRaced(after)
  {
    var after := s.(requests := requests);
    forall c ensures SignedRow(after, c) <==> SignedRow(s, c) {
    }
    forall c ensures Live(after, c) <==> Live(s, c) {
    }
  }

  lemma RequestStillFits(s: State, requests: map<Id, Request>, r: Request)
    requires RequestFits(s, r)
    ensures RequestFits(s.(requests := requests), r)
  {
    forall c ensures SignedRow(s.(requests := requests), c) <==> SignedRow(s, c) {
    }
  }

  /** A request enters a phase it may rely on, holding rows nobody else holds. */
  lemma AdvanceKeepsInv(s: State, req: Id, r: Request)
    requires Inv(s) && RequestFits(s, r)
    requires forall c, q | Holds(r, c) && q in s.requests && Holds(s.requests[q], c) :: q == req
    ensures Inv(s.(requests := s.requests[req := r]))
  {
    var after := s.(requests := s.requests[req := r]);
    StoredStays(s, s.requests[req := r]);
    forall q | q in after.requests ensures RequestFits(after, after.requests[q]) {
      RequestStillFits(s, s.requests[req := r], after.requests[q]);
    }
  }

  lemma ReadFits(s: State, intent: Intent)
    requires Inv(s) && Read(s, intent).Some?
    ensures RequestFits(s, Read(s, intent).value)
    ensures forall c :: !Holds(Read(s, intent).value, c)
  {
  }

  lemma UpdateKeepsInv(s: State, req: Id, r: Request, now: Time, token: Token)
    requires Inv(s) && IsUpdate(r) && RequestFits(s, r)
    ensures Inv(UpdateStep(s, req, r, now, token))
  {
    DoneKeepsInv(s, req);
    if !Locked(s, r.contract) && (r.Rotating? ==> token !in s.minted) && Updated(s, r, now, token).Some? {
      UpdatedFits(s, r, now, token);
      PutKeepsInv(s, r.contract, Updated(s, r, now, token).value);
      DoneKeepsInv(Put(s, r.contract, Updated(s, r, now, token).value), req);
    }
  }

  lemma InsertWriteKeepsInv(s: State, req: Id, now: Time, newId: Id, token: Token)
    requires Inv(s) && req in s.requests && s.requests[req].Inserting?
    ensures Inv(WriteStep(s, req, now, newId, token))
  {
    var r := s.requests[req];
    DoneKeepsInv(s, req);
    if newId !in s.usedIds && token !in s.minted && !ProposalTaken(s, r.proposal)
       && ParentsHold(s, r.client, r.project) {
      InsertKeepsInv(s, r, newId, token);
      DoneKeepsInv(Insert(s, r, newId, token), req);
    }
  }

  lemma SigningWriteKeepsInv(s: State, req: Id, now: Time, newId: Id, token: Token)
    requires Inv(s) && req in s.requests && s.requests[req].Signing?
    ensures Inv(WriteStep(s, req, now, newId, token))
  {
    var c := s.requests[req].contract;
    DoneKeepsInv(s, req);
    if !Locked(s, c) && Live(s, c) && s.contracts[c].status.Sent? {
      AdvanceKeepsInv(s, req, Holding(c));
    }
  }

  lemma ErasingWriteKeepsInv(s: State, req: Id, now: Time, newId: Id, token: Token)
    requires Inv(s) && req in s.requests && s.requests[req].Erasing?
    ensures Inv(WriteStep(s, req, now, newId, token))
  {
    var client, seen := s.requests[req].client, s.requests[req].seen;
    DoneKeepsInv(s, req);
    assert RequestFits(s, Erasing(client, seen));
    if SnapshotHolds(s, seen) {
      AdvanceKeepsInv(s, req, Clearing(client, seen.Keys));
    }
  }

  lemma WriteKeepsInv(s: State, req: Id, now: Time, newId: Id, token: Token)
    requires Inv(s)
    ensures Inv(WriteStep(s, req, now, newId, token))
  {
    if req in s.requests {
      match s.requests[req]
      case Inserting(_, _, _, _) => InsertWriteKeepsInv(s, req, now, newId, token);
      case Signing(_) => SigningWriteKeepsInv(s, req, now, newId, token);
      case Erasing(_, _) => ErasingWriteKeepsInv(s, req, now, newId, token);
      case Holding(_) =>
      case Clearing(_, _) =>
      case _ =>
        assert RequestFits(s, s.requests[req]);
        UpdateKeepsInv(s, req, s.requests[req], now, token);
    }
  }

  /** The state once a signing has committed. */
  function Countersign(s: State, req: Id, c: Id, newId: Id): State
    requires c in s.contracts
  {
    var signed := Put(s, c, s.contracts[c].(status := Signed));
    Done(signed.(signatures := s.signatures[newId := c]), req)
  }

  lemma SigningKeepsSignatures(s: State, req: Id, c: Id, newId: Id)
    requires Inv(s) && req in s.requests && s.requests[req] == Holding(c) && newId !in s.signatures
    ensures SignaturesFit(Countersign(s, req, c, newId))
  {
    var after := Countersign(s, req, c, newId);
    assert RequestFits(s, Holding(c));
    assert forall g | g in s.signatures :: s.signatures[g] != c;
    forall d | d in after.contracts && after.contracts[d].status.Signed? ensures SignedRow(after, d) {
      if d == c {
        assert after.signatures[newId] == c;
      } else {
        var g :| g in s.signatures && s.signatures[g] == d;
        assert after.signatures[g] == d;
      }
    }
  }

  lemma SigningKeepsRequests(s: State, req: Id, c: Id, newId: Id)
    requires Inv(s) && req in s.requests && s.requests[req] == Holding(c) && newId !in s.signatures
    ensures RequestsFit(Countersign(s, req, c, newId))
  {
    var after := Countersign(s, req, c, newId);
    assert Live(s, c) && s.contracts[c].status.Sent? by {
      assert RequestFits(s, s.requests[req]);
    }
    forall q | q in after.requests ensures RequestFits(after, after.requests[q]) {
      assert Holds(s.requests[req], c);
      assert !Holds(s.requests[q], c);
      SigningKeepsRequest(s, req, c, newId, s.requests[q]);
    }
  }

  lemma SigningKeepsRequest(s: State, req: Id, c: Id, newId: Id, r: Request)
    requires Live(s, c) && newId !in s.signatures && RequestFits(s, r) && !Holds(r, c)
    ensures RequestFits(Countersign(s, req, c, newId), r)
  {
    var after := Countersign(s, req, c, newId);
    forall d | d != c ensures SignedRow(after, d) <==> SignedRow(s, d) {
      SignedElsewhere(s, after, newId, c, d);
    }
  }

  lemma SignedElsewhere(s: State, after: State, newId: Id, c: Id, d: Id)
    requires newId !in s.signatures && after.signatures == s.signatures[newId := c] && d != c
    ensures SignedRow(after, d) <==> SignedRow(s, d)
  {
    if SignedRow(s, d) {
      var g :| g in s.signatures && s.signatures[g] == d;
      assert after.signatures[g] == d;
    }
  }

  lemma SigningKeepsRows(s: State, req: Id, c: Id, newId: Id)
    requires Inv(s) && req in s.requests && s.requests[req] == Holding(c) && newId !in s.signatures
    ensures
      var after := Countersign(s, req, c, newId);
      RowsFit(after) && BlanksRaced(after) && LocksExclude(after)
  {
    assert RequestFits(s, s.requests[req]);
    assert RowFits(s.contracts[c]);
  }

  lemma SigningKeepsInv(s: State, req: Id, c: Id, newId: Id)
    requires Inv(s) && req in s.requests && s.requests[req] == Holding(c) && newId !in s.signatures
    ensures Inv(Countersign(s, req, c, newId))
  {
    SigningKeepsRows(s, req, c, newId);
    SigningKeepsSignatures(s, req, c, newId);
    SigningKeepsRequests(s, req, c, newId);
    SigningKeepsIndexes(s, req, c, newId);
  }

  lemma SigningKeepsIndexes(s: State, req: Id, c: Id, newId: Id)
    requires ProposalsUnique(s) && TokensUnique(s) && c in s.contracts
    ensures ProposalsUnique(Countersign(s, req, c, newId)) && TokensUnique(Countersign(s, req, c, newId))
  {
    var after := Countersign(s, req, c, newId);
    forall d ensures Live(after, d) <==> Live(s, d) {
    }
    forall d | d in s.contracts ensures
      after.contracts[d].proposal == s.contracts[d].proposal && after.contracts[d].token == s.contracts[d].token
    {
    }
  }

  /** The state once an erasure has committed. */
  function Clear(s: State, req: Id, client: Id, rows: set<Id>): State {
    Done(s.(contracts := s.contracts - rows, clients := s.clients - {client},
            projects := ProjectsWithout(s, client)), req)
  }

  lemma ClearingKeepsInv(s: State, req: Id, client: Id, rows: set<Id>)
    requires Inv(s) && req in s.requests && s.requests[req] == Clearing(client, rows)
    requires !ClearingFails(s, client, rows)
    ensures Inv(Clear(s, req, client, rows))
  {
    assert RequestFits(s, s.requests[req]);
    var after := Clear(s, req, client, rows);
    ClearingKeepsStored(s, req, client, rows);
    forall q | q in after.requests ensures RequestFits(after, after.requests[q]) {
      ClearingKeepsRequest(s, req, client, rows, q);
    }
  }

  lemma ClearingKeepsStored(s: State, req: Id, client: Id, rows: set<Id>)
    requires RowsFit(s) && SignaturesFit(s) && ProposalsUnique(s) && TokensUnique(s) && BlanksRaced(s)
    requires !ClearingFails(s, client, rows) && forall c | c in rows :: c in s.contracts && !SignedRow(s, c)
    ensures
      var after := Clear(s, req, client, rows);
      RowsFit(after) && SignaturesFit(after) && ProposalsUnique(after) && TokensUnique(after)
      && BlanksRaced(after)
  {
    var after := Clear(s, req, client, rows);
    forall c ensures SignedRow(after, c) <==> SignedRow(s, c) {
    }
    forall g | g in s.signatures ensures s.signatures[g] !in rows {
      assert SignedRow(s, s.signatures[g]);
    }
    forall c ensures Live(after, c) ==> Live(s, c) {
    }
  }

  lemma ClearingKeepsRequest(s: State, req: Id, client: Id, rows: set<Id>, q: Id)
    requires Inv(s) && req in s.requests && s.requests[req] == Clearing(client, rows)
    requires q in s.requests && q != req
    ensures RequestFits(Clear(s, req, client, rows), s.requests[q])
  {
    forall c ensures SignedRow(Clear(s, req, client, rows), c) <==> SignedRow(s, c) {
    }
    assert RequestFits(s, s.requests[q]);
    assert forall c | c in rows :: Holds(s.requests[req], c) && !Holds(s.requests[q], c);
  }

  lemma StepKeepsInv(s: State, e: Event)
    requires Inv(s)
    ensures Inv(Step(s, e))
  {
    match e
    case Begin(req, intent) =>
      if req !in s.requests && Read(s, intent).Some? {
        ReadFits(s, intent);
        AdvanceKeepsInv(s, req, Read(s, intent).value);
      }
    case Write(req, now, newId, token) => WriteKeepsInv(s, req, now, newId, token);
    case Commit(req, newId) =>
      if req in s.requests {
        DoneKeepsInv(s, req);
        match s.requests[req]
        case Holding(c) =>
          if newId !in s.signatures && c in s.contracts { SigningKeepsInv(s, req, c, newId); }
        case Clearing(client, rows) =>
          if !ClearingFails(s, client, rows) { ClearingKeepsInv(s, req, client, rows); }
        case _ =>
      }
    case Abort(req) => DoneKeepsInv(s, req);
    case SoftDelete(c) =>
      if Live(s, c) && !Locked(s, c) {
        SoftDeleteFits(s, c);
        PutKeepsInv(s, c, s.contracts[c].(deleted := true));
      }
  }

  /** Every reachable state, whatever the interleaving. */
  lemma {:induction false} RunKeepsInv(s: State, events: seq<Event>)
    requires Inv(s)
    ensures Inv(Run(s, events))
    decreases |events|
  {
    if events != [] {
      RunKeepsInv(s, events[..|events| - 1]);
      StepKeepsInv(Run(s, events[..|events| - 1]), events[|events| - 1]);
    }
  }

  lemma EmptyFits(clients: set<Id>, projects: map<Id, Id>)
    ensures Inv(Empty(clients, projects))
  {
  }

  /** So it holds in every state an instance without contracts can reach. */
  lemma ReachableFits(clients: set<Id>, projects: map<Id, Id>, events: seq<Event>)
    ensures Inv(Run(Empty(clients, projects), events))
  {
    EmptyFits(clients, projects);
    RunKeepsInv(Empty(clients, projects), events);
  }
}
