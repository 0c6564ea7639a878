/** What each step of a contract request does to the stored fields, said without the protocol's own
    functions: what a write that lands changes and keeps, when it does not land, and that requests left
    alone go through. */
module ContractEffects {
  import opened Wrappers
  import opened ContractProtocol
  import opened ContractSafety

  /** No transaction holds the row between its statements and its commit. */
  ghost predicate NobodyHolds(s: State, c: Id) {
    forall q | q in s.requests ::
      s.requests[q] != Holding(c) && (s.requests[q].Clearing? ==> c !in s.requests[q].rows)
  }

  /** Nothing but one row's fields changed, and the request is over. */
  ghost predicate OnlyRow(s: State, after: State, c: Id, req: Id) {
    && c in s.contracts && after.contracts.Keys == s.contracts.Keys
    && (forall d | d in s.contracts && d != c :: after.contracts[d] == s.contracts[d])
    && NoRow(s, after, req)
  }

  ghost predicate NoRow(s: State, after: State, req: Id) {
    && after.signatures == s.signatures && after.clients == s.clients && after.projects == s.projects
    && after.requests == s.requests - {req}
  }

  lemma HeldRowWaits(s: State, req: Id, now: Time, newId: Id, token: Token)
    requires req in s.requests
    requires
      var r := s.requests[req];
      || r.Updating? || r.Sending? || r.Terminating? || r.Restoring? || r.Rotating? || r.Revoking? || r.Signing?
    ensures !NobodyHolds(s, s.requests[req].contract) ==> WriteStep(s, req, now, newId, token) == s
  {
    var c := s.requests[req].contract;
    if !NobodyHolds(s, c) {
      var q :| q in s.requests && (s.requests[q] == Holding(c) || (s.requests[q].Clearing? && c in s.requests[q].rows));
      assert Holds(s.requests[q], c);
    }
  }

  lemma FreeRowIsUnlocked(s: State, c: Id)
    ensures NobodyHolds(s, c) <==> !Locked(s, c)
  {
    forall q | q in s.requests
      ensures Holds(s.requests[q], c) <==>
              s.requests[q] == Holding(c) || (s.requests[q].Clearing? && c in s.requests[q].rows)
    {
    }
  }

  /** A termination ends a live sent or signed contract, at the time it is written, and touches nothing
      else; on any other row it does nothing. */
  lemma TerminationLands(s: State, req: Id, now: Time, newId: Id, token: Token, c: Id)
    requires req in s.requests && s.requests[req] == Terminating(c) && NobodyHolds(s, c)
    ensures
      var after := WriteStep(s, req, now, newId, token);
      if c in s.contracts && !s.contracts[c].deleted && s.contracts[c].status in {Sent, Signed} then
        && OnlyRow(s, after, c, req)
        && after.contracts[c].status.Terminated? && after.contracts[c].terminatedAt == Some(now)
        && after.contracts[c].issuedAt == s.contracts[c].issuedAt
        && after.contracts[c].content == s.contracts[c].content && SameLinks(s, after, c)
        && !after.contracts[c].deleted && after.contracts[c].token == s.contracts[c].token
      else NoRow(s, after, req) && after.contracts == s.contracts
  {
    FreeRowIsUnlocked(s, c);
  }

  predicate SameLinks(s: State, after: State, c: Id)
    requires c in s.contracts && c in after.contracts
  {
    && after.contracts[c].client == s.contracts[c].client
    && after.contracts[c].project == s.contracts[c].project
    && after.contracts[c].proposal == s.contracts[c].proposal
  }

  /** A send issues a live draft as it then stands, at the time it is written. */
  lemma SendLands(s: State, req: Id, now: Time, newId: Id, token: Token, c: Id)
    requires req in s.requests && s.requests[req] == Sending(c) && NobodyHolds(s, c)
    ensures
      var after := WriteStep(s, req, now, newId, token);
      if c in s.contracts && !s.contracts[c].deleted && s.contracts[c].status.Draft? then
        && OnlyRow(s, after, c, req)
        && after.contracts[c].status.Sent? && after.contracts[c].issuedAt == Some(now)
        && after.contracts[c].terminatedAt == s.contracts[c].terminatedAt
        && after.contracts[c].content == s.contracts[c].content && SameLinks(s, after, c)
        && !after.contracts[c].deleted && after.contracts[c].token == s.contracts[c].token
      else NoRow(s, after, req) && after.contracts == s.contracts
  {
    FreeRowIsUnlocked(s, c);
  }

  /** An update replaces parents and content of a live draft, if the parents are there by then. */
  lemma UpdateLands(
    s: State, req: Id, now: Time, newId: Id, token: Token, c: Id, client: Id, project: Option<Id>, content: Content)
    requires req in s.requests && s.requests[req] == Updating(c, client, project, content) && NobodyHolds(s, c)
    ensures
      var after := WriteStep(s, req, now, newId, token);
      if c in s.contracts && !s.contracts[c].deleted && s.contracts[c].status.Draft? && client in s.clients
         && (project.Some? ==> project.value in s.projects && s.projects[project.value] == client)
      then
        && OnlyRow(s, after, c, req)
        && after.contracts[c].client == client && after.contracts[c].project == project
        && after.contracts[c].content == content && after.contracts[c].proposal == s.contracts[c].proposal
        && after.contracts[c].status.Draft? && after.contracts[c].issuedAt == s.contracts[c].issuedAt
        && after.contracts[c].terminatedAt == s.contracts[c].terminatedAt
        && !after.contracts[c].deleted && after.contracts[c].token == s.contracts[c].token
      else NoRow(s, after, req) && after.contracts == s.contracts
  {
    FreeRowIsUnlocked(s, c);
  }

  /** A restore takes a row out of the trash unless another live contract has its proposal. */
  lemma RestoreLands(s: State, req: Id, now: Time, newId: Id, token: Token, c: Id)
    requires req in s.requests && s.requests[req] == Restoring(c) && NobodyHolds(s, c)
    ensures
      var after := WriteStep(s, req, now, newId, token);
      if c in s.contracts && s.contracts[c].deleted
         && (s.contracts[c].proposal.Some? ==>
               forall d | d in s.contracts && !s.contracts[d].deleted ::
                 s.contracts[d].proposal != s.contracts[c].proposal)
      then
        && OnlyRow(s, after, c, req) && !after.contracts[c].deleted
        && after.contracts[c] ==
           s.contracts[c].(deleted := false, version := after.contracts[c].version)
      else NoRow(s, after, req) && after.contracts == s.contracts
  {
    FreeRowIsUnlocked(s, c);
    if c in s.contracts {
      FreeProposal(s, s.contracts[c].proposal);
    }
  }

  lemma FreeProposal(s: State, proposal: Option<Id>)
    ensures !ProposalTaken(s, proposal) <==>
      (proposal.Some? ==> forall d | d in s.contracts && !s.contracts[d].deleted :: s.contracts[d].proposal != proposal)
  {
    if proposal.Some? && exists d | d in s.contracts :: !s.contracts[d].deleted && s.contracts[d].proposal == proposal {
      var d :| d in s.contracts && !s.contracts[d].deleted && s.contracts[d].proposal == proposal;
      assert Live(s, d);
    }
  }

  /** A rotation with a fresh token leaves that token on a live row, a revocation none. */
  lemma LinkChangeLands(s: State, req: Id, now: Time, newId: Id, token: Token, c: Id)
    requires req in s.requests && NobodyHolds(s, c)
    requires s.requests[req] == Revoking(c) || (s.requests[req] == Rotating(c) && token !in s.minted)
    ensures
      var after := WriteStep(s, req, now, newId, token);
      if c in s.contracts && !s.contracts[c].deleted then
        && OnlyRow(s, after, c, req)
        && after.contracts[c].token == (if s.requests[req].Rotating? then Some(token) else None)
        && after.contracts[c] ==
           s.contracts[c].(token := after.contracts[c].token, version := after.contracts[c].version)
      else NoRow(s, after, req) && after.contracts == s.contracts
  {
    FreeRowIsUnlocked(s, c);
  }

  /** A new contract is a draft of what was asked for, under a fresh id and token, if its parents are there
      and its proposal free by then. */
  lemma InsertLands(s: State, req: Id, now: Time, newId: Id, token: Token)
    requires req in s.requests && s.requests[req].Inserting? && newId !in s.usedIds && token !in s.minted
    ensures
      var r, after := s.requests[req], WriteStep(s, req, now, newId, token);
      && NoRow(s, after, req)
      && if r.client in s.clients
            && (r.project.Some? ==> r.project.value in s.projects && s.projects[r.project.value] == r.client)
            && (r.proposal.Some? ==>
                  forall d | d in s.contracts && !s.contracts[d].deleted :: s.contracts[d].proposal != r.proposal)
         then
           after.contracts == s.contracts[newId :=
             Contract(r.client, r.project, r.proposal, r.content, Draft, None, None, Some(token), false, 0)]
         else after.contracts == s.contracts
  {
    FreeProposal(s, s.requests[req].proposal);
  }

  /** A soft delete puts a live row nobody holds in the trash, and keeps all of it. */
  lemma SoftDeleteLands(s: State, c: Id)
    ensures
      var after := Step(s, SoftDelete(c));
      if c in s.contracts && !s.contracts[c].deleted && NobodyHolds(s, c) then
        && after.contracts.Keys == s.contracts.Keys && after.contracts[c].deleted
        && after.contracts[c] == s.contracts[c].(deleted := true, version := after.contracts[c].version)
        && (forall d | d in s.contracts && d != c :: after.contracts[d] == s.contracts[d])
        && after.signatures == s.signatures && after.requests == s.requests
        && after.clients == s.clients && after.projects == s.projects
      else after == s
  {
    FreeRowIsUnlocked(s, c);
  }

  // Signing and erasing.

  /** A signing takes the row's lock if the row is still live and sent, and ends empty-handed otherwise. */
  lemma SigningTakesRow(s: State, req: Id, now: Time, newId: Id, token: Token, c: Id)
    requires req in s.requests && s.requests[req] == Signing(c) && NobodyHolds(s, c)
    ensures
      var after := WriteStep(s, req, now, newId, token);
      if c in s.contracts && !s.contracts[c].deleted && s.contracts[c].status.Sent? then
        after == s.(requests := s.requests[req := Holding(c)])
      else NoRow(s, after, req) && after.contracts == s.contracts
  {
    FreeRowIsUnlocked(s, c);
  }

  /** Its commit signs the row and adds the one signature. */
  lemma SigningCommitLands(s: State, req: Id, newId: Id, c: Id)
    requires req in s.requests && s.requests[req] == Holding(c) && newId !in s.signatures && c in s.contracts
    ensures
      var after := CommitStep(s, req, newId);
      && after.signatures == s.signatures[newId := c]
      && after.contracts.Keys == s.contracts.Keys && after.contracts[c].status.Signed?
      && after.contracts[c] == s.contracts[c].(status := Signed, version := after.contracts[c].version)
      && (forall d | d in s.contracts && d != c :: after.contracts[d] == s.contracts[d])
      && after.clients == s.clients && after.projects == s.projects && after.requests == s.requests - {req}
  {
  }

  /** An erasure's commit takes the client with its projects and rows and leaves every other row as it was,
      or, when a contract of the client came later or a row it takes is signed, leaves all as it was. */
  lemma ErasureCommitLands(s: State, req: Id, newId: Id, client: Id, rows: set<Id>)
    requires req in s.requests && s.requests[req] == Clearing(client, rows)
    ensures
      var after := CommitStep(s, req, newId);
      if (forall c | c in s.contracts && s.contracts[c].client == client :: c in rows)
         && forall g | g in s.signatures :: s.signatures[g] !in rows
      then
        && after.clients == s.clients - {client} && after.signatures == s.signatures
        && (forall p :: p in after.projects <==> p in s.projects && s.projects[p] != client)
        && (forall p | p in after.projects :: after.projects[p] == s.projects[p])
        && (forall c :: c in after.contracts <==> c in s.contracts && c !in rows)
        && (forall c | c in after.contracts :: after.contracts[c] == s.contracts[c])
        && after.requests == s.requests - {req}
      else NoRow(s, after, req) && after.contracts == s.contracts
  {
  }

  /** With nothing in between, an erasure of a client without signed contracts goes through. */
  lemma UndisturbedErasure(s: State, req: Id, client: Id)
    requires req !in s.requests && client in s.clients
    requires forall c :: NobodyHolds(s, c)
    requires forall g | g in s.signatures && s.signatures[g] in s.contracts ::
      s.contracts[s.signatures[g]].client != client
    ensures
      var after := Step(Step(Step(s, Begin(req, Erase(client))), Write(req, 0, 0, 0)), Commit(req, 0));
      && after.clients == s.clients - {client} && after.signatures == s.signatures
      && (forall c :: c in after.contracts <==> c in s.contracts && s.contracts[c].client != client)
      && (forall c | c in after.contracts :: after.contracts[c] == s.contracts[c])
      && after.requests == s.requests
  {
    var rows := ContractsOf(s, client).Keys;
    assert forall c :: c in rows <==> c in s.contracts && s.contracts[c].client == client;
    ErasureTakesRows(s, req, client);
    var held := s.(requests := s.requests[req := Clearing(client, rows)]);
    ErasureCommitLands(held, req, 0, client, rows);
    assert held.requests - {req} == s.requests;
  }

  lemma ErasureTakesRows(s: State, req: Id, client: Id)
    requires req !in s.requests && client in s.clients
    requires forall c :: NobodyHolds(s, c)
    requires forall g | g in s.signatures && s.signatures[g] in s.contracts ::
      s.contracts[s.signatures[g]].client != client
    ensures Step(Step(s, Begin(req, Erase(client))), Write(req, 0, 0, 0)) ==
            s.(requests := s.requests[req := Clearing(client, ContractsOf(s, client).Keys)])
  {
    forall c | c in ContractsOf(s, client) ensures !SignedRow(s, c) {
    }
    var began := s.(requests := s.requests[req := Erasing(client, ContractsOf(s, client))]);
    assert Step(s, Begin(req, Erase(client))) == began;
    forall c ensures !Locked(began, c) {
      FreeRowIsUnlocked(s, c);
    }
    assert SnapshotHolds(began, ContractsOf(s, client));
  }

  /** An erasure that met a locked row, or one changed since its snapshot, stops without a trace. */
  lemma DisturbedErasureStops(s: State, req: Id, now: Time, newId: Id, token: Token, client: Id, seen: map<Id, nat>)
    requires req in s.requests && s.requests[req] == Erasing(client, seen)
    requires exists c | c in seen ::
      c !in s.contracts || s.contracts[c].version != seen[c] || !NobodyHolds(s, c)
    ensures
      var after := WriteStep(s, req, now, newId, token);
      NoRow(s, after, req) && after.contracts == s.contracts
  {
    var c :| c in seen && (c !in s.contracts || s.contracts[c].version != seen[c] || !NobodyHolds(s, c));
    FreeRowIsUnlocked(s, c);
  }

  // What a request needs to begin.

  /** The whole lifecycle: nothing leads back to a draft, and nothing out of an expired or terminated
      contract. */
  lemma TransitionsExactly(current: Status, next: Status)
    ensures CanTransition(current, next) <==>
      (current, next) in {(Draft, Sent), (Sent, Signed), (Sent, Expired), (Sent, Terminated), (Signed, Terminated)}
  {
  }

  /** A send begins on a live draft that shows something. */
  lemma SendBegins(s: State, req: Id, c: Id)
    requires req !in s.requests
    ensures Begins(s, req, Send(c), Sending(c)) <==>
      && c in s.contracts && !s.contracts[c].deleted && s.contracts[c].status.Draft?
      && exists block | block in s.contracts[c].content.blocks :: !block.hidden
  {
    if c in s.contracts {
      ShownExactly(s.contracts[c].content.blocks);
    }
  }

  /** Which other requests on one contract begin at all, and as what. */
  lemma BeginsExactly(s: State, req: Id, c: Id)
    requires req !in s.requests
    ensures Begins(s, req, Terminate(c), Terminating(c)) <==>
      c in s.contracts && !s.contracts[c].deleted && s.contracts[c].status in {Sent, Signed}
    ensures Begins(s, req, Restore(c), Restoring(c)) <==> c in s.contracts && s.contracts[c].deleted
  {
  }

  lemma LinkChangeBegins(s: State, req: Id, c: Id)
    requires req !in s.requests
    ensures Begins(s, req, Rotate(c), Rotating(c)) <==>
      c in s.contracts && !s.contracts[c].deleted && s.contracts[c].issuedAt.Some?
    ensures Begins(s, req, Revoke(c), Revoking(c)) <==>
      && c in s.contracts && !s.contracts[c].deleted && s.contracts[c].issuedAt.Some?
      && s.contracts[c].token.Some?
  {
  }

  /** The request is under way after its read; one that is turned away leaves no trace. */
  predicate Begins(s: State, req: Id, intent: Intent, r: Request) {
    Step(s, Begin(req, intent)) == s.(requests := s.requests[req := r])
  }

  lemma RefusedLeavesNoTrace(s: State, req: Id, intent: Intent)
    ensures Step(s, Abort(req)) == s.(requests := s.requests - {req})
    ensures
      var after := Step(s, Begin(req, intent));
      after == s || (req !in s.requests && req in after.requests && after == s.(requests := after.requests)
                     && after.requests - {req} == s.requests)
  {
    if req !in s.requests && Read(s, intent).Some? {
      assert s.requests[req := Read(s, intent).value] - {req} == s.requests;
    }
  }

  lemma ShownExactly(blocks: seq<Block>)
    ensures HasContent(blocks) <==> exists block | block in blocks :: !block.hidden
  {
    if block :| block in blocks && !block.hidden {
      var i :| 0 <= i < |blocks| && blocks[i] == block;
    }
  }

  /** A create and an update begin when the parents are there, a conversion when its proposal is free. */
  lemma WritersBegin(
    s: State, req: Id, c: Id, proposal: Id, client: Id, project: Option<Id>, content: Content)
    requires req !in s.requests
    ensures Begins(s, req, Create(client, project, content), Inserting(client, project, None, content)) <==>
      client in s.clients && (project.Some? ==> project.value in s.projects && s.projects[project.value] == client)
    ensures
      Begins(s, req, Convert(proposal, client, project, content),
             Inserting(client, project, Some(proposal), content)) <==>
      forall d | d in s.contracts && !s.contracts[d].deleted :: s.contracts[d].proposal != Some(proposal)
    ensures Begins(s, req, Update(c, client, project, content), Updating(c, client, project, content)) <==>
      && c in s.contracts && !s.contracts[c].deleted && s.contracts[c].status.Draft?
      && client in s.clients
      && (project.Some? ==> project.value in s.projects && s.projects[project.value] == client)
  {
    FreeProposal(s, Some(proposal));
  }

  /** A signing begins when the row has the token presented, is live and sent, and its last day has not
      passed; an erasure when the client is there and no contract of it is signed. */
  lemma SignersBegin(s: State, req: Id, c: Id, token: Token, today: Time)
    requires req !in s.requests && RowsFit(s)
    ensures Begins(s, req, Sign(c, token, today), Signing(c)) <==>
      && c in s.contracts && !s.contracts[c].deleted && s.contracts[c].token == Some(token)
      && s.contracts[c].status.Sent?
      && (s.contracts[c].content.effectiveUntil.Some? ==> today <= s.contracts[c].content.effectiveUntil.value)
  {
    if c in s.contracts {
      assert RowFits(s.contracts[c]);
    }
  }

  lemma ErasureBegins(s: State, req: Id, client: Id)
    requires req !in s.requests
    ensures Step(s, Begin(req, Erase(client))) != s <==>
      && client in s.clients
      && forall g | g in s.signatures && s.signatures[g] in s.contracts ::
           s.contracts[s.signatures[g]].client != client
  {
    if client in s.clients {
      if g :| g in s.signatures && s.signatures[g] in s.contracts && s.contracts[s.signatures[g]].client == client {
        assert SignedRow(s, s.signatures[g]);
      }
    }
  }
}
