/** The contract actions as the code writes them, one caller at a time on the stored rows. Each is the
    protocol's own read and write run back to back, so what the protocol keeps, they keep. */
module ContractActions {
  import opened Wrappers
  import opened ContractProtocol
  import opened ContractSafety

  datatype ContractError =
    | NotFound | NotDraft | InvalidTransition | BlocksRequired | ParentRequired | ParentNotFound
    | ClientProjectMismatch | NotConvertible | AlreadyConverted | RestoreBlocked | NotIssued
    | AlreadyRevoked | Unavailable

  datatype Result = Data(id: Id) | Failed(error: ContractError)

  /** The parents a form names, and what they resolve to. */
  datatype ParentIds = ParentIds(project: Option<Id>, client: Option<Id>)

  datatype Resolution = Resolved(project: Option<Id>, client: Id) | Unresolved(error: ContractError)

  datatype Proposal = Proposal(client: Id, project: Option<Id>, accepted: bool, deleted: bool)

  /** A read and its write with nothing in between. */
  function Alone(s: State, intent: Intent, now: Time, newId: Id, token: Token): State {
    WriteStep(Step(s, Begin(0, intent)), 0, now, newId, token)
  }

  /** One row became the given one, in its next version, and every other row is as it was. */
  predicate Replaced(before: map<Id, Contract>, after: map<Id, Contract>, c: Id, row: Contract) {
    && c in before && after.Keys == before.Keys
    && after[c] == row.(version := before[c].version + 1)
    && forall d | d in before && d != c :: after[d] == before[d]
  }

  class ContractTable {
    var contracts: map<Id, Contract>
    var signatures: map<Id, Id>
    var minted: set<Token>
    var usedIds: set<Id>
    const clients: set<Id>
    const projects: map<Id, Id>
    const proposals: map<Id, Proposal>
    const trashedClients: set<Id>
    const trashedProjects: set<Id>

    ghost function Rows(): State
      reads this
    {
      State(contracts, signatures, clients, projects, map[], minted, usedIds, {})
    }

    /** Every project has its client, and every proposal parents that agree. */
    ghost predicate ParentsFit() {
      && (forall p | p in projects :: projects[p] in clients)
      && forall p | p in proposals ::
           && proposals[p].client in clients
           && (proposals[p].project.Some? ==>
                 proposals[p].project.value in projects
                 && projects[proposals[p].project.value] == proposals[p].client)
    }

    ghost predicate Valid()
      reads this
    {
      Inv(Rows()) && ParentsFit()
    }

    constructor (
      clients: set<Id>, projects: map<Id, Id>, proposals: map<Id, Proposal>, trashedClients: set<Id>,
      trashedProjects: set<Id>)
      ensures Inv(Rows()) && Rows() == Empty(clients, projects)
      ensures this.proposals == proposals
      ensures this.trashedClients == trashedClients && this.trashedProjects == trashedProjects
    {
      contracts, signatures, minted, usedIds := map[], map[], {}, {};
      this.clients, this.projects, this.proposals := clients, projects, proposals;
      this.trashedClients, this.trashedProjects := trashedClients, trashedProjects;
    }

    predicate LiveClient(c: Id)
      reads this
    {
      c in clients && c !in trashedClients
    }

    predicate LiveProject(p: Id)
      reads this
    {
      p in projects && p !in trashedProjects
    }

    /** A form's parents resolve when each one named is live and, named together, they agree. */
    predicate Resolvable(values: ParentIds)
      reads this
    {
      && (values.project.Some? || values.client.Some?)
      && (values.project.Some? ==> LiveProject(values.project.value))
      && (values.client.Some? ==> LiveClient(values.client.value))
      && (values.project.Some? && values.client.Some? ==> projects[values.project.value] == values.client.value)
    }

    /** The resolved pair is one the foreign keys accept: the client comes off the project. */
    method ResolveContractParents(values: ParentIds) returns (resolution: Resolution)
      requires Valid()
      ensures resolution.Resolved? <==> Resolvable(values)
      ensures resolution.Resolved? ==>
        && ParentsHold(Rows(), resolution.client, resolution.project) && resolution.project == values.project
        && (values.client.Some? ==> resolution.client == values.client.value)
        && (values.project.Some? ==>
              values.project.value in projects && projects[values.project.value] == resolution.client)
      ensures resolution == Unresolved(ParentRequired) <==> values.project.None? && values.client.None?
      ensures resolution == Unresolved(ParentNotFound) <==>
        || (values.project.Some? &&
            (values.project.value !in projects || values.project.value in trashedProjects))
        || (values.client.Some? && (values.client.value !in clients || values.client.value in trashedClients))
      ensures resolution.Unresolved? ==>
        resolution.error in {ParentRequired, ParentNotFound, ClientProjectMismatch}
      ensures resolution == Unresolved(ClientProjectMismatch) ==>
        && values.project.Some? && values.client.Some? && values.project.value in projects
        && projects[values.project.value] != values.client.value
    {
      if values.project.None? && values.client.None? {
        return Unresolved(ParentRequired);
      }
      if values.project.Some? && (values.project.value !in projects || values.project.value in trashedProjects) {
        return Unresolved(ParentNotFound);
      }
      if values.client.Some? && (values.client.value !in clients || values.client.value in trashedClients) {
        return Unresolved(ParentNotFound);
      }
      if values.project.Some? && values.client.Some?
         && projects[values.project.value] != values.client.value {
        return Unresolved(ClientProjectMismatch);
      }
      resolution := Resolved(values.project,
        if values.project.Some? then projects[values.project.value] else values.client.value);
    }

    /** One UPDATE statement that matched its row. */
    method SetRow(c: Id, row: Contract)
      requires c in contracts
      modifies this`contracts, this`minted
      ensures Rows() == Put(old(Rows()), c, row)
      ensures Replaced(old(contracts), contracts, c, row)
    {
      contracts := contracts[c := row.(version := contracts[c].version + 1)];
      minted := minted + if row.token.Some? then {row.token.value} else {};
    }

    /** A request whose read went through, and its guarded UPDATE with nothing in between. */
    method Rewrite(c: Id, row: Contract, ghost intent: Intent, ghost now: Time, ghost token: Token)
      requires Valid() && c in contracts && !intent.Restore? && (intent.Rotate? ==> token !in minted)
      requires Read(Rows(), intent).Some? && IsUpdate(Read(Rows(), intent).value)
      requires
        var r := Read(Rows(), intent).value;
        r.contract == c && Updated(Rows(), r, now, token) == Some(row)
      modifies this`contracts, this`minted
      ensures Valid() && Rows() == Alone(old(Rows()), intent, now, 0, token)
      ensures Replaced(old(contracts), contracts, c, row)
    {
      AloneKeepsInv(Rows(), intent, now, 0, token);
      AloneUpdates(Rows(), intent, now, token);
      SetRow(c, row);
    }

    method InsertDraft(client: Id, project: Option<Id>, proposal: Option<Id>, content: Content, newId: Id, token: Token)
      modifies this`contracts, this`minted, this`usedIds
      ensures Rows() == Insert(old(Rows()), Inserting(client, project, proposal, content), newId, token)
    {
      contracts := contracts[newId :=
        Contract(client, project, proposal, content, Draft, None, None, Some(token), false, 0)];
      minted, usedIds := minted + {token}, usedIds + {newId};
    }

    /** A draft that was never issued, terminated or put in the trash. */
    static predicate NewDraft(row: Contract) {
      row.status.Draft? && row.issuedAt.None? && row.terminatedAt.None? && !row.deleted
    }

    method CreateContract(values: ParentIds, content: Content, newId: Id, token: Token) returns (result: Result)
      requires Valid() && newId !in usedIds && token !in minted
      modifies this
      ensures Valid() && (result.Data? <==> Resolvable(values))
      ensures result.Data? ==>
        && newId in contracts && contracts[newId].project == values.project
        && (values.client.Some? ==> contracts[newId].client == values.client.value)
        && Rows() ==
           Alone(old(Rows()), Create(contracts[newId].client, values.project, content), 0, newId, token)
      ensures result.Data? ==>
        && result.id == newId && signatures == old(signatures)
        && (values.project.Some? ==> contracts[newId].client == projects[values.project.value])
        && contracts[newId].proposal.None? && contracts[newId].content == content
        && contracts[newId].token == Some(token)
        && contracts == old(contracts)[newId := contracts[newId]] && NewDraft(contracts[newId])
      ensures result.Failed? ==> Rows() == old(Rows())
      ensures result == Failed(ParentRequired) <==> values.project.None? && values.client.None?
      ensures result.Failed? ==> result.error in {ParentRequired, ParentNotFound, ClientProjectMismatch}
    {
      ghost var before := Rows();
      var parents := ResolveContractParents(values);
      if parents.Unresolved? {
        return Failed(parents.error);
      }
      ghost var intent := Create(parents.client, parents.project, content);
      AloneKeepsInv(before, intent, 0, newId, token);
      AloneInserts(before, intent, newId, token);
      InsertDraft(parents.client, parents.project, None, content, newId, token);
      result := Data(newId);
    }

    method UpdateContract(c: Id, values: ParentIds, content: Content) returns (result: Result)
      requires Valid()
      modifies this
      ensures Valid()
      ensures result.Data? <==>
        Live(old(Rows()), c) && old(contracts)[c].status.Draft? && Resolvable(values)
      ensures result.Data? ==>
        && c in contracts && contracts[c].content == content && contracts[c].project == values.project
        && (values.client.Some? ==> contracts[c].client == values.client.value)
        && Rows() == Alone(old(Rows()), Update(c, contracts[c].client, values.project, content), 0, 0, 0)
      ensures result.Data? ==>
        && result.id == c && signatures == old(signatures)
        && (values.project.Some? ==> contracts[c].client == projects[values.project.value])
        && contracts == old(contracts)[c := contracts[c]] && NewDraft(contracts[c])
        && contracts[c].token == old(contracts)[c].token && contracts[c].proposal == old(contracts)[c].proposal
      ensures result.Failed? ==> Rows() == old(Rows())
      ensures result == Failed(NotFound) <==> !(c in old(contracts) && !old(contracts)[c].deleted)
      ensures result == Failed(NotDraft) <==>
        c in old(contracts) && !old(contracts)[c].deleted && !old(contracts)[c].status.Draft?
      ensures result.Failed? ==>
        result.error in {NotFound, NotDraft, ParentRequired, ParentNotFound, ClientProjectMismatch}
    {
      if c !in contracts || contracts[c].deleted {
        return Failed(NotFound);
      }
      if !contracts[c].status.Draft? {
        return Failed(NotDraft);
      }
      var parents := ResolveContractParents(values);
      if parents.Unresolved? {
        return Failed(parents.error);
      }
      ghost var intent := Update(c, parents.client, parents.project, content);
      Rewrite(c, contracts[c].(client := parents.client, project := parents.project, content := content), intent, 0, 0);
      result := Data(c);
    }

    method SendContract(c: Id, now: Time) returns (result: Result)
      requires Valid()
      modifies this
      ensures Rows() == Alone(old(Rows()), Send(c), now, 0, 0) && Valid()
      ensures result.Data? <==>
        Live(old(Rows()), c) && old(contracts)[c].status.Draft? && HasContent(old(contracts)[c].content.blocks)
      ensures result.Data? ==>
        && result.id == c && signatures == old(signatures)
        && Replaced(old(contracts), contracts, c, old(contracts)[c].(status := Sent, issuedAt := Some(now)))
      ensures result.Failed? ==> Rows() == old(Rows())
      ensures result == Failed(NotFound) <==> !(c in old(contracts) && !old(contracts)[c].deleted)
      ensures result == Failed(InvalidTransition) <==>
        c in old(contracts) && !old(contracts)[c].deleted && !old(contracts)[c].status.Draft?
      ensures result == Failed(BlocksRequired) <==>
        && c in old(contracts) && !old(contracts)[c].deleted && old(contracts)[c].status.Draft?
        && forall block | block in old(contracts)[c].content.blocks :: block.hidden
    {
      AloneRefused(Rows(), Send(c), now, 0, 0);
      if c in contracts {
        CanEnd(contracts[c].status);
        BlankIsAllHidden(contracts[c].content.blocks);
      }
      if c !in contracts || contracts[c].deleted {
        return Failed(NotFound);
      }
      if !CanTransition(contracts[c].status, Sent) {
        return Failed(InvalidTransition);
      }
      if !HasContent(contracts[c].content.blocks) {
        return Failed(BlocksRequired);
      }
      Rewrite(c, contracts[c].(status := Sent, issuedAt := Some(now)), Send(c), now, 0);
      result := Data(c);
    }

    method TerminateContract(c: Id, now: Time) returns (result: Result)
      requires Valid()
      modifies this
      ensures Rows() == Alone(old(Rows()), Terminate(c), now, 0, 0) && Valid()
      ensures result.Data? <==> Live(old(Rows()), c) && old(contracts)[c].status in {Sent, Signed}
      ensures result.Data? ==>
        && result.id == c && signatures == old(signatures)
        && Replaced(old(contracts), contracts, c,
             old(contracts)[c].(status := Terminated, terminatedAt := Some(now)))
      ensures result.Failed? ==> Rows() == old(Rows())
      ensures result == Failed(NotFound) <==> !(c in old(contracts) && !old(contracts)[c].deleted)
      ensures result == Failed(InvalidTransition) <==>
        c in old(contracts) && !old(contracts)[c].deleted && old(contracts)[c].status !in {Sent, Signed}
    {
      AloneRefused(Rows(), Terminate(c), now, 0, 0);
      if c in contracts {
        CanEnd(contracts[c].status);
      }
      if c !in contracts || contracts[c].deleted {
        return Failed(NotFound);
      }
      if !CanTransition(contracts[c].status, Terminated) {
        return Failed(InvalidTransition);
      }
      Rewrite(c, contracts[c].(status := Terminated, terminatedAt := Some(now)), Terminate(c), now, 0);
      result := Data(c);
    }

    method RotateContractPublicLink(c: Id, token: Token) returns (result: Result)
      requires Valid() && token !in minted
      modifies this
      ensures Rows() == Alone(old(Rows()), Rotate(c), 0, 0, token) && Valid()
      ensures result.Data? <==> Live(old(Rows()), c) && old(contracts)[c].issuedAt.Some?
      ensures result.Data? ==>
        && result.id == c && signatures == old(signatures)
        && Replaced(old(contracts), contracts, c, old(contracts)[c].(token := Some(token)))
      ensures result.Failed? ==> Rows() == old(Rows())
      ensures result == Failed(NotFound) <==> !(c in old(contracts) && !old(contracts)[c].deleted)
      ensures result == Failed(NotIssued) <==>
        c in old(contracts) && !old(contracts)[c].deleted && old(contracts)[c].issuedAt.None?
    {
      AloneRefused(Rows(), Rotate(c), 0, 0, token);
      if c !in contracts || contracts[c].deleted {
        return Failed(NotFound);
      }
      if contracts[c].issuedAt.None? {
        return Failed(NotIssued);
      }
      Rewrite(c, contracts[c].(token := Some(token)), Rotate(c), 0, token);
      result := Data(c);
    }

    method RevokeContractPublicLink(c: Id) returns (result: Result)
      requires Valid()
      modifies this
      ensures Rows() == Alone(old(Rows()), Revoke(c), 0, 0, 0) && Valid()
      ensures result.Data? <==>
        Live(old(Rows()), c) && old(contracts)[c].issuedAt.Some? && old(contracts)[c].token.Some?
      ensures result.Data? ==>
        && result.id == c && signatures == old(signatures)
        && Replaced(old(contracts), contracts, c, old(contracts)[c].(token := None))
      ensures result.Failed? ==> Rows() == old(Rows())
      ensures result == Failed(NotFound) <==> !(c in old(contracts) && !old(contracts)[c].deleted)
      ensures result == Failed(NotIssued) <==>
        c in old(contracts) && !old(contracts)[c].deleted && old(contracts)[c].issuedAt.None?
      ensures result == Failed(AlreadyRevoked) <==>
        && c in old(contracts) && !old(contracts)[c].deleted && old(contracts)[c].issuedAt.Some?
        && old(contracts)[c].token.None?
    {
      AloneRefused(Rows(), Revoke(c), 0, 0, 0);
      if c !in contracts || contracts[c].deleted {
        return Failed(NotFound);
      }
      if contracts[c].issuedAt.None? {
        return Failed(NotIssued);
      }
      if contracts[c].token.None? {
        return Failed(AlreadyRevoked);
      }
      Rewrite(c, contracts[c].(token := None), Revoke(c), 0, 0);
      result := Data(c);
    }

    method CreateContractFromProposal(proposal: Id, content: Content, newId: Id, token: Token)
      returns (result: Result)
      requires Valid() && newId !in usedIds && token !in minted
      modifies this
      ensures Valid()
      ensures result.Data? <==>
        && proposal in proposals && proposals[proposal].accepted && !proposals[proposal].deleted
        && !ProposalTaken(old(Rows()), Some(proposal))
      ensures result.Data? ==>
        && Live(Rows(), newId) && contracts[newId].proposal == Some(proposal)
        && Rows() ==
           Alone(old(Rows()), Convert(proposal, proposals[proposal].client, proposals[proposal].project, content),
                 0, newId, token)
      ensures result.Data? ==>
        && result.id == newId && signatures == old(signatures)
        && contracts == old(contracts)[newId := contracts[newId]] && NewDraft(contracts[newId])
        && contracts[newId].client == proposals[proposal].client
        && contracts[newId].project == proposals[proposal].project
        && contracts[newId].content == content && contracts[newId].token == Some(token)
      ensures result.Failed? ==> Rows() == old(Rows())
      ensures result == Failed(AlreadyConverted) <==>
        exists c | c in old(contracts) ::
          !old(contracts)[c].deleted && old(contracts)[c].proposal == Some(proposal)
      ensures result.Failed? ==> result.error in {AlreadyConverted, NotConvertible}
    {
      ghost var before := Rows();
      if exists c | c in contracts :: !contracts[c].deleted && contracts[c].proposal == Some(proposal) {
        return Failed(AlreadyConverted);
      }
      if proposal !in proposals || !proposals[proposal].accepted || proposals[proposal].deleted {
        return Failed(NotConvertible);
      }
      var source := proposals[proposal];
      ghost var intent := Convert(proposal, source.client, source.project, content);
      AloneKeepsInv(before, intent, 0, newId, token);
      AloneInserts(before, intent, newId, token);
      InsertDraft(source.client, source.project, Some(proposal), content, newId, token);
      result := Data(newId);
    }

    /** A restore is refused under a trashed parent, and by the unique index when its proposal has been
        converted again meanwhile. */
    method RestoreContract(c: Id) returns (result: Result)
      requires Valid()
      modifies this
      ensures Valid()
      ensures result.Data? <==>
        && c in old(contracts) && old(contracts)[c].deleted && !Blocked(old(contracts)[c])
        && !ProposalTaken(old(Rows()), old(contracts)[c].proposal)
      ensures Rows() ==
        if result.Data? then Alone(old(Rows()), Restore(c), 0, 0, 0) else old(Rows())
      ensures result.Data? ==>
        && result.id == c && signatures == old(signatures)
        && Replaced(old(contracts), contracts, c, old(contracts)[c].(deleted := false))
      ensures result == Failed(NotFound) <==> !(c in old(contracts) && old(contracts)[c].deleted)
      ensures result == Failed(RestoreBlocked) <==>
        && c in old(contracts) && old(contracts)[c].deleted
        && (old(contracts)[c].client in trashedClients
            || (old(contracts)[c].project.Some? && old(contracts)[c].project.value in trashedProjects))
      ensures result == Failed(AlreadyConverted) ==>
        exists d | d in old(contracts) ::
          !old(contracts)[d].deleted && old(contracts)[d].proposal == old(contracts)[c].proposal
      ensures result.Failed? ==> result.error in {NotFound, RestoreBlocked, AlreadyConverted}
    {
      ghost var before := Rows();
      AloneKeepsInv(before, Restore(c), 0, 0, 0);
      AloneRestores(before, c);
      if c !in contracts || !contracts[c].deleted {
        return Failed(NotFound);
      }
      TakenExactly(before, contracts[c].proposal);
      if Blocked(contracts[c]) {
        return Failed(RestoreBlocked);
      }
      var proposal := contracts[c].proposal;
      if proposal.Some?
         && exists d | d in contracts :: !contracts[d].deleted && contracts[d].proposal == proposal {
        return Failed(AlreadyConverted);
      }
      SetRow(c, contracts[c].(deleted := false));
      result := Data(c);
    }

    /** A parent of the contract is in the trash. */
    predicate Blocked(row: Contract)
      reads this
    {
      row.client in trashedClients || (row.project.Some? && row.project.value in trashedProjects)
    }

    /** The signing transaction on a contract that is still live and sent: status and signature together. */
    method RecordContractSignature(c: Id, signatureId: Id)
      requires Valid() && signatureId !in signatures && Live(Rows(), c) && contracts[c].status.Sent?
      modifies this
      ensures Valid() && Rows() == Countersign(old(Rows()), 0, c, signatureId)
      ensures signatures == old(signatures)[signatureId := c]
      ensures Replaced(old(contracts), contracts, c, old(contracts)[c].(status := Signed))
    {
      SigningCommits(Rows(), c, signatureId);
      SetRow(c, contracts[c].(status := Signed));
      signatures := signatures[signatureId := c];
    }

    /** The public signing. It signs exactly when the token opens a contract, and then the contract has
        its first and only signature; otherwise nothing changes. */
    method SignPublicContract(token: Token, today: Time, signatureId: Id) returns (result: Result)
      requires Valid() && signatureId !in signatures
      modifies this
      ensures Valid()
      ensures result.Data? ==>
        && Opens(old(Rows()), token, today, result.id)
        && Rows() == Countersign(old(Rows()), 0, result.id, signatureId)
      ensures result.Data? ==>
        && result.id in old(contracts) && signatures == old(signatures)[signatureId := result.id]
        && var row := old(contracts)[result.id];
           && !row.deleted && row.token == Some(token) && row.status.Sent?
           && (row.content.effectiveUntil.Some? ==> today <= row.content.effectiveUntil.value)
           && Replaced(old(contracts), contracts, result.id, row.(status := Signed))
      ensures result.Failed? ==>
        Rows() == old(Rows()) && forall c :: !Opens(old(Rows()), token, today, c)
      ensures result.Failed? ==>
        && result.error == Unavailable
        && forall c | c in old(contracts) && !old(contracts)[c].deleted && old(contracts)[c].token == Some(token) ::
             || !old(contracts)[c].status.Sent?
             || (old(contracts)[c].content.effectiveUntil.Some?
                 && old(contracts)[c].content.effectiveUntil.value < today)
    {
      if c :| c in contracts && !contracts[c].deleted && contracts[c].token == Some(token) {
        OnlyOpener(Rows(), token, c);
        if !contracts[c].status.Sent? || IsExpired(contracts[c].content.effectiveUntil, today) {
          return Failed(Unavailable);
        }
        RecordContractSignature(c, signatureId);
        result := Data(c);
      } else {
        result := Failed(Unavailable);
      }
    }

    method SoftDeleteContract(c: Id) returns (result: Result)
      requires Valid()
      modifies this
      ensures Rows() == Step(old(Rows()), SoftDelete(c)) && Valid()
      ensures result.Data? <==> Live(old(Rows()), c)
      ensures result.Data? ==>
        && result.id == c && signatures == old(signatures)
        && Replaced(old(contracts), contracts, c, old(contracts)[c].(deleted := true))
      ensures result.Failed? ==> result.error == NotFound && Rows() == old(Rows())
      ensures result.Failed? ==> !(c in old(contracts) && !old(contracts)[c].deleted)
    {
      StepKeepsInv(Rows(), SoftDelete(c));
      if c !in contracts || contracts[c].deleted {
        return Failed(NotFound);
      }
      SetRow(c, contracts[c].(deleted := true));
      result := Data(c);
    }
  }

  lemma BlankIsAllHidden(blocks: seq<Block>)
    ensures !HasContent(blocks) <==> forall block | block in blocks :: block.hidden
  {
    if !HasContent(blocks) {
      forall block | block in blocks ensures block.hidden {
        var i :| 0 <= i < |blocks| && blocks[i] == block;
      }
    }
  }

  lemma TakenExactly(s: State, proposal: Option<Id>)
    ensures ProposalTaken(s, proposal) <==>
      proposal.Some? && exists c | c in s.contracts :: !s.contracts[c].deleted && s.contracts[c].proposal == proposal
  {
    if proposal.Some? {
      forall c | c in s.contracts && !s.contracts[c].deleted && s.contracts[c].proposal == proposal
        ensures ProposalTaken(s, proposal)
      {
        assert Live(s, c);
      }
    }
  }

  lemma CanEnd(current: Status)
    ensures CanTransition(current, Terminated) <==> current in {Sent, Signed}
    ensures CanTransition(current, Sent) <==> current.Draft?
  {
  }

  lemma OnlyOpener(s: State, token: Token, c: Id)
    requires Inv(s) && c in s.contracts && s.contracts[c].token == Some(token)
    ensures forall today, d :: Opens(s, token, today, d) ==> d == c
    ensures s.contracts[c].status.Sent? ==> s.contracts[c].issuedAt.Some?
  {
    assert RowFits(s.contracts[c]);
  }

  lemma AloneKeepsInv(s: State, intent: Intent, now: Time, newId: Id, token: Token)
    requires Inv(s)
    ensures Inv(Alone(s, intent, now, newId, token))
  {
    StepKeepsInv(s, Begin(0, intent));
    WriteKeepsInv(Step(s, Begin(0, intent)), 0, now, newId, token);
  }

  lemma AloneRefused(s: State, intent: Intent, now: Time, newId: Id, token: Token)
    requires s.requests == map[]
    ensures Read(s, intent).None? ==> Alone(s, intent, now, newId, token) == s
  {
  }

  /** With nothing in between, a read that succeeds makes its write succeed. */
  lemma AloneUpdates(s: State, intent: Intent, now: Time, token: Token)
    requires s.requests == map[] && s.raced == {} && (intent.Rotate? ==> token !in s.minted)
    requires Read(s, intent).Some? && IsUpdate(Read(s, intent).value) && !intent.Restore?
    ensures
      var r := Read(s, intent).value;
      && Updated(s, r, now, token).Some?
      && Alone(s, intent, now, 0, token) == Put(s, r.contract, Updated(s, r, now, token).value)
  {
    var r := Read(s, intent).value;
    var began := Step(s, Begin(0, intent));
    assert began.requests == map[0 := r];
    assert !Locked(began, r.contract);
    assert !SendInFlight(s, r.contract);
    assert Done(began, 0) == s;
  }

  /** With nothing in between, an insert whose parents hold and whose proposal is free lands. */
  lemma AloneInserts(s: State, intent: Intent, newId: Id, token: Token)
    requires s.requests == map[] && newId !in s.usedIds && token !in s.minted
    requires Read(s, intent).Some? && Read(s, intent).value.Inserting?
    requires
      var r := Read(s, intent).value;
      ParentsHold(s, r.client, r.project) && !ProposalTaken(s, r.proposal)
    ensures Alone(s, intent, 0, newId, token) == Insert(s, Read(s, intent).value, newId, token)
  {
    var r := Read(s, intent).value;
    var began := Step(s, Begin(0, intent));
    assert began.requests == map[0 := r];
    assert ProposalTaken(began, r.proposal) == ProposalTaken(s, r.proposal);
  }

  lemma AloneRestores(s: State, c: Id)
    requires s.requests == map[] && s.raced == {}
    ensures Alone(s, Restore(c), 0, 0, 0) ==
      if c in s.contracts && s.contracts[c].deleted && !ProposalTaken(s, s.contracts[c].proposal)
      then Put(s, c, s.contracts[c].(deleted := false)) else s
  {
    if c in s.contracts && s.contracts[c].deleted {
      var began := Step(s, Begin(0, Restore(c)));
      assert began.requests == map[0 := Restoring(c)];
      assert !Locked(began, c) && !SendInFlight(s, c);
      assert forall p :: ProposalTaken(began, p) == ProposalTaken(s, p);
    }
  }

  lemma SigningLocks(s: State, c: Id, token: Token, today: Time)
    requires s.requests == map[] && Opens(s, token, today, c)
    ensures WriteStep(Step(s, Begin(0, Sign(c, token, today))), 0, 0, 0, 0) ==
            s.(requests := map[0 := Holding(c)])
  {
    var began := Step(s, Begin(0, Sign(c, token, today)));
    assert began == s.(requests := map[0 := Signing(c)]);
    assert !Locked(began, c);
    assert began.requests[0 := Holding(c)] == map[0 := Holding(c)];
  }

  lemma SigningCommits(s: State, c: Id, signatureId: Id)
    requires Inv(s) && s.requests == map[] && Live(s, c) && s.contracts[c].status.Sent?
    requires signatureId !in s.signatures
    ensures CommitStep(s.(requests := map[0 := Holding(c)]), 0, signatureId) ==
            Countersign(s, 0, c, signatureId)
    ensures Inv(Countersign(s, 0, c, signatureId))
  {
    var held := s.(requests := map[0 := Holding(c)]);
    AdvanceKeepsInv(s, 0, Holding(c));
    assert s.requests[0 := Holding(c)] == held.requests;
    SigningKeepsInv(held, 0, c, signatureId);
    CountersignIgnoresRequest(s, held, c, signatureId);
  }

  lemma CountersignIgnoresRequest(s: State, held: State, c: Id, signatureId: Id)
    requires s.requests == map[] && held == s.(requests := map[0 := Holding(c)]) && c in s.contracts
    ensures Countersign(held, 0, c, signatureId) == Countersign(s, 0, c, signatureId)
  {
  }

  /** The lock, the signature and the commit, on a row the token opens. */
  lemma HeldSigningKeepsInv(s: State, c: Id, token: Token, today: Time, signatureId: Id)
    requires Inv(s) && s.requests == map[] && Opens(s, token, today, c) && signatureId !in s.signatures
    ensures Inv(Countersign(s, 0, c, signatureId))
    ensures
      Step(Step(Step(s, Begin(0, Sign(c, token, today))), Write(0, 0, 0, 0)), Commit(0, signatureId)) ==
      Countersign(s, 0, c, signatureId)
  {
    SigningLocks(s, c, token, today);
    SigningCommits(s, c, signatureId);
  }
}
