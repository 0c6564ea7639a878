/** Contracts as many interleaved requests see them. A request reads in one step and writes in a later
    one, guarded by the WHERE clause of its UPDATE; a signing or an erasure holds row locks between its
    statements and its commit; any request may stop anywhere and roll back. */
module ContractProtocol {
  import opened Wrappers

  type Id = nat
  type Token = nat
  type Time = nat

  datatype Status = Draft | Sent | Signed | Expired | Terminated

  function NextStatuses(current: Status): set<Status> {
    match current
    case Draft => {Sent}
    case Sent => {Signed, Expired, Terminated}
    case Signed => {Terminated}
    case Expired | Terminated => {}
  }

  predicate CanTransition(current: Status, next: Status) {
    next != current && next in NextStatuses(current)
  }

  datatype Block = Block(text: string, hidden: bool)

  datatype Content = Content(
    title: string, blocks: seq<Block>, effectiveFrom: Option<Time>, effectiveUntil: Option<Time>)

  predicate HasContent(blocks: seq<Block>) {
    exists i | 0 <= i < |blocks| :: !blocks[i].hidden
  }

  /** `version` stands for the row version a repeatable-read transaction checks its snapshot against. */
  datatype Contract = Contract(
    client: Id, project: Option<Id>, proposal: Option<Id>, content: Content, status: Status, issuedAt: Option<Time>,
    terminatedAt: Option<Time>, token: Option<Token>, deleted: bool, version: nat)

  /** What a caller asks for. `Sign` carries the token presented, the day, and the row the unique token
      index finds for it. */
  datatype Intent =
    | Create(client: Id, project: Option<Id>, content: Content)
    | Convert(proposal: Id, client: Id, project: Option<Id>, content: Content)
    | Update(contract: Id, client: Id, project: Option<Id>, content: Content)
    | Send(contract: Id)
    | Terminate(contract: Id)
    | Restore(contract: Id)
    | Rotate(contract: Id)
    | Revoke(contract: Id)
    | Sign(contract: Id, token: Token, today: Time)
    | Erase(client: Id)

  /** A request that has read and not yet finished. */
  datatype Request =
    | Inserting(client: Id, project: Option<Id>, proposal: Option<Id>, content: Content)
    | Updating(contract: Id, client: Id, project: Option<Id>, content: Content)
    | Sending(contract: Id)
    | Terminating(contract: Id)
    | Restoring(contract: Id)
    | Rotating(contract: Id)
    | Revoking(contract: Id)
    | Signing(contract: Id)
    | Holding(contract: Id)
    | Erasing(client: Id, seen: map<Id, nat>)
    | Clearing(client: Id, rows: set<Id>)

  /** `projects` maps each project to its client. `raced` remembers contracts rewritten while a send that
      had read them was in flight. */
  datatype State = State(
    contracts: map<Id, Contract>, signatures: map<Id, Id>, clients: set<Id>, projects: map<Id, Id>,
    requests: map<Id, Request>, minted: set<Token>, usedIds: set<Id>, raced: set<Id>)

  datatype Event =
    | Begin(req: Id, intent: Intent)
    | Write(req: Id, now: Time, newId: Id, token: Token)
    | Commit(req: Id, newId: Id)
    | Abort(req: Id)
    | SoftDelete(contract: Id)

  // Reads.

  predicate Live(s: State, c: Id) {
    c in s.contracts && !s.contracts[c].deleted
  }

  /** The client exists, and a project named beside it is that client's: the foreign keys of the row. */
  predicate ParentsHold(s: State, client: Id, project: Option<Id>) {
    && client in s.clients
    && (project.Some? ==> project.value in s.projects && s.projects[project.value] == client)
  }

  predicate SignedRow(s: State, c: Id) {
    exists g | g in s.signatures :: s.signatures[g] == c
  }

  predicate ProposalTaken(s: State, proposal: Option<Id>) {
    proposal.Some? && exists c | c in s.contracts :: Live(s, c) && s.contracts[c].proposal == proposal
  }

  predicate IsExpired(until: Option<Time>, today: Time) {
    until.Some? && today > until.value
  }

  /** The contract a presented token opens for signing. */
  predicate Opens(s: State, token: Token, today: Time, c: Id) {
    && Live(s, c) && s.contracts[c].token == Some(token)
    && s.contracts[c].status.Sent? && !IsExpired(s.contracts[c].content.effectiveUntil, today)
    && s.contracts[c].issuedAt.Some?
  }

  function ContractsOf(s: State, client: Id): map<Id, nat> {
    map c | c in s.contracts && s.contracts[c].client == client :: s.contracts[c].version
  }

  /** The read half of each request, or None where the code answers with an error at once. */
  function Read(s: State, intent: Intent): Option<Request> {
    match intent
    case Create(client, project, content) =>
      if ParentsHold(s, client, project) then Some(Inserting(client, project, None, content)) else None
    case Convert(proposal, client, project, content) =>
      if ProposalTaken(s, Some(proposal)) then None
      else Some(Inserting(client, project, Some(proposal), content))
    case Update(c, client, project, content) =>
      if Live(s, c) && s.contracts[c].status.Draft? && ParentsHold(s, client, project)
      then Some(Updating(c, client, project, content)) else None
    case Send(c) =>
      if Live(s, c) && CanTransition(s.contracts[c].status, Sent)
         && HasContent(s.contracts[c].content.blocks)
      then Some(Sending(c)) else None
    case Terminate(c) =>
      if Live(s, c) && CanTransition(s.contracts[c].status, Terminated)
      then Some(Terminating(c)) else None
    case Restore(c) =>
      if c in s.contracts && s.contracts[c].deleted then Some(Restoring(c)) else None
    case Rotate(c) =>
      if Live(s, c) && s.contracts[c].issuedAt.Some? then Some(Rotating(c)) else None
    case Revoke(c) =>
      if Live(s, c) && s.contracts[c].issuedAt.Some? && s.contracts[c].token.Some?
      then Some(Revoking(c)) else None
    case Sign(c, token, today) =>
      if Opens(s, token, today, c) then Some(Signing(c)) else None
    case Erase(client) =>
      if client in s.clients && forall c | c in ContractsOf(s, client) :: !SignedRow(s, c)
      then Some(Erasing(client, ContractsOf(s, client))) else None
  }

  // Writes.

  predicate Holds(r: Request, c: Id) {
    (r.Holding? && r.contract == c) || (r.Clearing? && c in r.rows)
  }

  /** Another transaction holds the row, so a statement on it waits. */
  predicate Locked(s: State, c: Id) {
    exists req | req in s.requests :: Holds(s.requests[req], c)
  }

  predicate SendInFlight(s: State, c: Id) {
    exists req | req in s.requests :: s.requests[req] == Sending(c)
  }

  predicate IsUpdate(r: Request) {
    r.Updating? || r.Sending? || r.Terminating? || r.Restoring? || r.Rotating? || r.Revoking?
  }

  /** The new row an UPDATE produces, or None when its WHERE clause, a foreign key or the unique index
      turns it away. The token is the one minted for this statement. */
  function Updated(s: State, r: Request, now: Time, token: Token): Option<Contract>
    requires IsUpdate(r)
  {
    var c := r.contract;
    if c !in s.contracts then None
    else
      var row := s.contracts[c];
      match r
      case Updating(_, client, project, content) =>
        if row.status.Draft? && !row.deleted && ParentsHold(s, client, project)
        then Some(row.(client := client, project := project, content := content)) else None
      case Sending(_) =>
        if row.status.Draft? && !row.deleted
        then Some(row.(status := Sent, issuedAt := Some(now))) else None
      case Terminating(_) =>
        if row.status in {Sent, Signed} && !row.deleted
        then Some(row.(status := Terminated, terminatedAt := Some(now))) else None
      case Restoring(_) =>
        if row.deleted && !ProposalTaken(s, row.proposal)
        then Some(row.(deleted := false)) else None
      case Rotating(_) => if !row.deleted then Some(row.(token := Some(token))) else None
      case Revoking(_) => if !row.deleted then Some(row.(token := None)) else None
  }

  function Done(s: State, req: Id): State {
    s.(requests := s.requests - {req})
  }

  /** A committed row version. */
  function Put(s: State, c: Id, row: Contract): State
    requires c in s.contracts
  {
    s.(contracts := s.contracts[c := row.(version := s.contracts[c].version + 1)],
       minted := s.minted + (if row.token.Some? then {row.token.value} else {}),
       raced := s.raced +
                (if row.content != s.contracts[c].content && SendInFlight(s, c) then {c} else {}))
  }

  function Insert(s: State, r: Request, newId: Id, token: Token): State
    requires r.Inserting?
  {
    s.(contracts := s.contracts[newId :=
         Contract(r.client, r.project, r.proposal, r.content, Draft, None, None, Some(token), false, 0)],
       minted := s.minted + {token}, usedIds := s.usedIds + {newId})
  }

  /** The first conflicting statement of an erasure under repeatable read: every row it will delete must
      be unlocked and as the snapshot saw it. */
  predicate SnapshotHolds(s: State, seen: map<Id, nat>) {
    forall c | c in seen :: c in s.contracts && s.contracts[c].version == seen[c] && !Locked(s, c)
  }

  function UpdateStep(s: State, req: Id, r: Request, now: Time, token: Token): State
    requires IsUpdate(r)
  {
    if Locked(s, r.contract) || (r.Rotating? && token in s.minted) then s
    else
      var row := Updated(s, r, now, token);
      if row.Some? then Done(Put(s, r.contract, row.value), req) else Done(s, req)
  }

  function WriteStep(s: State, req: Id, now: Time, newId: Id, token: Token): State {
    if req !in s.requests then s
    else
      var r := s.requests[req];
      match r
      case Inserting(client, project, proposal, _) =>
        if newId in s.usedIds || token in s.minted then s
        else if ProposalTaken(s, proposal) || !ParentsHold(s, client, project) then Done(s, req)
        else Done(Insert(s, r, newId, token), req)
      case Signing(c) =>
        if Locked(s, c) then s
        else if Live(s, c) && s.contracts[c].status.Sent?
        then s.(requests := s.requests[req := Holding(c)])
        else Done(s, req)
      case Erasing(client, seen) =>
        if SnapshotHolds(s, seen)
        then s.(requests := s.requests[req := Clearing(client, seen.Keys)])
        else Done(s, req)
      case Holding(_) | Clearing(_, _) => s
      case _ => UpdateStep(s, req, r, now, token)
  }

  /** Deleting the client sets `client_id` to NULL on a contract the snapshot did not show, which its
      parent check refuses; deleting a signed contract raises in the signature's trigger. */
  predicate ClearingFails(s: State, client: Id, rows: set<Id>) {
    || (exists c | c in s.contracts :: s.contracts[c].client == client && c !in rows)
    || exists g | g in s.signatures :: s.signatures[g] in rows
  }

  function ProjectsWithout(s: State, client: Id): map<Id, Id> {
    map p | p in s.projects && s.projects[p] != client :: s.projects[p]
  }

  function CommitStep(s: State, req: Id, newId: Id): State {
    if req !in s.requests then s
    else
      match s.requests[req]
      case Holding(c) =>
        if newId in s.signatures || c !in s.contracts then s
        else
          var signed := Put(s, c, s.contracts[c].(status := Signed));
          Done(signed.(signatures := s.signatures[newId := c]), req)
      case Clearing(client, rows) =>
        if ClearingFails(s, client, rows) then Done(s, req)
        else
          Done(s.(contracts := s.contracts - rows, clients := s.clients - {client},
                  projects := ProjectsWithout(s, client)), req)
      case _ => s
  }

  function Step(s: State, e: Event): State {
    match e
    case Begin(req, intent) =>
      var r := Read(s, intent);
      if req !in s.requests && r.Some? then s.(requests := s.requests[req := r.value]) else s
    case Write(req, now, newId, token) => WriteStep(s, req, now, newId, token)
    case Commit(req, newId) => CommitStep(s, req, newId)
    case Abort(req) => Done(s, req)
    case SoftDelete(c) =>
      if Live(s, c) && !Locked(s, c) then Put(s, c, s.contracts[c].(deleted := true)) else s
  }

  function Run(s: State, events: seq<Event>): State {
    if events == [] then s
    else Step(Run(s, events[..|events| - 1]), events[|events| - 1])
  }

  function Empty(clients: set<Id>, projects: map<Id, Id>): State {
    State(map[], map[], clients, projects, map[], {}, {}, {})
  }
}
