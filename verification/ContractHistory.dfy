/** What the contract protocol promises over whole runs, in the words its users would use. */
module ContractHistory {
  import opened Wrappers
  import opened ContractProtocol
  import opened ContractSafety

  function SignaturesOf(s: State, c: Id): set<Id> {
    set g | g in s.signatures && s.signatures[g] == c
  }

  lemma SingleSignature(s: State, c: Id, g: Id)
    requires SignaturesFit(s) && g in SignaturesOf(s, c)
    ensures SignaturesOf(s, c) == {g}
  {
  }

  ghost predicate Lifecycle(s: State, c: Id)
    requires c in s.contracts
  {
    var row := s.contracts[c];
    && (row.status.Draft? <==> row.issuedAt.None?)
    && (row.status.Terminated? <==> row.terminatedAt.Some?)
    && match row.status
       case Draft | Sent => SignaturesOf(s, c) == {}
       case Signed => |SignaturesOf(s, c)| == 1
       case Terminated => |SignaturesOf(s, c)| <= 1
       case Expired => false
  }

  lemma LifecycleOf(s: State, c: Id)
    requires RowsFit(s) && SignaturesFit(s) && c in s.contracts
    ensures Lifecycle(s, c)
  {
    assert RowFits(s.contracts[c]);
    if SignedRow(s, c) {
      var g :| g in s.signatures && s.signatures[g] == c;
      SingleSignature(s, c, g);
    } else {
      assert SignaturesOf(s, c) == {};
    }
  }

  /** In every reachable state: a draft was never issued, drafts and sent contracts carry no signature,
      a signed one exactly one, a terminated one at most one, and nothing is stored as expired. */
  lemma LifecycleHolds(start: State, events: seq<Event>, c: Id)
    requires Inv(start) && c in Run(start, events).contracts
    ensures Lifecycle(Run(start, events), c)
  {
    RunKeepsInv(start, events);
    LifecycleOf(Run(start, events), c);
  }

  // Steps and runs.

  /** What one step may do to an issued contract and to the signatures. */
  ghost predicate KeepsRecord(before: State, after: State) {
    && before.minted <= after.minted && before.usedIds <= after.usedIds
    && (forall g | g in before.signatures ::
          g in after.signatures && after.signatures[g] == before.signatures[g])
    && (forall c | c in after.contracts && c !in before.contracts :: c !in before.usedIds)
    && forall c | c in before.contracts && c in after.contracts && before.contracts[c].issuedAt.Some? ::
         SameRecord(after.contracts[c], before.contracts[c])
  }

  predicate SameRecord(one: Contract, other: Contract) {
    && one.content == other.content && one.issuedAt == other.issuedAt
    && one.client == other.client && one.project == other.project && one.proposal == other.proposal
  }

  lemma UpdateKeepsRecord(s: State, r: Request, now: Time, token: Token)
    requires IsUpdate(r)
    requires Updated(s, r, now, token).Some? && RowFits(s.contracts[r.contract])
    ensures s.contracts[r.contract].issuedAt.Some? ==>
      SameRecord(Updated(s, r, now, token).value, s.contracts[r.contract])
  {
  }

  lemma PutKeepsRecord(s: State, c: Id, row: Contract)
    requires c in s.contracts && (s.contracts[c].issuedAt.Some? ==> SameRecord(row, s.contracts[c]))
    ensures KeepsRecord(s, Put(s, c, row))
  {
  }

  lemma DoneKeepsRecord(before: State, after: State, req: Id)
    requires KeepsRecord(before, after)
    ensures KeepsRecord(before, Done(after, req))
  {
  }

  lemma UpdateStepKeepsRecord(s: State, req: Id, r: Request, now: Time, token: Token)
    requires RowsFit(s) && IsUpdate(r)
    ensures KeepsRecord(s, UpdateStep(s, req, r, now, token))
  {
    DoneKeepsRecord(s, s, req);
    if Updated(s, r, now, token).Some? {
      var row := Updated(s, r, now, token).value;
      UpdateKeepsRecord(s, r, now, token);
      PutKeepsRecord(s, r.contract, row);
      DoneKeepsRecord(s, Put(s, r.contract, row), req);
    }
  }

  lemma WriteKeepsRecord(s: State, req: Id, now: Time, newId: Id, token: Token)
    requires RowsFit(s)
    ensures KeepsRecord(s, WriteStep(s, req, now, newId, token))
  {
    if req in s.requests && IsUpdate(s.requests[req]) {
      UpdateStepKeepsRecord(s, req, s.requests[req], now, token);
    }
  }

  lemma CommitKeepsRecord(s: State, req: Id, newId: Id)
    ensures KeepsRecord(s, CommitStep(s, req, newId))
  {
  }

  lemma StepKeepsRecord(s: State, e: Event)
    requires RowsFit(s)
    ensures KeepsRecord(s, Step(s, e))
  {
    match e
    case Begin(_, _) =>
    case Write(req, now, newId, token) => WriteKeepsRecord(s, req, now, newId, token);
    case Commit(req, newId) => CommitKeepsRecord(s, req, newId);
    case Abort(_) =>
    case SoftDelete(c) =>
      if Live(s, c) {
        PutKeepsRecord(s, c, s.contracts[c].(deleted := true));
      }
  }

  /** Over any run: signatures only grow, and an issued contract's title, blocks, dates, issue time,
      client and proposal stay as they were for as long as its row exists. A removed row's id is never
      used again. */
  lemma {:induction false} RecordKept(s: State, events: seq<Event>)
    requires Inv(s)
    ensures KeepsRecord(s, Run(s, events))
    ensures forall c | c in s.contracts && c in Run(s, events).contracts && s.contracts[c].issuedAt.Some? ::
      Run(s, events).contracts[c].issuedAt.Some?
    decreases |events|
  {
    if events != [] {
      var earlier := events[..|events| - 1];
      RecordKept(s, earlier);
      RunKeepsInv(s, earlier);
      StepKeepsRecord(Run(s, earlier), events[|events| - 1]);
    }
  }

  // Erasure against signing.

  /** An erasure commits whole or not at all, and the signature trigger is never what stops it: only a
      contract that reached the client after the snapshot can. */
  lemma ErasureIsWhole(s: State, req: Id, newId: Id)
    requires Inv(s) && req in s.requests && s.requests[req].Clearing?
    ensures
      var after := CommitStep(s, req, newId);
      var client := s.requests[req].client;
      var late := exists c | c in s.contracts ::
        s.contracts[c].client == client && c !in s.requests[req].rows;
      && (late ==> after == Done(s, req))
      && (!late ==>
            && after.clients == s.clients - {client} && after.signatures == s.signatures
            && (forall p :: p in after.projects <==> p in s.projects && s.projects[p] != client)
            && forall c :: c in after.contracts <==> c in s.contracts && s.contracts[c].client != client)
  {
  }

  /** Whatever erasures and signings interleave, a committed signature keeps its contract for good: the
      erasure failed whole, or the signing had found no row and left nothing behind. */
  lemma SignedContractsStay(s: State, events: seq<Event>, g: Id)
    requires Inv(s) && g in s.signatures
    ensures
      var after := Run(s, events);
      && g in after.signatures && after.signatures[g] == s.signatures[g]
      && s.signatures[g] in after.contracts
      && after.contracts[s.signatures[g]].status in {Signed, Terminated}
  {
    RecordKept(s, events);
    RunKeepsInv(s, events);
  }

  /** A signing that reaches its commit always adds its signature; one that lost its row adds none. */
  lemma SigningIsWhole(s: State, req: Id, newId: Id)
    requires Inv(s) && req in s.requests && s.requests[req].Holding? && newId !in s.signatures
    ensures
      var c := s.requests[req].contract;
      var after := CommitStep(s, req, newId);
      && SignaturesOf(s, c) == {} && SignaturesOf(after, c) == {newId}
      && c in after.contracts && after.contracts[c].status.Signed?
  {
  }

  /** A signing whose row is gone, or was taken by another request, finishes and leaves nothing. */
  lemma LostSigningLeavesNothing(s: State, req: Id, now: Time, newId: Id, token: Token)
    requires Inv(s) && req in s.requests && s.requests[req].Signing?
    ensures
      var c := s.requests[req].contract;
      var after := WriteStep(s, req, now, newId, token);
      && after.signatures == s.signatures && after.contracts == s.contracts
      && (req in after.requests && after.requests[req].Holding? <==>
          Live(s, c) && s.contracts[c].status.Sent? && !Locked(s, c))
      && (c !in s.contracts && !Locked(s, c) ==> req !in after.requests)
  {
  }

  /** At most one live contract for each proposal, in every reachable state. */
  lemma OneLiveContractPerProposal(start: State, events: seq<Event>, c: Id, d: Id)
    requires Inv(start) && Live(Run(start, events), c) && Live(Run(start, events), d)
    requires Run(start, events).contracts[c].proposal.Some?
    requires Run(start, events).contracts[c].proposal == Run(start, events).contracts[d].proposal
    ensures c == d
  {
    RunKeepsInv(start, events);
  }

  // Tokens.

  predicate Dead(s: State, token: Token) {
    token in s.minted && forall c | c in s.contracts :: s.contracts[c].token != Some(token)
  }

  lemma StepKeepsDead(s: State, e: Event, token: Token)
    requires Dead(s, token)
    ensures Dead(Step(s, e), token)
  {
  }

  /** A token no row holds any more opens nothing in any later state of any run. */
  lemma {:induction false} DeadStaysDead(s: State, events: seq<Event>, token: Token)
    requires Dead(s, token)
    ensures Dead(Run(s, events), token)
    ensures forall today, c :: !Opens(Run(s, events), token, today, c)
    decreases |events|
  {
    if events != [] {
      DeadStaysDead(s, events[..|events| - 1], token);
      StepKeepsDead(Run(s, events[..|events| - 1]), events[|events| - 1], token);
    }
  }

  /** A rotation or a revocation that lands kills the token the contract held until then. */
  lemma LinkChangeKills(s: State, req: Id, now: Time, newId: Id, minted: Token)
    requires Inv(s) && req in s.requests && (s.requests[req].Rotating? || s.requests[req].Revoking?)
    requires var c := s.requests[req].contract;
      Live(s, c) && !Locked(s, c) && s.contracts[c].token.Some?
    requires s.requests[req].Rotating? ==> minted !in s.minted
    ensures Dead(WriteStep(s, req, now, newId, minted), s.contracts[s.requests[req].contract].token.value)
  {
    assert RowFits(s.contracts[s.requests[req].contract]);
  }

  // What the guards do not close.

  /** The send validates the content it read, and its write checks the status only. So the contract it
      issues is blank exactly when the row is blank by then, whatever was validated. */
  lemma SendIssuesWhatIsThere(s: State, req: Id, now: Time, newId: Id, token: Token)
    requires req in s.requests && s.requests[req].Sending? && !Locked(s, s.requests[req].contract)
    ensures
      var c := s.requests[req].contract;
      var after := WriteStep(s, req, now, newId, token);
      (c in after.contracts && after.contracts[c].issuedAt == Some(now)
         && !HasContent(after.contracts[c].content.blocks) && s.contracts[c].issuedAt.None?) <==>
      (Live(s, c) && s.contracts[c].status.Draft? && s.contracts[c].issuedAt.None?
         && !HasContent(s.contracts[c].content.blocks))
  {
  }

  /** Over any run, a blank contract is issued only if an update of it landed between a send's read and
      its write: without that race, every issued contract shows something. */
  lemma BlankOnlyByRace(start: State, events: seq<Event>, c: Id)
    requires Inv(start)
    requires c in Run(start, events).contracts && Run(start, events).contracts[c].issuedAt.Some?
    requires c !in Run(start, events).raced
    ensures HasContent(Run(start, events).contracts[c].content.blocks)
  {
    RunKeepsInv(start, events);
  }

  const SHOWN := Content("t", [Block("clause", false)], None, None)
  const BLANK := Content("t", [Block("clause", true)], None, None)

  function OneDraft(): State {
    State(map[10 := Contract(7, None, None, SHOWN, Draft, None, None, Some(100), false, 0)],
          map[], {7}, map[], map[], {100}, {10}, {})
  }

  function RunMore(events: seq<Event>, last: Event): seq<Event> {
    events + [last]
  }

  lemma RunOneMore(s: State, events: seq<Event>, e: Event)
    ensures Run(s, RunMore(events, e)) == Step(Run(s, events), e)
  {
    assert RunMore(events, e)[..|events|] == events;
  }

  /** One create, from an instance with one client and no contract. */
  function Drafting(): seq<Event> {
    RunMore(RunMore([], Begin(1, Create(7, None, SHOWN))), Write(1, 0, 10, 100))
  }

  lemma OneDraftIsReached()
    ensures Run(Empty({7}, map[]), Drafting()) == OneDraft()
  {
    var start := Empty({7}, map[]);
    var began := RunMore([], Begin(1, Create(7, None, SHOWN)));
    RunOneMore(start, [], Begin(1, Create(7, None, SHOWN)));
    RunOneMore(start, began, Write(1, 0, 10, 100));
    assert Run(start, began).requests == map[1 := Inserting(7, None, None, SHOWN)];
  }

  /** Then an update and a send that both read the draft, and write in that order. */
  function Blanking(): seq<Event> {
    RunMore(RunMore(RunMore(RunMore(Drafting(),
      Begin(2, Update(10, 7, None, BLANK))), Begin(3, Send(10))), Write(2, 2, 0, 0)), Write(3, 3, 0, 0))
  }

  lemma BlankedDraft()
    ensures
      var s2 := Step(Step(OneDraft(), Begin(2, Update(10, 7, None, BLANK))), Begin(3, Send(10)));
      var s4 := Step(Step(s2, Write(2, 2, 0, 0)), Write(3, 3, 0, 0));
      && 10 in s4.contracts && s4.contracts[10].status.Sent?
      && !HasContent(s4.contracts[10].content.blocks)
  {
    assert HasContent(SHOWN.blocks) by { assert !SHOWN.blocks[0].hidden; }
    var s1 := Step(OneDraft(), Begin(2, Update(10, 7, None, BLANK)));
    assert s1.requests == map[2 := Updating(10, 7, None, BLANK)];
    var s2 := Step(s1, Begin(3, Send(10)));
    assert s2.requests == map[2 := Updating(10, 7, None, BLANK), 3 := Sending(10)];
    var s3 := Step(s2, Write(2, 2, 0, 0));
    assert s3.requests == map[3 := Sending(10)] && s3.contracts[10].content == BLANK;
  }

  /** The race exists: from an instance without contracts, a blank contract is issued. */
  lemma BlankContractIssued()
    ensures
      var s := Run(Empty({7}, map[]), Blanking());
      && 10 in s.contracts && s.contracts[10].status.Sent? && !HasContent(s.contracts[10].content.blocks)
  {
    var start := Empty({7}, map[]);
    OneDraftIsReached();
    BlankedDraft();
    var e2 := RunMore(Drafting(), Begin(2, Update(10, 7, None, BLANK)));
    var e3 := RunMore(e2, Begin(3, Send(10)));
    var e4 := RunMore(e3, Write(2, 2, 0, 0));
    RunOneMore(start, Drafting(), Begin(2, Update(10, 7, None, BLANK)));
    RunOneMore(start, e2, Begin(3, Send(10)));
    RunOneMore(start, e3, Write(2, 2, 0, 0));
    RunOneMore(start, e4, Write(3, 3, 0, 0));
  }
}
