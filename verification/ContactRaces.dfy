/** Contact transactions that interleave: each may demote and store rows in any order, under row locks,
    statement snapshots and the partial unique index, and the committed contacts keep one live primary for
    each client. */
module ContactRaces {
  import opened Wrappers
  import opened Contacts

  /** A demotion in progress, with the rows its statement's snapshot matched. */
  datatype Demotion = Demotion(client: Id, except: Option<Id>, matched: set<Id>)

  /** `open` holds the rows each transaction has written and not committed, whose locks it holds. */
  datatype State = State(contacts: map<Id, Contact>, open: map<Id, map<Id, Contact>>, demoting: map<Id, Demotion>)

  datatype Event =
    | Begin(tx: Id)
    | Demote(tx: Id, client: Id, except: Option<Id>)
    | FinishDemote(tx: Id)
    | Put(tx: Id, id: Id, row: Contact)
    | Commit(tx: Id)
    | Abort(tx: Id)

  function Seen(s: State, tx: Id): map<Id, Contact>
    requires tx in s.open
  {
    s.contacts + s.open[tx]
  }

  /** Another transaction holds the row. */
  predicate HeldByOther(s: State, tx: Id, id: Id) {
    exists other | other in s.open :: other != tx && id in s.open[other]
  }

  predicate Matches(contacts: map<Id, Contact>, id: Id, client: Id, except: Option<Id>) {
    id in contacts && LivePrimary(contacts[id], client) && except != Some(id)
  }

  /** The rows a demotion matches, in the statement's snapshot with the transaction's own writes. */
  function Matched(s: State, tx: Id, client: Id, except: Option<Id>): set<Id>
    requires tx in s.open
  {
    set id | id in Seen(s, tx) && Matches(Seen(s, tx), id, client, except)
  }

  /** An uncommitted write of another transaction that touches the client's slot, whichever way it will
      end: an insert into the index waits for it. */
  predicate SlotContested(s: State, tx: Id, client: Id) {
    exists other, id | other in s.open && id in s.open[other] ::
      other != tx && Touches(s, s.open[other][id], id, client)
  }

  predicate Touches(s: State, row: Contact, id: Id, client: Id) {
    LivePrimary(row, client) || (id in s.contacts && LivePrimary(s.contacts[id], client))
  }

  /** A live primary the index already holds for the client, in another row as the transaction sees it. */
  predicate SlotTaken(s: State, tx: Id, client: Id, id: Id)
    requires tx in s.open
  {
    PrimariesOf(Seen(s, tx), client) - {id} != {}
  }

  predicate ClaimsSlot(row: Contact) {
    row.primary && !row.deleted
  }

  /** What a demotion writes: of the rows its snapshot matched, those that still match as they now are. It
      looks for no others. */
  function DemotedRows(s: State, tx: Id, d: Demotion): map<Id, Contact>
    requires tx in s.open
  {
    map id | id in d.matched && Matches(Seen(s, tx), id, d.client, d.except) ::
      Seen(s, tx)[id].(primary := false)
  }

  function Written(s: State, tx: Id, rows: map<Id, Contact>): State
    requires tx in s.open
  {
    s.(open := s.open[tx := s.open[tx] + rows])
  }

  /** The demotion waits while another transaction holds a row it matched. */
  predicate Waits(s: State, tx: Id, d: Demotion) {
    exists id | id in d.matched :: HeldByOther(s, tx, id)
  }

  predicate Between(s: State, tx: Id) {
    tx in s.open && tx !in s.demoting
  }

  function Step(s: State, e: Event): State {
    match e
    case Begin(tx) => if tx in s.open || tx in s.demoting then s else s.(open := s.open[tx := map[]])
    case Demote(tx, client, except) =>
      if !Between(s, tx) then s
      else s.(demoting := s.demoting[tx := Demotion(client, except, Matched(s, tx, client, except))])
    case FinishDemote(tx) =>
      if tx !in s.open || tx !in s.demoting || Waits(s, tx, s.demoting[tx]) then s
      else Written(s, tx, DemotedRows(s, tx, s.demoting[tx])).(demoting := s.demoting - {tx})
    case Put(tx, id, row) =>
      if !Between(s, tx) || HeldByOther(s, tx, id) || !SameClient(s, tx, id, row) then s
      else if ClaimsSlot(row) && SlotContested(s, tx, row.client) then s
      else if ClaimsSlot(row) && SlotTaken(s, tx, row.client, id) then s.(open := s.open - {tx})
      else Written(s, tx, map[id := row])
    case Commit(tx) =>
      if !Between(s, tx) then s else s.(contacts := s.contacts + s.open[tx], open := s.open - {tx})
    case Abort(tx) => s.(open := s.open - {tx}, demoting := s.demoting - {tx})
  }

  /** A contact keeps its client for good. */
  predicate SameClient(s: State, tx: Id, id: Id, row: Contact)
    requires tx in s.open
  {
    id in Seen(s, tx) ==> Seen(s, tx)[id].client == row.client
  }

  function Run(s: State, events: seq<Event>): State
    decreases |events|
  {
    if events == [] then s else Run(Step(s, events[0]), events[1..])
  }

  // What every state keeps.

  /** Uncommitted rows are held by one transaction and keep their clients. */
  ghost predicate LocksFit(s: State) {
    && (forall t, u, id | t in s.open && u in s.open && id in s.open[t] && id in s.open[u] :: t == u)
    && forall t, id | t in s.open && id in s.open[t] && id in s.contacts ::
         s.open[t][id].client == s.contacts[id].client
  }

  /** A transaction that has claimed a slot is the only one to touch it, and sees it held once. */
  ghost predicate ClaimsFit(s: State) {
    && (forall t, id | t in s.open && id in s.open[t] && ClaimsSlot(s.open[t][id]) ::
          !SlotContested(s, t, s.open[t][id].client))
    && forall t | t in s.open :: OnePrimary(Seen(s, t))
  }

  ghost predicate Inv(s: State) {
    OnePrimary(s.contacts) && LocksFit(s) && ClaimsFit(s)
  }

  /** Whoever claims a slot holds every row that has it: nobody else's statement reaches them. */
  lemma ClaimantHoldsSlot(s: State, t: Id, claimed: Id, id: Id)
    requires Inv(s) && t in s.open && claimed in s.open[t] && ClaimsSlot(s.open[t][claimed])
    requires id in s.contacts && LivePrimary(s.contacts[id], s.open[t][claimed].client)
    ensures id in s.open[t]
  {
    assert OnePrimary(Seen(s, t));
    assert Seen(s, t)[claimed] == s.open[t][claimed];
    assert id == claimed || !LivePrimary(Seen(s, t)[id], s.open[t][claimed].client);
  }

  /** A statement of one transaction leaves another's claim alone if each row it writes was its own
      already or is held by nobody, and it claims no slot of the same client. */
  lemma ClaimSurvivesWrite(s: State, tx: Id, rows: map<Id, Contact>, t: Id, claimed: Id)
    requires Inv(s) && tx in s.open && t in s.open && t != tx
    requires claimed in s.open[t] && ClaimsSlot(s.open[t][claimed])
    requires forall q | q in rows ::
      !HeldByOther(s, tx, q) && !LivePrimary(rows[q], s.open[t][claimed].client)
    ensures !SlotContested(Written(s, tx, rows), t, s.open[t][claimed].client)
  {
    var client := s.open[t][claimed].client;
    var after := Written(s, tx, rows);
    assert !SlotContested(s, t, client);
    forall q | q in rows ensures !(q in s.contacts && LivePrimary(s.contacts[q], client)) {
      if q in s.contacts && LivePrimary(s.contacts[q], client) {
        ClaimantHoldsSlot(s, t, claimed, q);
      }
    }
    forall other, q | other in after.open && q in after.open[other] && other != t
      ensures !Touches(after, after.open[other][q], q, client)
    {
      if other != tx || q !in rows {
        assert after.open[other][q] == s.open[other][q];
        assert !Touches(s, s.open[other][q], q, client);
      }
    }
  }

  /** What a statement may write: rows it can lock, of their own clients, claiming only slots nobody
      contests and holding each at most once. */
  ghost predicate Writable(s: State, tx: Id, rows: map<Id, Contact>) {
    && tx in s.open
    && (forall q | q in rows :: !HeldByOther(s, tx, q) && SameClient(s, tx, q, rows[q]))
    && OnePrimary(Seen(s, tx) + rows)
    && forall q | q in rows && ClaimsSlot(rows[q]) :: !SlotContested(s, tx, rows[q].client)
  }

  lemma WriteKeepsInv(s: State, tx: Id, rows: map<Id, Contact>)
    requires Inv(s) && Writable(s, tx, rows)
    ensures Inv(Written(s, tx, rows))
  {
    WriteKeepsLocks(s, tx, rows);
    WriteKeepsSeen(s, tx, rows);
    var after := Written(s, tx, rows);
    forall t, c | t in after.open && c in after.open[t] && ClaimsSlot(after.open[t][c])
      ensures !SlotContested(after, t, after.open[t][c].client)
    {
      if t != tx {
        OthersClaimSurvives(s, tx, rows, t, c);
      } else {
        OwnClaimSurvives(s, tx, rows, c);
      }
    }
  }

  lemma OthersSeeTheSame(s: State, tx: Id, rows: map<Id, Contact>, t: Id)
    requires tx in s.open && t in s.open && t != tx
    ensures Seen(Written(s, tx, rows), t) == Seen(s, t)
  {
  }

  lemma SeenAfterWrite(s: State, tx: Id, rows: map<Id, Contact>)
    requires tx in s.open
    ensures Seen(Written(s, tx, rows), tx) == Seen(s, tx) + rows
  {
  }

  lemma WriteKeepsSeen(s: State, tx: Id, rows: map<Id, Contact>)
    requires tx in s.open && OnePrimary(Seen(s, tx) + rows)
    requires forall t | t in s.open :: OnePrimary(Seen(s, t))
    ensures forall t | t in s.open :: OnePrimary(Seen(Written(s, tx, rows), t))
  {
    SeenAfterWrite(s, tx, rows);
    forall t | t in s.open && t != tx ensures OnePrimary(Seen(Written(s, tx, rows), t)) {
      OthersSeeTheSame(s, tx, rows, t);
    }
  }

  lemma WriteKeepsLocks(s: State, tx: Id, rows: map<Id, Contact>)
    requires LocksFit(s) && tx in s.open
    requires forall q | q in rows :: !HeldByOther(s, tx, q) && SameClient(s, tx, q, rows[q])
    ensures LocksFit(Written(s, tx, rows))
  {
    var after := Written(s, tx, rows);
    forall t, u, id | t in after.open && u in after.open && id in after.open[t] && id in after.open[u]
      ensures t == u
    {
      assert id in rows ==> !HeldByOther(s, tx, id);
    }
    forall t, id | t in after.open && id in after.open[t] && id in s.contacts
      ensures after.open[t][id].client == s.contacts[id].client
    {
      assert t == tx && id in rows ==> SameClient(s, tx, id, rows[id]);
    }
  }

  lemma OwnClaimSurvives(s: State, tx: Id, rows: map<Id, Contact>, c: Id)
    requires Inv(s) && tx in s.open && c in s.open[tx] + rows && ClaimsSlot((s.open[tx] + rows)[c])
    requires forall q | q in rows && ClaimsSlot(rows[q]) :: !SlotContested(s, tx, rows[q].client)
    ensures !SlotContested(Written(s, tx, rows), tx, (s.open[tx] + rows)[c].client)
  {
    var client := (s.open[tx] + rows)[c].client;
    var after := Written(s, tx, rows);
    assert !SlotContested(s, tx, client);
    forall other, q | other in after.open && q in after.open[other] && other != tx
      ensures !Touches(after, after.open[other][q], q, client)
    {
      assert !Touches(s, s.open[other][q], q, client);
    }
  }

  lemma OthersClaimSurvives(s: State, tx: Id, rows: map<Id, Contact>, t: Id, c: Id)
    requires Inv(s) && tx in s.open && t in s.open && t != tx
    requires c in s.open[t] && ClaimsSlot(s.open[t][c])
    requires forall q | q in rows :: !HeldByOther(s, tx, q)
    requires forall q | q in rows && ClaimsSlot(rows[q]) :: !SlotContested(s, tx, rows[q].client)
    ensures !SlotContested(Written(s, tx, rows), t, s.open[t][c].client)
  {
    var client := s.open[t][c].client;
    assert Touches(s, s.open[t][c], c, client);
    assert SlotContested(s, tx, client);
    ClaimSurvivesWrite(s, tx, rows, t, c);
  }

  /** Statements in progress have written nothing yet. */
  lemma DemotingIsFree(s: State, demoting: map<Id, Demotion>)
    requires Inv(s)
    ensures Inv(s.(demoting := demoting))
  {
    var after := s.(demoting := demoting);
    forall t | t in after.open ensures Seen(after, t) == Seen(s, t) {
    }
    forall t, c | t in after.open && c in after.open[t] && ClaimsSlot(after.open[t][c])
      ensures !SlotContested(after, t, after.open[t][c].client)
    {
      assert !SlotContested(s, t, s.open[t][c].client);
    }
  }

  lemma FinishKeepsInv(s: State, tx: Id)
    requires Inv(s)
    ensures Inv(Step(s, FinishDemote(tx)))
  {
    if tx in s.open && tx in s.demoting && !Waits(s, tx, s.demoting[tx]) {
      var rows := DemotedRows(s, tx, s.demoting[tx]);
      WriteKeepsInv(s, tx, rows);
      DemotingIsFree(Written(s, tx, rows), s.demoting - {tx});
    }
  }

  lemma PutKeepsInv(s: State, tx: Id, id: Id, row: Contact)
    requires Inv(s)
    ensures Inv(Step(s, Put(tx, id, row)))
  {
    if !Between(s, tx) || HeldByOther(s, tx, id) || !SameClient(s, tx, id, row) {
    } else if ClaimsSlot(row) && SlotContested(s, tx, row.client) {
    } else if ClaimsSlot(row) && SlotTaken(s, tx, row.client, id) {
      AbortKeepsInv(s, tx);
    } else {
      StoredRowKeepsInv(s, tx, id, row);
    }
  }

  lemma StoredRowKeepsInv(s: State, tx: Id, id: Id, row: Contact)
    requires Inv(s) && tx in s.open && !HeldByOther(s, tx, id) && SameClient(s, tx, id, row)
    requires ClaimsSlot(row) ==> !SlotContested(s, tx, row.client) && !SlotTaken(s, tx, row.client, id)
    ensures Inv(Written(s, tx, map[id := row]))
  {
    SeenAfterPut(s, tx, id, row);
    WriteKeepsInv(s, tx, map[id := row]);
  }

  lemma SeenAfterPut(s: State, tx: Id, id: Id, row: Contact)
    requires tx in s.open && OnePrimary(Seen(s, tx))
    requires ClaimsSlot(row) ==> !SlotTaken(s, tx, row.client, id)
    ensures OnePrimary(Seen(s, tx) + map[id := row])
  {
    var seen := Seen(s, tx);
    forall other | other in seen && other != id && ClaimsSlot(row)
      ensures !LivePrimary(seen[other], row.client)
    {
      assert other in PrimariesOf(seen, row.client) - {id} || !LivePrimary(seen[other], row.client);
    }
  }

  lemma AbortKeepsInv(s: State, tx: Id)
    requires Inv(s)
    ensures Inv(s.(open := s.open - {tx}))
  {
    var after := s.(open := s.open - {tx});
    forall t | t in after.open ensures Seen(after, t) == Seen(s, t) {
    }
    forall t, c | t in after.open && c in after.open[t] && ClaimsSlot(after.open[t][c])
      ensures !SlotContested(after, t, after.open[t][c].client)
    {
      assert !SlotContested(s, t, s.open[t][c].client);
    }
  }

  lemma CommitKeepsInv(s: State, tx: Id)
    requires Inv(s) && Between(s, tx)
    ensures Inv(Step(s, Commit(tx)))
  {
    var after := Step(s, Commit(tx));
    assert after.contacts == Seen(s, tx);
    forall t | t in after.open ensures OnePrimary(Seen(after, t)) {
      SeenAfterCommit(s, tx, t);
    }
    forall t, c | t in after.open && c in after.open[t] && ClaimsSlot(after.open[t][c])
      ensures !SlotContested(after, t, after.open[t][c].client)
    {
      CommitSparesClaim(s, tx, t, c);
    }
  }

  lemma CommitSparesClaim(s: State, tx: Id, t: Id, c: Id)
    requires Inv(s) && Between(s, tx) && t in s.open && t != tx && c in s.open[t] && ClaimsSlot(s.open[t][c])
    ensures !SlotContested(Step(s, Commit(tx)), t, s.open[t][c].client)
  {
    var after := Step(s, Commit(tx));
    var client := s.open[t][c].client;
    assert !SlotContested(s, t, client);
    forall other, q | other in after.open && q in after.open[other] && other != t
      ensures !Touches(after, after.open[other][q], q, client)
    {
      assert !Touches(s, s.open[other][q], q, client);
      assert q !in s.open[tx];
    }
  }

  lemma SeenAfterCommit(s: State, tx: Id, t: Id)
    requires Inv(s) && Between(s, tx) && t in s.open && t != tx
    ensures OnePrimary(Seen(Step(s, Commit(tx)), t))
  {
    var seen := Seen(Step(s, Commit(tx)), t);
    forall a, b | a in seen && b in seen && a != b
      ensures !(LivePrimary(seen[a], seen[a].client) && LivePrimary(seen[b], seen[a].client))
    {
      if a in s.open[t] {
        ClaimedPairAfterCommit(s, tx, t, a, b);
      } else if b in s.open[t] {
        ClaimedPairAfterCommit(s, tx, t, b, a);
      } else {
        assert seen[a] == Seen(s, tx)[a] && seen[b] == Seen(s, tx)[b];
      }
    }
  }

  /** A slot the transaction claimed itself is still held once after another's commit, since that one
      touched no row of it. */
  lemma ClaimedPairAfterCommit(s: State, tx: Id, t: Id, a: Id, b: Id)
    requires Inv(s) && Between(s, tx) && t in s.open && t != tx && a != b
    requires a in s.open[t] && b in Seen(Step(s, Commit(tx)), t)
    ensures !(ClaimsSlot(s.open[t][a]) && LivePrimary(Seen(Step(s, Commit(tx)), t)[b], s.open[t][a].client))
  {
    var row := s.open[t][a];
    assert Seen(s, t)[a] == row;
    assert OnePrimary(Seen(s, t));
    if ClaimsSlot(row) {
      assert !SlotContested(s, t, row.client);
      if b !in s.open[t] && b in s.open[tx] {
        assert !Touches(s, s.open[tx][b], b, row.client);
      } else {
        assert Seen(Step(s, Commit(tx)), t)[b] == Seen(s, t)[b];
      }
    }
  }

  lemma StepKeepsInv(s: State, e: Event)
    requires Inv(s)
    ensures Inv(Step(s, e))
  {
    match e
    case Begin(tx) => BeginKeepsInv(s, tx);
    case Demote(tx, client, except) =>
      if Between(s, tx) { DemotingIsFree(s, Step(s, e).demoting); }
    case FinishDemote(tx) => FinishKeepsInv(s, tx);
    case Put(tx, id, row) => PutKeepsInv(s, tx, id, row);
    case Commit(tx) =>
      if Between(s, tx) { CommitKeepsInv(s, tx); }
    case Abort(tx) =>
      AbortKeepsInv(s, tx);
      DemotingIsFree(s.(open := s.open - {tx}), s.demoting - {tx});
  }

  lemma BeginKeepsInv(s: State, tx: Id)
    requires Inv(s)
    ensures Inv(Step(s, Begin(tx)))
  {
    if tx !in s.open && tx !in s.demoting {
      var after := Step(s, Begin(tx));
      BeginKeepsLocks(s, tx);
      assert Seen(after, tx) == s.contacts;
      forall t | t in after.open ensures OnePrimary(Seen(after, t)) {
        assert t != tx ==> Seen(after, t) == Seen(s, t);
      }
      forall t, c | t in after.open && c in after.open[t] && ClaimsSlot(after.open[t][c])
        ensures !SlotContested(after, t, after.open[t][c].client)
      {
        BeginSparesClaim(s, tx, t, c);
      }
    }
  }

  lemma BeginKeepsLocks(s: State, tx: Id)
    requires LocksFit(s) && tx !in s.open
    ensures LocksFit(Step(s, Begin(tx)))
  {
  }

  lemma BeginSparesClaim(s: State, tx: Id, t: Id, c: Id)
    requires Inv(s) && tx !in s.open && tx !in s.demoting
    requires t in s.open && c in s.open[t] && ClaimsSlot(s.open[t][c])
    ensures !SlotContested(Step(s, Begin(tx)), t, s.open[t][c].client)
  {
    var after := Step(s, Begin(tx));
    var client := s.open[t][c].client;
    assert !SlotContested(s, t, client);
    forall other, q | other in after.open && q in after.open[other] && other != t
      ensures !Touches(after, after.open[other][q], q, client)
    {
      assert !Touches(s, s.open[other][q], q, client);
    }
  }

  /** However contact transactions interleave, wait, trip and roll back, the committed contacts hold at
      most one live primary for each client. */
  lemma {:induction false} InterleavedRunKeepsSlot(s: State, events: seq<Event>, client: Id)
    requires Inv(s)
    ensures Inv(Run(s, events)) && |PrimariesOf(Run(s, events).contacts, client)| <= 1
    decreases |events|
  {
    HeldByOne(s.contacts, client);
    if events != [] {
      StepKeepsInv(s, events[0]);
      InterleavedRunKeepsSlot(Step(s, events[0]), events[1..], client);
    }
  }

  // What each statement does.

  /** A demotion writes, of the rows its snapshot matched, those that still are live primaries of the client
      and not the excepted one, and takes nothing but the flag; while another transaction holds a matched
      row it waits. */
  lemma DemotionLands(s: State, tx: Id)
    requires tx in s.open && tx in s.demoting
    ensures
      var d, seen, after := s.demoting[tx], s.contacts + s.open[tx], Step(s, FinishDemote(tx));
      if exists id, other | other in s.open && other != tx && id in s.open[other] :: id in d.matched then after == s
      else
        && after.contacts == s.contacts && after.demoting == s.demoting - {tx}
        && after.open.Keys == s.open.Keys
        && (forall other | other in s.open && other != tx :: after.open[other] == s.open[other])
        && (forall id :: id in after.open[tx] <==>
              || id in s.open[tx]
              || (id in d.matched && id in seen && seen[id].client == d.client && seen[id].primary
                  && !seen[id].deleted && d.except != Some(id)))
        && (forall id | id in after.open[tx] ::
              var demoted := id in d.matched && seen[id].client == d.client && seen[id].primary
                && !seen[id].deleted && d.except != Some(id);
              after.open[tx][id] == if demoted then seen[id].(primary := false) else seen[id])
  {
    var d := s.demoting[tx];
    if id, other :| other in s.open && other != tx && id in s.open[other] && id in d.matched {
      assert HeldByOther(s, tx, id);
    }
  }

  lemma DemotionStarts(s: State, tx: Id, client: Id, except: Option<Id>)
    requires tx in s.open && tx !in s.demoting
    ensures
      var seen, after := s.contacts + s.open[tx], Step(s, Demote(tx, client, except));
      && after.contacts == s.contacts && after.open == s.open
      && tx in after.demoting && after.demoting == s.demoting[tx := after.demoting[tx]]
      && after.demoting[tx].client == client && after.demoting[tx].except == except
      && forall id :: id in after.demoting[tx].matched <==>
           id in seen && seen[id].client == client && seen[id].primary && !seen[id].deleted && except != Some(id)
  {
  }

  /** A store of a row nobody else holds is the transaction's own from then on, unless it claims a slot:
      then it waits for whoever touches the slot, and trips if another live primary has it. */
  lemma StoreLands(s: State, tx: Id, id: Id, row: Contact)
    requires tx in s.open && tx !in s.demoting
    requires forall other | other in s.open && other != tx :: id !in s.open[other]
    requires
      var seen := s.contacts + s.open[tx];
      id in seen ==> seen[id].client == row.client
    ensures
      var seen, after := s.contacts + s.open[tx], Step(s, Put(tx, id, row));
      var claims := row.primary && !row.deleted;
      var taken := exists o | o in seen && o != id ::
        seen[o].client == row.client && seen[o].primary && !seen[o].deleted;
      if claims && SlotContested(s, tx, row.client) then after == s
      else if claims && taken then after == s.(open := s.open - {tx})
      else
        var own: map<Id, Contact> := s.open[tx][id := row];
        after == s.(open := s.open[tx := own])
  {
    var seen := Seen(s, tx);
    if o :| o in seen && o != id && seen[o].client == row.client && seen[o].primary && !seen[o].deleted {
      assert o in PrimariesOf(seen, row.client) - {id};
    } else {
      assert PrimariesOf(seen, row.client) - {id} == {};
    }
    assert s.open[tx] + map[id := row] == s.open[tx][id := row];
  }

  /** The slot is contested while another transaction has written a live primary of the client, or a row
      that is one. */
  lemma ContestedExactly(s: State, tx: Id, client: Id)
    ensures SlotContested(s, tx, client) <==>
      exists other, id | other in s.open && id in s.open[other] && other != tx ::
        || (s.open[other][id].client == client && s.open[other][id].primary && !s.open[other][id].deleted)
        || (id in s.contacts && s.contacts[id].client == client && s.contacts[id].primary && !s.contacts[id].deleted)
  {
    forall other, id | other in s.open && id in s.open[other]
      ensures Touches(s, s.open[other][id], id, client) <==>
        || (s.open[other][id].client == client && s.open[other][id].primary && !s.open[other][id].deleted)
        || (id in s.contacts && s.contacts[id].client == client && s.contacts[id].primary && !s.contacts[id].deleted)
    {
    }
  }

  lemma TransactionsMove(s: State, tx: Id)
    ensures tx !in s.open && tx !in s.demoting ==> Step(s, Begin(tx)) == s.(open := s.open[tx := map[]])
    ensures tx in s.open && tx !in s.demoting ==>
      Step(s, Commit(tx)) == s.(contacts := s.contacts + s.open[tx], open := s.open - {tx})
    ensures Step(s, Abort(tx)) == s.(open := s.open - {tx}, demoting := s.demoting - {tx})
  {
  }

  // When the index trips.

  /** The live primaries a demotion in progress will not reach: its snapshot did not match them. */
  function Missed(s: State, tx: Id): set<Id>
    requires tx in s.open && tx in s.demoting
  {
    var d := s.demoting[tx];
    set id | id in PrimariesOf(Seen(s, tx), d.client) && id !in d.matched && d.except != Some(id)
  }

  lemma NothingMissedAtFirst(s: State, tx: Id, client: Id, except: Option<Id>)
    requires Between(s, tx)
    ensures Missed(Step(s, Demote(tx, client, except)), tx) == {}
  {
  }

  /** Finishing leaves the slot taken, so that the promotion that follows trips, exactly when some live
      primary was missed. */
  lemma DemotionFreesUnlessMissed(s: State, tx: Id, id: Id)
    requires Inv(s) && tx in s.open && tx in s.demoting && s.demoting[tx].except == Some(id)
    requires !Waits(s, tx, s.demoting[tx])
    ensures
      var after := Step(s, FinishDemote(tx));
      tx in after.open && (SlotTaken(after, tx, s.demoting[tx].client, id) <==> Missed(s, tx) != {})
  {
    var d := s.demoting[tx];
    SeenAfterWrite(s, tx, DemotedRows(s, tx, d));
    PrimariesAfterDemotion(s, tx, d);
    assert PrimariesOf(Seen(s, tx) + DemotedRows(s, tx, d), d.client) - {id} == Missed(s, tx);
  }

  lemma PrimariesAfterDemotion(s: State, tx: Id, d: Demotion)
    requires tx in s.open
    ensures
      var before, rows := Seen(s, tx), DemotedRows(s, tx, d);
      PrimariesOf(before + rows, d.client) == PrimariesOf(before, d.client) - rows.Keys
  {
    var before, rows := Seen(s, tx), DemotedRows(s, tx, d);
    forall id ensures id in PrimariesOf(before + rows, d.client) <==>
                      id in PrimariesOf(before, d.client) && id !in rows
    {
      assert id in rows ==> !LivePrimary((before + rows)[id], d.client);
      assert id in before && id !in rows ==> (before + rows)[id] == before[id];
    }
  }

  /** Another transaction's step makes a demotion miss a row only by committing that row as a live primary
      of the client. */
  lemma OnlyACommitIsMissed(s: State, e: Event, tx: Id, id: Id)
    requires Inv(s) && tx in s.open && tx in s.demoting && e.tx != tx
    requires id in Missed(Step(s, e), tx) && id !in Missed(s, tx)
    ensures e.Commit? && Between(s, e.tx) && id in s.open[e.tx]
    ensures LivePrimary(s.open[e.tx][id], s.demoting[tx].client)
  {
  }

  /** No event is a step of the transaction, or a commit of a live primary of the client. */
  predicate Unrivalled(s: State, events: seq<Event>, tx: Id, client: Id)
    decreases |events|
  {
    events != [] ==>
      && events[0].tx != tx
      && (events[0].Commit? && events[0].tx in s.open ==>
            forall id | id in s.open[events[0].tx] :: !LivePrimary(s.open[events[0].tx][id], client))
      && Unrivalled(Step(s, events[0]), events[1..], tx, client)
  }

  /** Over any stretch in which the transaction waits and no rival commits, its demotion misses nothing. */
  lemma {:induction false} UnrivalledMissesNothing(s: State, events: seq<Event>, tx: Id)
    requires Inv(s) && tx in s.open && tx in s.demoting && Missed(s, tx) == {}
    requires Unrivalled(s, events, tx, s.demoting[tx].client)
    ensures
      var after := Run(s, events);
      && Inv(after) && tx in after.open && tx in after.demoting && after.demoting[tx] == s.demoting[tx]
      && Missed(after, tx) == {}
    decreases |events|
  {
    if events != [] {
      var next := Step(s, events[0]);
      StepKeepsInv(s, events[0]);
      StatementsStay(s, events[0], tx);
      forall id | id in Missed(next, tx) ensures false {
        OnlyACommitIsMissed(s, events[0], tx, id);
      }
      UnrivalledMissesNothing(next, events[1..], tx);
    }
  }

  /** So a promotion's demotion frees the slot for it, however long it waits, unless a rival commits in
      between. */
  lemma DemotionFreesSlot(s: State, tx: Id, client: Id, id: Id, events: seq<Event>)
    requires Inv(s) && Between(s, tx)
    requires Unrivalled(Step(s, Demote(tx, client, Some(id))), events, tx, client)
    ensures
      var waited := Run(Step(s, Demote(tx, client, Some(id))), events);
      && tx in waited.open && tx in waited.demoting
      && (!Waits(waited, tx, waited.demoting[tx]) ==>
            var after := Step(waited, FinishDemote(tx));
            tx in after.open && !SlotTaken(after, tx, client, id))
  {
    var started := Step(s, Demote(tx, client, Some(id)));
    StepKeepsInv(s, Demote(tx, client, Some(id)));
    NothingMissedAtFirst(s, tx, client, Some(id));
    UnrivalledMissesNothing(started, events, tx);
    var waited := Run(started, events);
    if !Waits(waited, tx, waited.demoting[tx]) {
      DemotionFreesUnlessMissed(waited, tx, id);
    }
  }

  lemma StatementsStay(s: State, e: Event, tx: Id)
    requires tx in s.open && tx in s.demoting && e.tx != tx
    ensures tx in Step(s, e).open && tx in Step(s, e).demoting && Step(s, e).demoting[tx] == s.demoting[tx]
    ensures Step(s, e).open[tx] == s.open[tx]
  {
  }

  /** What a step of another transaction does to what this one sees: nothing, unless it commits. */
  lemma SeenAfterOthers(s: State, e: Event, tx: Id)
    requires tx in s.open && e.tx != tx
    ensures tx in Step(s, e).open
    ensures e.Commit? && Between(s, e.tx) ==> Seen(Step(s, e), tx) == s.contacts + s.open[e.tx] + s.open[tx]
    ensures !(e.Commit? && Between(s, e.tx)) ==> Seen(Step(s, e), tx) == Seen(s, tx)
  {
  }

  /** After the demotion too, only another transaction's commit can take the slot. */
  lemma OnlyACommitTakesSlot(s: State, e: Event, tx: Id, client: Id, id: Id)
    requires tx in s.open && e.tx != tx && tx in Step(s, e).open
    requires !SlotTaken(s, tx, client, id) && SlotTaken(Step(s, e), tx, client, id)
    ensures e.Commit? && Between(s, e.tx)
    ensures exists q | q in s.open[e.tx] :: LivePrimary(s.open[e.tx][q], client)
  {
    SeenAfterOthers(s, e, tx);
    var q :| q in PrimariesOf(Seen(Step(s, e), tx), client) - {id};
    assert q !in PrimariesOf(Seen(s, tx), client);
  }

  /** Two transactions have begun. */
  function Begun(contacts: map<Id, Contact>): State {
    State(contacts, map[1 := map[], 2 := map[]], map[])
  }

  lemma TwoBegin(contacts: map<Id, Contact>)
    ensures Step(Step(State(contacts, map[], map[]), Begin(1)), Begin(2)) == Begun(contacts)
  {
  }

  /** Two first contacts: both transactions read an empty slot; the second to insert waits while the
      first is open, and trips once it has committed. */
  lemma ConcurrentFirstContactsTrip(contacts: map<Id, Contact>, client: Id, one: Id, other: Id)
    requires OnePrimary(contacts) && PrimariesOf(contacts, client) == {}
    requires one !in contacts && other !in contacts && one != other
    ensures
      var row := Contact(client, true, false);
      var s := Step(Begun(contacts), Put(1, one, row));
      var waiting := Step(s, Put(2, other, row));
      var tripped := Step(Step(s, Commit(1)), Put(2, other, row));
      && s.open == map[1 := map[one := row], 2 := map[]]
      && waiting == s
      && tripped == State(contacts[one := row], map[], map[])
  {
    var row := Contact(client, true, false);
    FirstInserts(contacts, client, one);
    var s := State(contacts, map[1 := map[one := row], 2 := map[]], map[]);
    assert one in s.open[1] && LivePrimary(s.open[1][one], client);
    var committed := Step(s, Commit(1));
    assert committed == State(contacts[one := row], map[2 := map[]], map[]);
    SecondTrips(contacts[one := row], client, one, other);
  }

  lemma FirstInserts(contacts: map<Id, Contact>, client: Id, one: Id)
    requires PrimariesOf(contacts, client) == {} && one !in contacts
    ensures
      var row := Contact(client, true, false);
      Step(Begun(contacts), Put(1, one, row)) == State(contacts, map[1 := map[one := row], 2 := map[]], map[])
  {
    var none: map<Id, Contact> := map[];
    var row := Contact(client, true, false);
    assert Seen(Begun(contacts), 1) == contacts;
    assert none + map[one := row] == map[one := row];
    var rows: map<Id, Contact> := map[one := row];
    assert Begun(contacts).open[1 := rows] == map[1 := map[one := row], 2 := map[]];
  }

  /** The second transaction, alone now, stores a primary beside one that is committed. */
  lemma SecondTrips(contacts: map<Id, Contact>, client: Id, taken: Id, id: Id)
    requires taken in contacts && contacts[taken] == Contact(client, true, false) && id != taken
    requires id in contacts ==> contacts[id].client == client
    ensures Step(State(contacts, map[2 := map[]], map[]), Put(2, id, Contact(client, true, false)))
            == State(contacts, map[], map[])
  {
    var s := State(contacts, map[2 := map[]], map[]);
    assert Seen(s, 2) == contacts;
    assert taken in PrimariesOf(Seen(s, 2), client) - {id};
    assert s.open - {2} == map[];
  }

  /** Three live contacts of one client, of which `held` has the slot. */
  predicate TwoCandidates(contacts: map<Id, Contact>, client: Id, held: Id, one: Id, other: Id) {
    && one in contacts && other in contacts && one != other
    && contacts[one] == Contact(client, false, false) && contacts[other] == Contact(client, false, false)
    && held in contacts && contacts[held] == Contact(client, true, false)
    && PrimariesOf(contacts, client) == {held}
  }

  /** The first promotion has freed the slot. */
  function FirstDemoted(contacts: map<Id, Contact>, client: Id, held: Id): State {
    State(contacts, map[1 := map[held := Contact(client, false, false)], 2 := map[]], map[])
  }

  /** The first promotion's writes are done; the second's demotion has its snapshot, and waits. */
  function SecondWaits(contacts: map<Id, Contact>, client: Id, held: Id, one: Id, other: Id): State {
    var free, promoted := Contact(client, false, false), Contact(client, true, false);
    State(contacts, map[1 := map[held := free, one := promoted], 2 := map[]],
          map[2 := Demotion(client, Some(other), {held})])
  }

  lemma FirstDemotes(contacts: map<Id, Contact>, client: Id, held: Id, one: Id, other: Id)
    requires TwoCandidates(contacts, client, held, one, other)
    ensures Step(Step(Begun(contacts), Demote(1, client, Some(one))), FinishDemote(1))
            == FirstDemoted(contacts, client, held)
  {
    var d := Demotion(client, Some(one), {held});
    var s := State(contacts, map[1 := map[], 2 := map[]], map[1 := d]);
    assert Seen(Begun(contacts), 1) == contacts && Seen(s, 1) == contacts;
    assert Matched(Begun(contacts), 1, client, Some(one)) == {held};
    assert Step(Begun(contacts), Demote(1, client, Some(one))) == s;
    assert !HeldByOther(s, 1, held);
    var rows: map<Id, Contact> := map[held := Contact(client, false, false)];
    assert DemotedRows(s, 1, d) == rows;
    var none: map<Id, Contact> := map[];
    assert none + rows == rows && s.demoting - {1} == map[];
    assert s.open[1 := rows] == map[1 := rows, 2 := map[]];
  }

  lemma SecondComesToWait(contacts: map<Id, Contact>, client: Id, held: Id, one: Id, other: Id)
    requires TwoCandidates(contacts, client, held, one, other)
    ensures
      var first := Step(FirstDemoted(contacts, client, held), Put(1, one, Contact(client, true, false)));
      Step(first, Demote(2, client, Some(other))) == SecondWaits(contacts, client, held, one, other)
  {
    var s := FirstDemoted(contacts, client, held);
    var free, promoted := Contact(client, false, false), Contact(client, true, false);
    forall id ensures id !in PrimariesOf(Seen(s, 1), client) {
      assert Seen(s, 1)[held] == free;
      assert id in PrimariesOf(contacts, client) ==> id == held;
    }
    var rows: map<Id, Contact> := map[held := free, one := promoted];
    assert s.open[1] + map[one := promoted] == rows;
    assert s.open[1 := rows] == map[1 := rows, 2 := map[]];
    var first := State(contacts, map[1 := rows, 2 := map[]], map[]);
    assert Step(s, Put(1, one, promoted)) == first;
    assert Seen(first, 2) == contacts;
    assert Matched(first, 2, client, Some(other)) == {held};
  }

  /** Two promotions: the second's demotion waits for the row that has the slot, finds it demoted once the
      first has committed, has never matched the first's contact, and so its own promotion trips. */
  lemma ConcurrentPromotionsTrip(contacts: map<Id, Contact>, client: Id, held: Id, one: Id, other: Id)
    requires TwoCandidates(contacts, client, held, one, other)
    ensures
      var s := SecondWaits(contacts, client, held, one, other);
      var free, promoted := Contact(client, false, false), Contact(client, true, false);
      var demoted := Step(Step(s, Commit(1)), FinishDemote(2));
      && Step(s, FinishDemote(2)) == s
      && Step(demoted, Put(2, other, promoted)) == State(contacts[held := free][one := promoted], map[], map[])
  {
    var s := SecondWaits(contacts, client, held, one, other);
    assert held in s.open[1] && HeldByOther(s, 2, held);
    var after := contacts[held := Contact(client, false, false)][one := Contact(client, true, false)];
    assert s.contacts + s.open[1] == after;
    assert s.open - {1} == map[2 := map[]];
    assert Step(s, Commit(1)) == State(after, map[2 := map[]], s.demoting);
    FindsNothing(after, client, held, other);
    SecondTrips(after, client, one, other);
  }

  lemma FindsNothing(contacts: map<Id, Contact>, client: Id, held: Id, other: Id)
    requires held in contacts && contacts[held] == Contact(client, false, false)
    ensures
      var d := Demotion(client, Some(other), {held});
      Step(State(contacts, map[2 := map[]], map[2 := d]), FinishDemote(2))
        == State(contacts, map[2 := map[]], map[])
  {
    var d := Demotion(client, Some(other), {held});
    var s := State(contacts, map[2 := map[]], map[2 := d]);
    var none: map<Id, Contact> := map[];
    assert Seen(s, 2) == contacts;
    assert DemotedRows(s, 2, d) == none;
    assert none + none == none;
    assert s.open[2 := none] == map[2 := none] && s.demoting - {2} == map[];
  }
}
