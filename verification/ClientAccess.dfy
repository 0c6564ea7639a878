/** The portal door of each client: tokens minted, rotated, revoked, cleared by a soft delete, and never
    brought back by a restore, however the requests interleave. */
module ClientAccess {
  import opened Wrappers

  type Id = nat
  type Token = nat

  datatype Client = Client(token: Option<Token>, deleted: bool)

  /** A link request that has read its client as live and not yet written. */
  datatype Request = Rotating(client: Id) | Revoking(client: Id)

  datatype State = State(clients: map<Id, Client>, requests: map<Id, Request>, minted: set<Token>)

  datatype Event =
    | Add(client: Id)
    | BeginRotate(req: Id, client: Id)
    | BeginRevoke(req: Id, client: Id)
    | Write(req: Id, token: Token)
    | Abort(req: Id)
    | SoftDelete(client: Id)
    | RestoreClient(client: Id)

  predicate Live(s: State, c: Id) {
    c in s.clients && !s.clients[c].deleted
  }

  /** What a presented token opens. */
  predicate Opens(s: State, token: Token, c: Id) {
    Live(s, c) && s.clients[c].token == Some(token)
  }

  function SetClient(s: State, c: Id, client: Client): State {
    s.(clients := s.clients[c := client])
  }

  /** The guarded UPDATE of a link request; a rotation mints its token here. */
  function WriteStep(s: State, req: Id, token: Token): State
    requires req in s.requests
  {
    var done := s.(requests := s.requests - {req});
    match s.requests[req]
    case Rotating(c) =>
      if token in s.minted then s
      else if Live(s, c) then
        SetClient(done.(minted := s.minted + {token}), c, s.clients[c].(token := Some(token)))
      else done.(minted := s.minted + {token})
    case Revoking(c) =>
      if Live(s, c) then SetClient(done, c, s.clients[c].(token := None)) else done
  }

  function Step(s: State, e: Event): State {
    match e
    case Add(c) => if c in s.clients then s else SetClient(s, c, Client(None, false))
    case BeginRotate(req, c) =>
      if Live(s, c) && req !in s.requests then s.(requests := s.requests[req := Rotating(c)]) else s
    case BeginRevoke(req, c) =>
      if Live(s, c) && s.clients[c].token.Some? && req !in s.requests
      then s.(requests := s.requests[req := Revoking(c)]) else s
    case Write(req, token) => if req in s.requests then WriteStep(s, req, token) else s
    case Abort(req) => s.(requests := s.requests - {req})
    case SoftDelete(c) => if Live(s, c) then SetClient(s, c, Client(None, true)) else s
    case RestoreClient(c) =>
      if c in s.clients && s.clients[c].deleted then SetClient(s, c, s.clients[c].(deleted := false)) else s
  }

  function Run(s: State, events: seq<Event>): State {
    if events == [] then s
    else Step(Run(s, events[..|events| - 1]), events[|events| - 1])
  }

  /** What each request and each action does to the fields. */
  lemma RequestsBegin(s: State, req: Id, c: Id)
    requires req !in s.requests
    ensures Step(s, BeginRotate(req, c)) ==
      if c in s.clients && !s.clients[c].deleted then s.(requests := s.requests[req := Rotating(c)]) else s
    ensures Step(s, BeginRevoke(req, c)) ==
      if c in s.clients && !s.clients[c].deleted && s.clients[c].token.Some?
      then s.(requests := s.requests[req := Revoking(c)]) else s
    ensures Step(s, Abort(req)) == s
  {
    assert s.requests - {req} == s.requests;
  }

  /** A link request that writes leaves its client, if still out of the trash, with the token minted for a
      rotation and with none for a revocation, and is over. */
  lemma LinkChangeLands(s: State, req: Id, token: Token, c: Id)
    requires req in s.requests
    requires s.requests[req] == Revoking(c) || (s.requests[req] == Rotating(c) && token !in s.minted)
    ensures
      var after, rotating := Step(s, Write(req, token)), s.requests[req].Rotating?;
      && after.requests == s.requests - {req}
      && after.minted == s.minted + (if rotating then {token} else {})
      && after.clients ==
         if c in s.clients && !s.clients[c].deleted
         then s.clients[c := Client(if rotating then Some(token) else None, false)] else s.clients
  {
  }

  /** A client comes without a portal; the trash takes it with its token, and gives it back as it was. */
  lemma ClientsMove(s: State, c: Id)
    ensures Step(s, Add(c)) ==
      if c in s.clients then s else s.(clients := s.clients[c := Client(None, false)])
    ensures Step(s, SoftDelete(c)) ==
      if c in s.clients && !s.clients[c].deleted then s.(clients := s.clients[c := Client(None, true)]) else s
    ensures Step(s, RestoreClient(c)) ==
      if c in s.clients && s.clients[c].deleted
      then s.(clients := s.clients[c := Client(s.clients[c].token, false)]) else s
  {
  }

  /** Tokens are minted and unique, and a deleted client holds none. */
  ghost predicate Inv(s: State) {
    && (forall c | c in s.clients && s.clients[c].token.Some? ::
          s.clients[c].token.value in s.minted && !s.clients[c].deleted)
    && forall c, d | c in s.clients && d in s.clients && s.clients[c].token.Some?
                     && s.clients[c].token == s.clients[d].token :: c == d
  }

  predicate Dead(s: State, token: Token) {
    token in s.minted && forall c | c in s.clients :: s.clients[c].token != Some(token)
  }

  lemma {:induction false} RunKeepsInv(s: State, events: seq<Event>)
    requires Inv(s)
    ensures Inv(Run(s, events))
    decreases |events|
  {
    if events != [] {
      RunKeepsInv(s, events[..|events| - 1]);
      StepKeepsInv(Run(s, events[..|events| - 1]), events[|events| - 1]);
    }
  }

  lemma StepKeepsInv(s: State, e: Event)
    requires Inv(s)
    ensures Inv(Step(s, e))
  {
  }

  /** A token no client holds any more opens nothing in any later state of any run. */
  lemma {:induction false} DeadStaysDead(s: State, events: seq<Event>, token: Token)
    requires Dead(s, token)
    ensures Dead(Run(s, events), token)
    ensures forall c :: !Opens(Run(s, events), token, c)
    decreases |events|
  {
    if events != [] {
      DeadStaysDead(s, events[..|events| - 1], token);
      StepKeepsDead(Run(s, events[..|events| - 1]), events[|events| - 1], token);
    }
  }

  lemma StepKeepsDead(s: State, e: Event, token: Token)
    requires Dead(s, token)
    ensures Dead(Step(s, e), token)
  {
  }

  /** A rotation, a revocation and a soft delete each kill the token the client held, so nothing that
      follows, a restore included, can revive it. */
  lemma DoorClosedForGood(s: State, e: Event, later: seq<Event>, c: Id)
    requires Inv(s) && Live(s, c) && s.clients[c].token.Some?
    requires
      || e == SoftDelete(c)
      || (e.Write? && e.req in s.requests && s.requests[e.req] == Revoking(c))
      || (e.Write? && e.req in s.requests && s.requests[e.req] == Rotating(c) && e.token !in s.minted)
    ensures
      var token := s.clients[c].token.value;
      Dead(Step(s, e), token) && forall d :: !Opens(Run(Step(s, e), later), token, d)
  {
    DeadStaysDead(Step(s, e), later, s.clients[c].token.value);
  }

  /** No rotation of the client lands along the run. */
  ghost predicate NeverRotated(s: State, events: seq<Event>, c: Id) {
    events != [] ==>
      var before := Run(s, events[..|events| - 1]);
      var e := events[|events| - 1];
      && NeverRotated(s, events[..|events| - 1], c)
      && !(e.Write? && e.req in before.requests && before.requests[e.req] == Rotating(c))
  }

  /** A client without a portal, such as one just restored, stays without until somebody rotates. */
  lemma {:induction false} ClosedUntilRotated(s: State, events: seq<Event>, c: Id)
    requires c in s.clients && s.clients[c].token.None? && NeverRotated(s, events, c)
    ensures c in Run(s, events).clients && Run(s, events).clients[c].token.None?
    decreases |events|
  {
    if events != [] {
      ClosedUntilRotated(s, events[..|events| - 1], c);
    }
  }

  /** The link and trash actions as written, one caller at a time. */
  class ClientTable {
    var clients: map<Id, Client>
    var minted: set<Token>

    ghost function Rows(): State
      reads this
    {
      State(clients, map[], minted)
    }

    constructor ()
      ensures Rows() == State(map[], map[], {}) && Inv(Rows())
    {
      clients, minted := map[], {};
    }

    method RotateClientPortalLink(c: Id, token: Token) returns (rotated: bool)
      requires Inv(Rows()) && token !in minted
      modifies this
      ensures Inv(Rows()) && (rotated <==> Live(old(Rows()), c))
      ensures rotated ==>
        && Rows() == Step(Step(old(Rows()), BeginRotate(0, c)), Write(0, token)) && Opens(Rows(), token, c)
        && (old(clients)[c].token.Some? ==> Dead(Rows(), old(clients)[c].token.value))
        && clients == old(clients)[c := Client(Some(token), false)] && minted == old(minted) + {token}
      ensures !rotated ==> Rows() == old(Rows())
    {
      if c !in clients || clients[c].deleted {
        return false;
      }
      LinkStepsAlone(Rows(), c, token);
      clients := clients[c := clients[c].(token := Some(token))];
      minted := minted + {token};
      rotated := true;
    }

    method RevokeClientPortalLink(c: Id) returns (revoked: bool)
      requires Inv(Rows())
      modifies this
      ensures Inv(Rows()) && (revoked <==> Live(old(Rows()), c) && old(clients)[c].token.Some?)
      ensures revoked ==> Dead(Rows(), old(clients)[c].token.value)
      ensures revoked ==> clients == old(clients)[c := Client(None, false)] && minted == old(minted)
      ensures revoked ==> Rows() == Step(Step(old(Rows()), BeginRevoke(0, c)), Write(0, 0))
      ensures !revoked ==> Rows() == old(Rows())
    {
      if c !in clients || clients[c].deleted || clients[c].token.None? {
        return false;
      }
      assert Step(Rows(), BeginRevoke(0, c)).requests == map[0 := Revoking(c)];
      clients := clients[c := clients[c].(token := None)];
      revoked := true;
    }

    method SoftDeleteClient(c: Id) returns (deleted: bool)
      requires Inv(Rows())
      modifies this
      ensures Inv(Rows()) && Rows() == Step(old(Rows()), SoftDelete(c))
      ensures deleted <==> Live(old(Rows()), c)
      ensures deleted && old(clients)[c].token.Some? ==> Dead(Rows(), old(clients)[c].token.value)
      ensures deleted ==> clients == old(clients)[c := Client(None, true)] && minted == old(minted)
      ensures !deleted ==> Rows() == old(Rows())
    {
      StepKeepsInv(Rows(), SoftDelete(c));
      if c !in clients || clients[c].deleted {
        return false;
      }
      clients := clients[c := Client(None, true)];
      deleted := true;
    }

    /** The portal token stays as the delete left it. */
    method Restore(c: Id) returns (restored: bool)
      requires Inv(Rows())
      modifies this
      ensures Inv(Rows()) && Rows() == Step(old(Rows()), RestoreClient(c))
      ensures restored ==> Live(Rows(), c) && clients[c].token.None?
      ensures restored <==> c in old(clients) && old(clients)[c].deleted
      ensures restored ==> clients == old(clients)[c := Client(None, false)] && minted == old(minted)
      ensures !restored ==> Rows() == old(Rows())
    {
      StepKeepsInv(Rows(), RestoreClient(c));
      if c !in clients || !clients[c].deleted {
        return false;
      }
      clients := clients[c := clients[c].(deleted := false)];
      restored := true;
    }
  }

  lemma LinkStepsAlone(s: State, c: Id, token: Token)
    requires Inv(s) && s.requests == map[] && Live(s, c) && token !in s.minted
    ensures
      var after := Step(Step(s, BeginRotate(0, c)), Write(0, token));
      && after == State(s.clients[c := s.clients[c].(token := Some(token))], map[], s.minted + {token})
      && Inv(after)
  {
  }
}
