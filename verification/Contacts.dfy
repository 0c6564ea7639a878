/** The primary-contact slot: at most one live primary for each client, by a partial unique index, and
    actions that run one at a time never make it refuse. */
module Contacts {
  import opened Wrappers

  type Id = nat

  datatype Contact = Contact(client: Id, primary: bool, deleted: bool)

  datatype Action =
    | Create(client: Id, id: Id, primary: bool)
    | Update(id: Id, primary: bool)
    | Promote(id: Id)
    | Delete(id: Id)
    | Restore(id: Id)

  /** `Tripped` is the unique index refusing a statement, which takes its transaction back. */
  datatype Outcome = Done(contacts: map<Id, Contact>) | Refused | Tripped

  predicate LivePrimary(contact: Contact, client: Id) {
    contact.client == client && contact.primary && !contact.deleted
  }

  function PrimariesOf(contacts: map<Id, Contact>, client: Id): set<Id> {
    set id | id in contacts && LivePrimary(contacts[id], client)
  }

  // Statements.

  /** An INSERT or UPDATE of one row, checked against the index. */
  function Store(contacts: map<Id, Contact>, id: Id, row: Contact): Outcome {
    if row.primary && !row.deleted && PrimariesOf(contacts, row.client) - {id} != {} then Tripped
    else Done(contacts[id := row])
  }

  function Demoted(contacts: map<Id, Contact>, client: Id, except: Option<Id>): map<Id, Contact> {
    map id | id in contacts ::
      if LivePrimary(contacts[id], client) && except != Some(id) then contacts[id].(primary := false)
      else contacts[id]
  }

  predicate LiveContact(contacts: map<Id, Contact>, id: Id) {
    id in contacts && !contacts[id].deleted
  }

  // Actions, each one transaction.

  function Perform(contacts: map<Id, Contact>, liveClients: set<Id>, action: Action): Outcome {
    match action
    case Create(client, id, wanted) =>
      if client !in liveClients || id in contacts then Refused
      else
        var primary := wanted || PrimariesOf(contacts, client) == {};
        var before := if primary then Demoted(contacts, client, None) else contacts;
        Store(before, id, Contact(client, primary, false))
    case Update(id, primary) =>
      if !LiveContact(contacts, id) then Refused
      else
        var before := if primary then Demoted(contacts, contacts[id].client, Some(id)) else contacts;
        Store(before, id, before[id].(primary := primary))
    case Promote(id) =>
      if !LiveContact(contacts, id) then Refused
      else
        var before := Demoted(contacts, contacts[id].client, Some(id));
        Store(before, id, before[id].(primary := true))
    case Delete(id) =>
      if !LiveContact(contacts, id) then Refused
      else Store(contacts, id, contacts[id].(deleted := true))
    case Restore(id) =>
      if id !in contacts || !contacts[id].deleted || contacts[id].client !in liveClients then Refused
      else
        var taken := contacts[id].primary && PrimariesOf(contacts, contacts[id].client) != {};
        Store(contacts, id, contacts[id].(deleted := false, primary := contacts[id].primary && !taken))
  }

  function ClientOf(contacts: map<Id, Contact>, action: Action): Option<Id> {
    match action
    case Create(client, _, _) => Some(client)
    case _ => if action.id in contacts then Some(contacts[action.id].client) else None
  }

  // What the index gives every run.

  ghost predicate OnePrimary(contacts: map<Id, Contact>) {
    forall a, b | a in contacts && b in contacts && a != b ::
      !(LivePrimary(contacts[a], contacts[a].client) && LivePrimary(contacts[b], contacts[a].client))
  }

  lemma StoreKeepsOnePrimary(contacts: map<Id, Contact>, id: Id, row: Contact)
    requires OnePrimary(contacts)
    ensures Store(contacts, id, row).Done? ==> OnePrimary(Store(contacts, id, row).contacts)
  {
    if Store(contacts, id, row).Done? {
      var after := contacts[id := row];
      forall other | other in contacts && other != id
        ensures !(LivePrimary(row, row.client) && LivePrimary(contacts[other], row.client))
      {
        assert LivePrimary(contacts[other], row.client) ==> other in PrimariesOf(contacts, row.client) - {id};
      }
    }
  }

  /** A demotion takes the slot from the client's primaries but the excepted one, and changes nothing
      else: the other rows stay as they were, and these in all but the flag. */
  lemma DemotedFrees(contacts: map<Id, Contact>, client: Id, except: Option<Id>)
    ensures
      var after := Demoted(contacts, client, except);
      && after.Keys == contacts.Keys
      && PrimariesOf(after, client) ==
         PrimariesOf(contacts, client) * (if except.Some? then {except.value} else {})
      && (forall id | id in contacts && id !in PrimariesOf(contacts, client) :: after[id] == contacts[id])
      && (forall id | id in contacts :: after[id].(primary := contacts[id].primary) == contacts[id])
      && (OnePrimary(contacts) ==> OnePrimary(after))
  {
    var after := Demoted(contacts, client, except);
    forall id | id in contacts
      ensures LivePrimary(after[id], client) <==> LivePrimary(contacts[id], client) && except == Some(id)
    {
    }
  }

  /** One at a time, no action trips the index, every action keeps it, and only its own client's contacts
      can differ afterwards. */
  lemma ActionKeepsSlot(contacts: map<Id, Contact>, liveClients: set<Id>, action: Action)
    requires OnePrimary(contacts)
    ensures !Perform(contacts, liveClients, action).Tripped?
    ensures Perform(contacts, liveClients, action).Done? ==>
      var after := Perform(contacts, liveClients, action).contacts;
      && OnePrimary(after)
      && ClientOf(contacts, action).Some?
      && forall id | id in contacts && contacts[id].client != ClientOf(contacts, action).value ::
           id in after && after[id] == contacts[id]
  {
    match action
    case Create(client, id, wanted) =>
      DemotedFrees(contacts, client, None);
      var primary := wanted || PrimariesOf(contacts, client) == {};
      var before := if primary then Demoted(contacts, client, None) else contacts;
      StoreKeepsOnePrimary(before, id, Contact(client, primary, false));
    case Update(id, primary) =>
      if LiveContact(contacts, id) {
        DemotedFrees(contacts, contacts[id].client, Some(id));
        var before := if primary then Demoted(contacts, contacts[id].client, Some(id)) else contacts;
        StoreKeepsOnePrimary(before, id, before[id].(primary := primary));
      }
    case Promote(id) =>
      if LiveContact(contacts, id) {
        DemotedFrees(contacts, contacts[id].client, Some(id));
        var before := Demoted(contacts, contacts[id].client, Some(id));
        StoreKeepsOnePrimary(before, id, before[id].(primary := true));
      }
    case Delete(id) =>
      if LiveContact(contacts, id) { StoreKeepsOnePrimary(contacts, id, contacts[id].(deleted := true)); }
    case Restore(id) =>
      if id in contacts && contacts[id].deleted && contacts[id].client in liveClients {
        var taken := contacts[id].primary && PrimariesOf(contacts, contacts[id].client) != {};
        StoreKeepsOnePrimary(contacts, id,
          contacts[id].(deleted := false, primary := contacts[id].primary && !taken));
      }
  }

  /** Who holds the slot afterwards: a created contact when asked for or when nobody held it, a promoted
      one always, a restored one only if it held it before and nobody does now. */
  lemma SlotAfter(contacts: map<Id, Contact>, liveClients: set<Id>, action: Action)
    requires OnePrimary(contacts) && Perform(contacts, liveClients, action).Done?
    ensures
      var after := Perform(contacts, liveClients, action).contacts;
      var client := ClientOf(contacts, action).UnwrapOr(0);
      var held := PrimariesOf(contacts, client);
      PrimariesOf(after, client) ==
        match action
        case Create(_, id, wanted) => if wanted || held == {} then {id} else held
        case Update(id, primary) => if primary then {id} else held - {id}
        case Promote(id) => {id}
        case Delete(id) => held - {id}
        case Restore(id) => if contacts[id].primary && held == {} then {id} else held
  {
  }

  /** A row as it was, unless it lost the slot to another. */
  predicate Kept(before: Contact, after: Contact, demoted: bool) {
    after == if demoted then before.(primary := false) else before
  }

  /** When an action goes through, and what it does to the rows: its own becomes what was asked for, a
      claim of the slot takes the flag off the client's live primaries, and no other field moves. */
  lemma ActionLands(contacts: map<Id, Contact>, liveClients: set<Id>, action: Action)
    requires OnePrimary(contacts)
    ensures Perform(contacts, liveClients, action).Done? <==>
      match action
      case Create(client, id, _) => client in liveClients && id !in contacts
      case Restore(id) => id in contacts && contacts[id].deleted && contacts[id].client in liveClients
      case _ => action.id in contacts && !contacts[action.id].deleted
    ensures Perform(contacts, liveClients, action).Done? ==>
      var after := Perform(contacts, liveClients, action).contacts;
      && action.id in after && after.Keys == contacts.Keys + {action.id}
      && (forall o | o in contacts && o != action.id ::
            var claims := after[action.id].primary && !after[action.id].deleted;
            var held := contacts[o].client == after[action.id].client && contacts[o].primary && !contacts[o].deleted;
            Kept(contacts[o], after[o], claims && held))
      && match action
         case Create(client, id, wanted) =>
           && after[id].client == client && !after[id].deleted
           && (after[id].primary <==>
                 wanted || forall o | o in contacts ::
                   !(contacts[o].client == client && contacts[o].primary && !contacts[o].deleted))
         case Update(id, primary) => after[id] == contacts[id].(primary := primary)
         case Promote(id) => after[id] == contacts[id].(primary := true)
         case Delete(id) => after[id] == contacts[id].(deleted := true)
         case Restore(id) =>
           && after[id] == contacts[id].(deleted := false, primary := after[id].primary)
           && (after[id].primary <==>
                 contacts[id].primary && forall o | o in contacts ::
                   !(contacts[o].client == contacts[id].client && contacts[o].primary && !contacts[o].deleted))
  {
    ActionKeepsSlot(contacts, liveClients, action);
    match action
    case Create(client, _, _) => NobodyHolds(contacts, client);
    case Restore(id) =>
      if id in contacts { NobodyHolds(contacts, contacts[id].client); }
    case _ =>
  }

  lemma NobodyHolds(contacts: map<Id, Contact>, client: Id)
    ensures PrimariesOf(contacts, client) == {} <==>
      forall o | o in contacts ::
        !(contacts[o].client == client && contacts[o].primary && !contacts[o].deleted)
  {
    if PrimariesOf(contacts, client) == {} {
      forall o | o in contacts ensures !LivePrimary(contacts[o], client) {
        assert o !in PrimariesOf(contacts, client);
      }
    }
  }

  lemma HeldByOne(contacts: map<Id, Contact>, client: Id)
    requires OnePrimary(contacts)
    ensures |PrimariesOf(contacts, client)| <= 1
  {
    var held := PrimariesOf(contacts, client);
    if held != {} {
      var id :| id in held;
      assert held == {id};
    }
  }

  /** A successful creation ends with exactly one live primary for its client. */
  lemma CreateFillsSlot(contacts: map<Id, Contact>, liveClients: set<Id>, client: Id, id: Id, wanted: bool)
    requires OnePrimary(contacts)
    requires Perform(contacts, liveClients, Create(client, id, wanted)).Done?
    ensures |PrimariesOf(Perform(contacts, liveClients, Create(client, id, wanted)).contacts, client)| == 1
  {
    SlotAfter(contacts, liveClients, Create(client, id, wanted));
    HeldByOne(contacts, client);
  }

  /** A serial run, in which the set of live clients may change between actions. */
  function Run(contacts: map<Id, Contact>, actions: seq<(Action, set<Id>)>): map<Id, Contact>
    decreases |actions|
  {
    if actions == [] then contacts
    else
      var outcome := Perform(contacts, actions[0].1, actions[0].0);
      Run(if outcome.Done? then outcome.contacts else contacts, actions[1..])
  }

  lemma {:induction false} RunKeepsSlot(contacts: map<Id, Contact>, actions: seq<(Action, set<Id>)>, client: Id)
    requires OnePrimary(contacts)
    ensures OnePrimary(Run(contacts, actions))
    ensures |PrimariesOf(Run(contacts, actions), client)| <= 1
    decreases |actions|
  {
    HeldByOne(contacts, client);
    if actions != [] {
      ActionKeepsSlot(contacts, actions[0].1, actions[0].0);
      var outcome := Perform(contacts, actions[0].1, actions[0].0);
      RunKeepsSlot(if outcome.Done? then outcome.contacts else contacts, actions[1..], client);
    }
  }

  /** The contact actions as written, over the stored rows. */
  class ContactTable {
    var contacts: map<Id, Contact>
    var liveClients: set<Id>

    constructor (liveClients: set<Id>)
      ensures contacts == map[] && this.liveClients == liveClients
    {
      contacts, this.liveClients := map[], liveClients;
    }

    method DemotePrimaryContacts(client: Id, except: Option<Id>)
      modifies this`contacts
      ensures contacts == Demoted(old(contacts), client, except)
    {
      contacts := map id | id in contacts ::
        if LivePrimary(contacts[id], client) && except != Some(id) then contacts[id].(primary := false)
        else contacts[id];
    }

    method CreateClientContact(client: Id, id: Id, isPrimary: bool) returns (created: bool)
      requires OnePrimary(contacts) && id !in contacts
      modifies this`contacts
      ensures created <==> client in liveClients
      ensures created ==> Perform(old(contacts), liveClients, Create(client, id, isPrimary)) == Done(contacts)
      ensures !created ==> contacts == old(contacts)
      ensures OnePrimary(contacts) && (created ==> |PrimariesOf(contacts, client)| == 1)
    {
      ActionKeepsSlot(contacts, liveClients, Create(client, id, isPrimary));
      if client !in liveClients {
        return false;
      }
      CreateFillsSlot(contacts, liveClients, client, id, isPrimary);
      var primary := isPrimary || PrimariesOf(contacts, client) == {};
      if primary {
        DemotePrimaryContacts(client, None);
      }
      contacts := contacts[id := Contact(client, primary, false)];
      created := true;
    }

    method SetPrimaryClientContact(id: Id) returns (promoted: bool)
      requires OnePrimary(contacts)
      modifies this`contacts
      ensures promoted <==> LiveContact(old(contacts), id)
      ensures promoted ==> Perform(old(contacts), liveClients, Promote(id)) == Done(contacts)
      ensures !promoted ==> contacts == old(contacts)
      ensures OnePrimary(contacts)
    {
      ActionKeepsSlot(contacts, liveClients, Promote(id));
      if id !in contacts || contacts[id].deleted {
        return false;
      }
      DemotePrimaryContacts(contacts[id].client, Some(id));
      contacts := contacts[id := contacts[id].(primary := true)];
      promoted := true;
    }

    method UpdateClientContact(id: Id, isPrimary: bool) returns (updated: bool)
      requires OnePrimary(contacts)
      modifies this`contacts
      ensures updated <==> LiveContact(old(contacts), id)
      ensures updated ==> Perform(old(contacts), liveClients, Update(id, isPrimary)) == Done(contacts)
      ensures !updated ==> contacts == old(contacts)
      ensures OnePrimary(contacts)
    {
      ActionKeepsSlot(contacts, liveClients, Update(id, isPrimary));
      if id !in contacts || contacts[id].deleted {
        return false;
      }
      if isPrimary {
        DemotePrimaryContacts(contacts[id].client, Some(id));
      }
      contacts := contacts[id := contacts[id].(primary := isPrimary)];
      updated := true;
    }

    method SoftDeleteClientContact(id: Id) returns (deleted: bool)
      requires OnePrimary(contacts)
      modifies this`contacts
      ensures deleted <==> LiveContact(old(contacts), id)
      ensures deleted ==> Perform(old(contacts), liveClients, Delete(id)) == Done(contacts)
      ensures deleted ==> contacts == old(contacts)[id := old(contacts)[id].(deleted := true)]
      ensures !deleted ==> contacts == old(contacts)
      ensures OnePrimary(contacts)
    {
      ActionKeepsSlot(contacts, liveClients, Delete(id));
      if id !in contacts || contacts[id].deleted {
        return false;
      }
      contacts := contacts[id := contacts[id].(deleted := true)];
      deleted := true;
    }

    method RestoreClientContact(id: Id) returns (restored: bool)
      requires OnePrimary(contacts)
      modifies this`contacts
      ensures restored <==> Perform(old(contacts), liveClients, Restore(id)).Done?
      ensures restored ==> Perform(old(contacts), liveClients, Restore(id)) == Done(contacts)
      ensures !restored ==> contacts == old(contacts)
      ensures OnePrimary(contacts)
    {
      ActionKeepsSlot(contacts, liveClients, Restore(id));
      if id !in contacts || !contacts[id].deleted || contacts[id].client !in liveClients {
        return false;
      }
      var existing := contacts[id];
      var primaryTaken := existing.primary && PrimariesOf(contacts, existing.client) != {};
      contacts := contacts[id := existing.(deleted := false, primary := existing.primary && !primaryTaken)];
      restored := true;
    }
  }
}
