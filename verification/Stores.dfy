/** The in-memory store: a dictionary of live intents and a ledger
    (src/control_plane/store.py, src/control_plane/state.py). It keeps the very objects
    the plane mutates, so a change shows before it is saved. */
module Stores {
  import opened Actions
  import opened Policy
  import opened Machine
  import opened Plane

  /** An intent as the plane holds it. `reason` and `created_at` are not modelled. */
  class Intent {
    const id: Id
    var action: CreatePix
    var context: Context
    var state: State
    var token: Option<Id>
    var issuedAt: Option<Instant>
    var digest: Option<Digest>
    var confirmedAt: Option<Instant>
    var confirmedBy: Option<string>
    var receipt: Option<Receipt>

    constructor (id: Id, action: CreatePix, context: Context)
      ensures Row() == NewRow(id, action, context)
      ensures this.id == id
    {
      this.id := id;
      this.action := action;
      this.context := context;
      this.state := Created;
      this.token := None;
      this.issuedAt := None;
      this.digest := None;
      this.confirmedAt := None;
      this.confirmedBy := None;
      this.receipt := None;
    }

    function Row(): Machine.Row
      reads this
    {
      Machine.Row(id, action, context, state, token, issuedAt, digest, confirmedAt, confirmedBy, receipt)
    }
  }

  ghost predicate NoRepeats(order: seq<Id>) {
    forall i, j | 0 <= i < j < |order| :: order[i] != order[j]
  }

  lemma InStateFrom(order: seq<Id>, i: nat, rows: map<Id, Row>, s: State)
    requires i < |order| && order[i] in rows
    ensures InState(order[i..], rows, s)
        == (if rows[order[i]].state == s then [rows[order[i]]] else []) + InState(order[i + 1..], rows, s)
  {
    assert order[i..][0] == order[i] && order[i..][1..] == order[i + 1..];
  }

  lemma InStateEnd(order: seq<Id>, rows: map<Id, Row>, s: State)
    ensures InState(order[|order|..], rows, s) == []
  {
  }

  class MemoryStore {
    var intents: map<Id, Intent>
    var order: seq<Id>
    var events: seq<Event>

    ghost predicate Valid()
      reads `intents, `order
    {
      && (forall i | i in intents :: intents[i].id == i)
      && (forall k | 0 <= k < |order| :: order[k] in intents)
      && NoRepeats(order)
    }

    ghost predicate Holds(intent: Intent)
      reads `intents
    {
      intent.id in intents && intents[intent.id] == intent
    }

    /** What a reader of the store sees now, saved or not. */
    ghost function Rows(): map<Id, Row>
      reads `intents, intents.Values
    {
      map i | i in intents :: intents[i].Row()
    }

    /** A change to one live intent shows under its id and nowhere else. */
    twostate lemma ShowsAtOnce(intent: Intent)
      requires old(Valid()) && old(Holds(intent)) && intents == old(intents)
      requires forall i | i in intents && i != intent.id :: unchanged(intents[i])
      ensures Rows() == old(Rows())[intent.id := intent.Row()]
    {
      forall i | i in intents && i != intent.id
        ensures Rows()[i] == old(Rows())[i]
      {
      }
    }

    constructor ()
      ensures Valid() && intents == map[] && order == [] && events == []
    {
      intents := map[];
      order := [];
      events := [];
    }

    method Get(id: Id) returns (found: Option<Intent>)
      requires Valid()
      ensures found == if id in intents then Some(intents[id]) else None
    {
      if id in intents {
        return Some(intents[id]);
      }
      return None;
    }

    /** The scan over the dictionary's values, in insertion order. */
    method ByConfirmation(token: Id) returns (found: Option<Intent>)
      requires Valid()
      ensures found.None? ==> ScanForToken(order, Rows(), token).None?
      ensures found.Some? ==>
        && Holds(found.value) && found.value.token == Some(token)
        && ScanForToken(order, Rows(), token) == Some(found.value.Row())
    {
      hide NoRepeats;
      var i := 0;
      assert order[0..] == order;
      while i < |order|
        invariant 0 <= i <= |order|
        invariant ScanForToken(order, Rows(), token) == ScanForToken(order[i..], Rows(), token)
      {
        var intent := intents[order[i]];
        assert order[i..][0] == order[i] && order[i..][1..] == order[i + 1..];
        if intent.token == Some(token) {
          return Some(intent);
        }
        i := i + 1;
      }
      return None;
    }

    /** Every intent in one state, in insertion order. */
    method Unsettled(state: State) returns (found: seq<Intent>)
      requires Valid()
      ensures forall k | 0 <= k < |found| :: Holds(found[k])
      ensures |found| == |InState(order, Rows(), state)|
      ensures forall k | 0 <= k < |found| :: found[k].Row() == InState(order, Rows(), state)[k]
    {
      hide NoRepeats, InState;
      found := [];
      var i := 0;
      ghost var stored, rows: seq<Row> := Rows(), [];
      assert order[0..] == order;
      while i < |order|
        invariant 0 <= i <= |order|
        invariant |found| == |rows|
        invariant forall intent | intent in found :: Holds(intent)
        invariant forall k | 0 <= k < |found| :: found[k].Row() == rows[k]
        invariant InState(order, stored, state) == rows + InState(order[i..], stored, state)
      {
        var intent := intents[order[i]];
        InStateFrom(order, i, stored, state);
        if intent.state == state {
          found, rows := found + [intent], rows + [stored[order[i]]];
        }
        i := i + 1;
      }
      InStateEnd(order, stored, state);
      assert InState(order, stored, state) == rows;
    }

    method Put(intent: Intent)
      requires Valid()
      modifies `intents, `order
      ensures Valid() && Holds(intent)
      ensures intents == old(intents)[intent.id := intent]
      ensures order == if intent.id in old(intents) then old(order) else old(order) + [intent.id]
      ensures Rows() == old(Rows())[intent.id := intent.Row()]
    {
      if intent.id !in intents {
        order := order + [intent.id];
      }
      intents := intents[intent.id := intent];
    }

    method Append(id: Id, entry: Entry)
      modifies `events
      ensures events == old(events) + [Event(id, entry)]
    {
      events := events + [Event(id, entry)];
    }

    method EventsFor(id: Id) returns (trail: seq<Entry>)
      ensures trail == Trail(events, id)
    {
      trail := [];
      var i := 0;
      while i < |events|
        invariant 0 <= i <= |events|
        invariant trail == Trail(events[..i], id)
      {
        assert events[..i + 1] == events[..i] + [events[i]];
        TrailAppend(events[..i], events[i], id);
        if events[i].id == id {
          trail := trail + [events[i].entry];
        }
        i := i + 1;
      }
      assert events[..i] == events;
    }
  }

  /** One edge of the table, or a refusal; the record of it is appended before the field is
      assigned. */
  method TakeEdge(intent: Intent, hop: Hop, token: Option<Id>, digest: Option<Digest>, store: MemoryStore)
    returns (moved: bool)
    modifies intent`state, store`events
    ensures moved <==> CanMove(old(intent.Row()), hop)
    ensures moved ==>
      && intent.Row() == Moved(old(intent.Row()), hop)
      && store.events
          == old(store.events) + [Event(intent.id, Transition(old(intent.state), hop, intent.state, token, digest))]
    ensures !moved ==>
      && intent.state == old(intent.state)
      && store.events == old(store.events) + [Event(intent.id, TransitionRefused(intent.state, hop))]
  {
    var target := Target(intent.state, hop);
    if target.None? {
      store.Append(intent.id, TransitionRefused(intent.state, hop));
      return false;
    }
    store.Append(intent.id, Transition(intent.state, hop, target.value, token, digest));
    intent.state := target.value;
    return true;
  }
}
