/** The in-memory event log (repo/memory/event_repo.go): one record per aggregate identity
    holding that aggregate's event stream in append order. */
module MemoryEventRepo {
  import opened Wrappers
  import opened DomainCommands
  import opened Events

  datatype AggregateRecord = AggregateRecord(identity: string, aType: AggregateType, events: seq<Event>)

  type EventDb = map<string, AggregateRecord>

  const EmptySave := Msg("save events are empty")

  /** What `Save(events)` makes of the database: an empty batch is refused; otherwise the batch
      is filed under the identity of its FIRST event (later events' identities are not looked
      at), starting a record or appending to the existing one. */
  function SaveEvents(db: EventDb, events: seq<Event>): Result<EventDb>
  {
    if events == [] then Err(EmptySave)
    else
      var id := events[0].aggregateId;
      if id !in db then Ok(db[id := AggregateRecord(id, events[0].aggregateType, events)])
      else Ok(db[id := db[id].(events := db[id].events + events)])
  }

  /** What `Load(id)` answers: the stored stream, or `ErrAggregateNotFound`. */
  function StreamOf(db: EventDb, id: string): Result<seq<Event>>
  {
    if id in db then Ok(db[id].events) else Err(AggregateNotFound)
  }

  /** The stored stream of an identity, empty when there is none. */
  function EventsOf(db: EventDb, id: string): seq<Event>
  {
    if id in db then db[id].events else []
  }

  /** A save refuses an empty batch and otherwise appends the batch to the stream of its first
      event's identity, leaving every other identity's stream as it was. */
  lemma SaveEventsEffect(db: EventDb, events: seq<Event>, other: string)
    ensures SaveEvents(db, events).Err? <==> events == []
    ensures events != [] ==>
      var db' := SaveEvents(db, events).value;
      var id := events[0].aggregateId;
      && StreamOf(db', id) == Ok(EventsOf(db, id) + events)
      && (other != id ==> StreamOf(db', other) == StreamOf(db, other))
  {
    if events != [] {
      var id := events[0].aggregateId;
      var db' := SaveEvents(db, events).value;
      assert id in db' && db'[id].events == EventsOf(db, id) + events;
    }
  }

  /** Saving several batches one after another, each stopping at the first refused batch. */
  function SaveAll(db: EventDb, batches: seq<seq<Event>>): Result<EventDb>
    decreases |batches|
  {
    if batches == [] then Ok(db)
    else match SaveEvents(db, batches[0])
      case Err(e) => Err(e)
      case Ok(db1) => SaveAll(db1, batches[1..])
  }

  function Concat(batches: seq<seq<Event>>): seq<Event>
    decreases |batches|
  {
    if batches == [] then [] else batches[0] + Concat(batches[1..])
  }

  /** Successive non-empty saves for one identity make its stream the stored stream followed by
      all the batches, in save order; other identities are untouched. */
  lemma {:induction false} SaveAllConcatenates(db: EventDb, batches: seq<seq<Event>>, id: string, other: string)
    requires forall i :: 0 <= i < |batches| ==> batches[i] != [] && batches[i][0].aggregateId == id
    requires other != id
    ensures SaveAll(db, batches).Ok?
    ensures StreamOf(SaveAll(db, batches).value, other) == StreamOf(db, other)
    ensures batches != [] ==> StreamOf(SaveAll(db, batches).value, id) == Ok(EventsOf(db, id) + Concat(batches))
    decreases |batches|
  {
    if batches != [] {
      SaveEventsEffect(db, batches[0], other);
      var db1 := SaveEvents(db, batches[0]).value;
      assert SaveAll(db, batches) == SaveAll(db1, batches[1..]);
      SaveAllConcatenates(db1, batches[1..], id, other);
      assert EventsOf(db1, id) == EventsOf(db, id) + batches[0];
      if batches[1..] != [] {
        assert EventsOf(db, id) + batches[0] + Concat(batches[1..]) == EventsOf(db, id) + Concat(batches);
      } else {
        assert Concat(batches) == batches[0] + Concat([]);
        assert batches[0] + [] == batches[0];
        assert SaveAll(db1, batches[1..]) == Ok(db1);
      }
    }
  }

  class AggregateEventRepo {
    var db: EventDb

    /** `NewAggregateEventRepo`. */
    constructor ()
      ensures db == map[]
    {
      db := map[];
    }

    method Save(events: seq<Event>) returns (o: Outcome)
      modifies this
      ensures SaveEvents(old(db), events).Ok? ==> o == Pass && db == SaveEvents(old(db), events).value
      ensures SaveEvents(old(db), events).Err? ==> o == Fail(SaveEvents(old(db), events).error) && db == old(db)
    {
      if |events| == 0 {
        return Fail(EmptySave);
      }
      var id := events[0].aggregateId;
      var at := events[0].aggregateType;
      if id !in db {
        db := db[id := AggregateRecord(id, at, events)];
      } else {
        var ar := db[id];
        db := db[id := ar.(events := ar.events + events)];
      }
      o := Pass;
    }

    /** `Load(id)`: a copy of the stored stream, element by element in the same order, or
        `ErrAggregateNotFound` for an unknown identity. */
    method Load(id: string) returns (r: Result<seq<Event>>)
      ensures r == StreamOf(db, id)
    {
      if id !in db {
        return Err(AggregateNotFound);
      }
      var stored := db[id].events;
      var events: seq<Event> := [];
      var i := 0;
      while i < |stored|
        invariant 0 <= i <= |stored|
        invariant events == stored[..i]
      {
        events := events + [stored[i]];
        i := i + 1;
      }
      assert stored[..|stored|] == stored;
      r := Ok(events);
    }
  }
}
