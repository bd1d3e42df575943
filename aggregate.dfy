/** The aggregate runtime (aggregate.go): the process-wide registry of aggregate factories and
    the base every aggregate embeds, which holds the identity, the type and the pending events. */
module AggregateRuntime {
  import opened Wrappers
  import opened DomainEvents
  import opened DomainCommands
  import opened Events

  /** The `aggFactories` map, one factory per aggregate type. A Go factory is a closure that
      allocates an aggregate; a Dafny function cannot allocate, so the registry is generic in
      the factory value and the caller builds the aggregate from it. */
  class AggregateRegistry<F> {
    var factories: map<AggregateType, F>

    constructor ()
      ensures factories == map[]
    {
      factories := map[];
    }

    /** `RegisterAggregate`: a duplicate type panics and leaves the registry as it was;
        a new type is added and nothing else changes. */
    method RegisterAggregate(aggregateType: AggregateType, factory: F) returns (o: Outcome)
      modifies this
      ensures aggregateType in old(factories) ==>
        o == Fail(Panic("[evol] RegisterAggregate register duplicated aggregate")) &&
        factories == old(factories)
      ensures aggregateType !in old(factories) ==>
        o == Pass && factories == old(factories)[aggregateType := factory]
    {
      if aggregateType in factories {
        return Fail(Panic("[evol] RegisterAggregate register duplicated aggregate"));
      }
      factories := factories[aggregateType := factory];
      o := Pass;
    }

    /** The factory lookup of `CreateAggregate`: the registered factory, or the
        not-registered error. */
    function Lookup(aggregateType: AggregateType): (r: Result<F>)
      reads this
      ensures r.Ok? <==> aggregateType in factories
      ensures r.Ok? ==> r.value == factories[aggregateType]
      ensures r.Err? ==> r.error == Msg("[evol] CreateAggregate aggregate not registered")
    {
      if aggregateType in factories then Ok(factories[aggregateType])
      else Err(Msg("[evol] CreateAggregate aggregate not registered"))
    }
  }

  /** `BaseAggregate`: identity and type never change after construction; `events` is the
      list of pending events, those published but not yet saved. */
  class BaseAggregate {
    const identity: string
    const aType: AggregateType
    var events: seq<Event>

    /** `NewBaseAggregate(aggregateType, identity)`. */
    constructor (aggregateType: AggregateType, identity: string)
      ensures this.identity == identity && aType == aggregateType && events == []
    {
      this.identity := identity;
      aType := aggregateType;
      events := [];
    }

    function EntityIdentity(): string
    {
      identity
    }

    function DomainEvents(): seq<Event>
      reads this
    {
      events
    }

    /** The base part of `PublishEvent`: the event is built from the given topic, data,
        timestamp and options with this aggregate's `ForAggregate` appended last, and is
        appended to the pending list. The synchronous self-apply that follows in the source
        is done by each concrete aggregate, which owns the state it changes. */
    method PublishEvent(topic: Topic, data: Payload, timestamp: Time, options: seq<EventOption>)
      returns (e: Event)
      modifies this
      ensures e == NewEvent(topic, data, timestamp, options + [ForAggregate(aType, identity)])
      ensures e == Event(topic, data, aType, identity, timestamp)
      ensures events == old(events) + [e]
    {
      e := NewEvent(topic, data, timestamp, options + [ForAggregate(aType, identity)]);
      NewEventAppendedTag(topic, data, timestamp, options, aType, identity);
      events := events + [e];
    }
  }
}
