/** The replaying aggregate store (aggregatestore/agg_event_store.go): an aggregate is kept as
    its event stream and rebuilt on load by applying the stream, in order, to a blank aggregate. */
module EventSourcedStore {
  import opened Wrappers
  import opened DomainCommands
  import opened DomainMock
  import opened Events
  import opened AggregateRuntime
  import opened Aggregates
  import opened MemoryEventRepo

  const TypeMismatch := Msg("[evol] aggeventrepo applyEvents aggregateType not match")

  function ApplyFailed(cause: Error): Error
  {
    Wrap("[evol] aggeventrepo applyEvents apply codec error", cause)
  }

  /** `applyEvents`: a left fold of `HandleSourcingEvent` over the stream that stops at the first
      event tagged with another aggregate type, or at the first event that fails to apply. */
  function Replay(s: Snapshot, aType: AggregateType, events: seq<Event>): (r: (Snapshot, Outcome))
    ensures r.0.OrderSnap? == s.OrderSnap? && r.0.StockSnap? == s.StockSnap?
    decreases |events|
  {
    if events == [] then (s, Pass)
    else if events[0].aggregateType != aType then (s, Fail(TypeMismatch))
    else
      var (s1, o) := ApplyEvent(s, events[0]);
      if o.Fail? then (s1, Fail(ApplyFailed(o.error)))
      else Replay(s1, aType, events[1..])
  }

  /** Replaying a concatenation replays the first part and, if that passed, the second part from
      where the first left off. */
  lemma {:induction false} ReplayAppend(s: Snapshot, aType: AggregateType, a: seq<Event>, b: seq<Event>)
    ensures Replay(s, aType, a + b) ==
      (var (s1, o) := Replay(s, aType, a); if o.Fail? then (s1, o) else Replay(s1, aType, b))
    decreases |a|
  {
    if a == [] {
      assert a + b == b;
    } else {
      assert (a + b)[0] == a[0];
      assert (a + b)[1..] == a[1..] + b;
      if a[0].aggregateType == aType {
        var (s1, o) := ApplyEvent(s, a[0]);
        if o.Pass? {
          ReplayAppend(s1, aType, a[1..], b);
        }
      }
    }
  }

  /** An event of another aggregate type stops the replay with the mismatch error: whatever
      follows it is not applied. */
  lemma {:induction false} ReplayStopsAtForeignEvent(s: Snapshot, aType: AggregateType, a: seq<Event>, e: Event, rest: seq<Event>)
    requires e.aggregateType != aType
    requires Replay(s, aType, a).1.Pass?
    ensures Replay(s, aType, a + [e] + rest) == (Replay(s, aType, a).0, Fail(TypeMismatch))
  {
    ReplayAppend(s, aType, a, [e] + rest);
    assert a + [e] + rest == a + ([e] + rest);
  }

  /** Which outcome `Load` reaches once the blank aggregate exists: a repository error other
      than not-found is returned as is; not-found counts as an empty stream; otherwise the
      replay's outcome decides. */
  function LoadResult(blank: Snapshot, aType: AggregateType, answer: Result<seq<Event>>): Result<Snapshot>
  {
    if answer.Err? && !IsAggregateNotFound(answer.error) then Err(answer.error)
    else
      var events := if answer.Ok? then answer.value else [];
      var (s, o) := Replay(blank, aType, events);
      if o.Fail? then Err(o.error) else Ok(s)
  }

  /** Not-found from the repository and an empty stream load the same: the blank state. */
  lemma NotFoundIsEmpty(blank: Snapshot, aType: AggregateType, e: Error)
    requires IsAggregateNotFound(e)
    ensures LoadResult(blank, aType, Err(e)) == LoadResult(blank, aType, Ok([])) == Ok(blank)
  {
  }

  /** The live state after a command equals the state obtained by replaying the events the
      command published, for the order and payment aggregates: what `Save` stores is enough for
      `Load` to rebuild the aggregate. */
  lemma {:induction false} ReplayReproducesCommand(s: Snapshot, cmd: Command, aType: AggregateType, id: string, env: Env)
    requires s.OrderSnap? || s.PaymentSnap?
    ensures Replay(s, aType, CommandEvents(s, cmd, aType, id, env)) == (HandleCommandState(s, cmd, aType, id, env), Pass)
  {
    var es := CommandEvents(s, cmd, aType, id, env);
    if es != [] {
      assert es[1..] == [];
    }
  }

  /** The stock aggregate is the exception: its command first overwrites `Quantity` with the
      mock stock level, which no event records, so a replay from quantity `q` ends `q - count`
      where the live aggregate ended at `level - count`. */
  lemma {:induction false} StockReplayDiffers(s: Snapshot, cmd: Command, aType: AggregateType, id: string, env: Env)
    requires s.StockSnap? && cmd.MakeReservationCmd?
    requires StockOf(env, s.stock.productId) >= cmd.count
    ensures Replay(s, aType, CommandEvents(s, cmd, aType, id, env)) ==
      (StockSnap(s.stock.(quantity := s.stock.quantity - cmd.count)), Pass)
    ensures HandleCommandState(s, cmd, aType, id, env).stock.quantity == StockOf(env, s.stock.productId) - cmd.count
  {
    var es := CommandEvents(s, cmd, aType, id, env);
    assert es[1..] == [];
  }

  class AggregateEventStore {
    const repo: AggregateEventRepo

    /** `NewAggregateEventStore(repo)`. */
    constructor (repo: AggregateEventRepo)
      ensures this.repo == repo
    {
      this.repo := repo;
    }

    /** `applyEvents`: the aggregate is changed exactly as `Replay` says, its pending events
        untouched. */
    method ApplyEvents(agg: Aggregate, events: seq<Event>) returns (o: Outcome)
      modifies agg.Repr() - {agg.Base()}
      ensures (agg.State(), o) == Replay(old(agg.State()), agg.TypeName(), events)
    {
      var i := 0;
      while i < |events|
        invariant 0 <= i <= |events|
        invariant Replay(old(agg.State()), agg.TypeName(), events) == Replay(agg.State(), agg.TypeName(), events[i..])
      {
        var event := events[i];
        assert events[i..][0] == event && events[i..][1..] == events[i + 1..];
        if event.aggregateType != agg.TypeName() {
          return Fail(TypeMismatch);
        }
        var err := HandleSourcingEvent(agg, event);
        if err.Fail? {
          return Fail(ApplyFailed(err.error));
        }
        i := i + 1;
      }
      o := Pass;
    }

    /** `Load(aggregateType, identity)`: an unregistered type fails with the `CreateAggregate`
        error before the repository is read; otherwise the new blank aggregate is rebuilt from
        the repository's answer as `LoadResult` says, and no aggregate is returned on error. */
    method Load(registry: AggregateRegistry<Factory>, aggregateType: AggregateType, identity: string)
      returns (r: Result<Aggregate>)
      ensures aggregateType !in registry.factories ==> r == Err(Msg("[evol] CreateAggregate aggregate not registered"))
      ensures aggregateType in registry.factories ==>
        var f := registry.factories[aggregateType];
        var want := LoadResult(BlankState(f, identity), FactoryType(f), StreamOf(repo.db, identity));
        && (r.Ok? <==> want.Ok?)
        && (r.Err? ==> r.error == want.error)
        && (r.Ok? ==>
              && fresh(r.value.Repr())
              && r.value.EntityIdentity() == identity && r.value.TypeName() == FactoryType(f)
              && r.value.DomainEvents() == [] && r.value.State() == want.value)
    {
      var created := CreateAggregate(registry, aggregateType, identity);
      if created.Err? {
        return Err(created.error);
      }
      var agg := created.value;
      var answer := repo.Load(agg.EntityIdentity());
      var events: seq<Event> := [];
      match answer {
        case Ok(stored) =>
          events := stored;
        case Err(err) =>
          if !IsAggregateNotFound(err) {
            return Err(err);
          }
      }
      var err := ApplyEvents(agg, events);
      if err.Fail? {
        return Err(err.error);
      }
      r := Ok(agg);
    }

    /** `Save(agg)`: exactly the aggregate's pending events go to the repository, whose outcome
        is returned; the pending list itself is not cleared. */
    method Save(agg: Aggregate) returns (o: Outcome)
      modifies repo
      ensures var want := SaveEvents(old(repo.db), agg.DomainEvents());
        && (want.Ok? ==> o == Pass && repo.db == want.value)
        && (want.Err? ==> o == Fail(want.error) && repo.db == old(repo.db))
    {
      o := repo.Save(agg.DomainEvents());
    }
  }
}
