/** The snapshot aggregate store (aggregatestore/agg_model_store.go): the latest aggregate
    object itself is kept in an entity repository. */
module SnapshotStore {
  import opened Wrappers
  import opened DomainCommands
  import opened AggregateRuntime
  import opened Aggregates
  import opened MemoryModelRepo

  const InvalidAggregate := Msg("[evol] Load Aggregate: invalid aggregate")

  /** What `Load` answers for a stored entity: the aggregate itself, or the invalid-aggregate
      error for an entity that is not an aggregate. */
  function FromEntity(e: Entity): (r: Result<Aggregate>)
    ensures r.Ok? <==> e.AggregateEntity?
    ensures r.Ok? ==> r.value == e.agg
    ensures r.Err? ==> r.error == InvalidAggregate
  {
    match e
    case AggregateEntity(a) => Ok(a)
    case PlainEntity(_) => Err(InvalidAggregate)
  }

  class AggregateModelStore {
    const repo: ModelRepo

    constructor (repo: ModelRepo)
      ensures this.repo == repo
    {
      this.repo := repo;
    }

    /** `Load(aggregateType, identity)`: a stored entity is returned as found (the aggregate
        type asked for is not compared with it); when the repository reports not-found a new
        aggregate is created, and its error, if any, returned; any other repository error is
        returned as is. */
    method Load(registry: AggregateRegistry<Factory>, aggregateType: AggregateType, identity: string)
      returns (r: Result<Aggregate>)
      ensures repo.Find(identity).Ok? ==> r == FromEntity(repo.Find(identity).value)
      ensures repo.Find(identity).Err? && !IsAggregateNotFound(repo.Find(identity).error) ==>
        r == Err(repo.Find(identity).error)
      ensures repo.Find(identity).Err? && IsAggregateNotFound(repo.Find(identity).error) ==>
        && (r.Ok? <==> aggregateType in registry.factories)
        && (r.Err? ==> r.error == Msg("[evol] CreateAggregate aggregate not registered"))
        && (r.Ok? ==>
              var f := registry.factories[aggregateType];
              && fresh(r.value.Repr())
              && r.value.EntityIdentity() == identity && r.value.TypeName() == FactoryType(f)
              && r.value.DomainEvents() == [] && r.value.State() == BlankState(f, identity))
    {
      var entity := repo.Find(identity);
      match entity {
        case Ok(e) =>
          r := FromEntity(e);
        case Err(err) =>
          if IsAggregateNotFound(err) {
            r := CreateAggregate(registry, aggregateType, identity);
          } else {
            r := Err(err);
          }
      }
    }

    /** `Save(aggregate)`: handed to the repository unconditionally, with no version check; the
        repository's outcome is returned. */
    method Save(aggregate: Aggregate) returns (o: Outcome)
      modifies repo
      ensures aggregate.EntityIdentity() == "" ==> o == Fail(MissingIdentity) && repo.db == old(repo.db)
      ensures aggregate.EntityIdentity() != "" ==>
        o == Pass && repo.db == old(repo.db)[aggregate.EntityIdentity() := AggregateEntity(aggregate)]
    {
      o := repo.Save(AggregateEntity(aggregate));
    }
  }
}
