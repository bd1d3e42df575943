/** The in-memory entity store (repo/memory/model_repo.go): the latest entity per identity. */
module MemoryModelRepo {
  import opened Wrappers
  import opened Aggregates

  /** The `evol.Entity` values the store can hold: an aggregate, or any other entity known only
      by its identity. */
  datatype Entity =
    | AggregateEntity(agg: Aggregate)
    | PlainEntity(identity: string)
  {
    function EntityIdentity(): string
    {
      match this
      case AggregateEntity(a) => a.EntityIdentity()
      case PlainEntity(id) => id
    }
  }

  type ModelDb = map<string, Entity>

  const MissingIdentity := Msg("missing entity identity")
  const NoSuchEntity := Msg("no such entity")

  /** Every entity is filed under its own identity, which `Save` maintains. */
  ghost predicate Keyed(db: ModelDb)
  {
    forall k :: k in db ==> db[k].EntityIdentity() == k
  }

  class ModelRepo {
    var db: ModelDb

    constructor ()
      ensures db == map[]
    {
      db := map[];
    }

    /** `Find(id)`: the entity last saved under `id`, or `ErrAggregateNotFound`. */
    function Find(id: string): (r: Result<Entity>)
      reads this
      ensures r.Ok? <==> id in db
      ensures r.Ok? ==> r.value == db[id]
      ensures r.Err? ==> r.error == AggregateNotFound
    {
      if id in db then Ok(db[id]) else Err(AggregateNotFound)
    }

    /** `FindAll`: every stored entity exactly once, in no particular order. The ghost `order`
        is the key order the map iteration took: slot `i` holds the entity of key `order[i]`,
        and every key has exactly one slot. */
    method FindAll() returns (res: seq<Entity>, ghost order: seq<string>)
      ensures |res| == |order| == |db|
      ensures forall i :: 0 <= i < |order| ==> order[i] in db && res[i] == db[order[i]]
      ensures forall i, j :: 0 <= i < j < |order| ==> order[i] != order[j]
      ensures forall k :: k in db ==> k in order
      ensures forall e :: e in res ==> exists k :: k in db && db[k] == e
      ensures forall k :: k in db ==> db[k] in res
    {
      var keys := db.Keys;
      res := [];
      order := [];
      while keys != {}
        invariant keys <= db.Keys
        invariant |res| == |order|
        invariant |order| + |keys| == |db.Keys|
        invariant forall i :: 0 <= i < |order| ==> order[i] in db && order[i] !in keys && res[i] == db[order[i]]
        invariant forall i, j :: 0 <= i < j < |order| ==> order[i] != order[j]
        invariant forall k :: k in db.Keys - keys ==> k in order
        decreases |keys|
      {
        var k :| k in keys;
        res := res + [db[k]];
        order := order + [k];
        keys := keys - {k};
      }
      assert db.Keys - keys == db.Keys;
      forall e | e in res
        ensures exists k :: k in db && db[k] == e
      {
        var i :| 0 <= i < |res| && res[i] == e;
        assert order[i] in db && db[order[i]] == e;
      }
      forall k | k in db
        ensures db[k] in res
      {
        var i :| 0 <= i < |order| && order[i] == k;
        assert res[i] == db[k];
      }
    }

    /** `Save(entity)`: refused when the identity is empty, otherwise the entity replaces
        whatever was stored under its identity. */
    method Save(entity: Entity) returns (o: Outcome)
      modifies this
      ensures entity.EntityIdentity() == "" ==> o == Fail(MissingIdentity) && db == old(db)
      ensures entity.EntityIdentity() != "" ==> o == Pass && db == old(db)[entity.EntityIdentity() := entity]
      ensures Keyed(old(db)) ==> Keyed(db)
    {
      var id := entity.EntityIdentity();
      if id == "" {
        return Fail(MissingIdentity);
      }
      db := db[id := entity];
      o := Pass;
    }

    /** `Remove(id)`: the identity is deleted if present, and the "no such entity" error is
        returned whether or not anything was deleted. */
    method Remove(id: string) returns (o: Outcome)
      modifies this
      ensures db == old(db) - {id}
      ensures o == Fail(NoSuchEntity)
      ensures Keyed(old(db)) ==> Keyed(db)
    {
      if id in db {
        db := db - {id};
      }
      o := Fail(NoSuchEntity);
    }
  }
}
