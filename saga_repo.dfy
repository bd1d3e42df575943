/** The in-memory saga repository (saga/repo.go): sagas by their identity. No operation can
    fail. */
module MemorySagaRepo {
  import opened Wrappers
  import opened SagaHandlers

  type SagaDb = map<string, SagaHandler>

  /** `Load(identity)`: the stored saga, or nil. */
  function LoadOf(db: SagaDb, identity: string): (r: Option<SagaHandler>)
  {
    if identity in db then Some(db[identity]) else None
  }

  /** `Save(h)`: stored under its own identity, replacing what was there. */
  function Saved(db: SagaDb, h: SagaHandler): SagaDb
  {
    db[h.SagaIdentity() := h]
  }

  /** `Delete(identity)`: the identity is gone, present or not. */
  function Deleted(db: SagaDb, identity: string): SagaDb
  {
    db - {identity}
  }

  /** After `Save(h)`, loading `h`'s identity gives `h` (the last save wins) and every other
      identity loads what it loaded before. */
  lemma LoadAfterSave(db: SagaDb, h: SagaHandler, identity: string)
    ensures LoadOf(Saved(db, h), h.SagaIdentity()) == Some(h)
    ensures identity != h.SagaIdentity() ==> LoadOf(Saved(db, h), identity) == LoadOf(db, identity)
  {
  }

  /** After `Delete(identity)` the identity loads nil and every other identity loads what it
      loaded before; deleting an absent identity changes nothing. */
  lemma LoadAfterDelete(db: SagaDb, identity: string, other: string)
    ensures LoadOf(Deleted(db, identity), identity) == None
    ensures other != identity ==> LoadOf(Deleted(db, identity), other) == LoadOf(db, other)
    ensures identity !in db ==> Deleted(db, identity) == db
  {
  }

  class SagaRepo {
    var sagas: SagaDb

    /** `NewMemorySagaRepo`. */
    constructor ()
      ensures sagas == map[]
    {
      sagas := map[];
    }

    function Load(identity: string): (r: Option<SagaHandler>)
      reads this
      ensures r == LoadOf(sagas, identity)
    {
      if identity in sagas then Some(sagas[identity]) else None
    }

    method Save(h: SagaHandler) returns (o: Outcome)
      modifies this
      ensures o == Pass && sagas == Saved(old(sagas), h)
    {
      sagas := sagas[h.SagaIdentity() := h];
      o := Pass;
    }

    method Delete(identity: string) returns (o: Outcome)
      modifies this
      ensures o == Pass && sagas == Deleted(old(sagas), identity)
    {
      sagas := sagas - {identity};
      o := Pass;
    }
  }
}
