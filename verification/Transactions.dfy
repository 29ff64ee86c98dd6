/** A write: the tables it changes in place, and the reads and the deletion
    every part of the store shares. */
module Transactions {
  import opened Wrappers
  import opened Media
  import opened Tables
  import opened Claims

  /** The open database under one write; abandoning the write puts back the
      tables it began with. */
  class Tx {
    var db: Db

    constructor ()
      ensures db == EmptyDb()
    {
      db := EmptyDb();
    }

    /** The write is abandoned. */
    method Rollback(began: Db)
      modifies this
      ensures db == began
    {
      db := began;
    }

    /** Whether a scan of the intents under an instance meets one. */
    method IsPinned(id: InstId) returns (pinned: bool)
      ensures pinned <==> Pinned(db.intents, id)
    {
      pinned := false;
      var rest := db.intents.Keys;
      while rest != {} && !pinned
        invariant rest <= db.intents.Keys
        invariant pinned ==> Pinned(db.intents, id)
        invariant forall fk | fk in db.intents && fk.inst == id :: pinned || fk in rest
        decreases |rest|
      {
        var fk :| fk in rest;
        pinned := fk.inst == id;
        rest := rest - {fk};
      }
    }

    method CheckUnpinned(id: InstId) returns (e: Outcome<StoreError>)
      ensures e == if Pinned(db.intents, id) then Fail(PinnedInstance(id)) else Pass
    {
      var pinned := IsPinned(id);
      e := if pinned then Fail(PinnedInstance(id)) else Pass;
    }

    /** The instance the path index holds, of which there is at most one. */
    method FindInstance(p: string) returns (at: Option<InstId>)
      requires UniquePaths(db.instances)
      ensures at == InstanceAt(db.instances, p)
    {
      at := None;
      var rest := db.instances.Keys;
      while rest != {} && at.None?
        invariant rest <= db.instances.Keys
        invariant at.Some? ==> at.value in db.instances && db.instances[at.value].path == p
        invariant at.None? ==> forall id | id in db.instances && db.instances[id].path == p :: id in rest
        decreases |rest|
      {
        var id :| id in rest;
        if db.instances[id].path == p {
          at := Some(id);
        }
        rest := rest - {id};
      }
    }

    /** Every deletion of an instance goes through here: its rows elsewhere go
        too, and its keys' roots are marked as written. */
    method DeleteInstance(id: InstId) returns (touched: set<RootKey>, was: Option<Instance>)
      modifies this
      ensures was == if id in old(db).instances then Some(old(db).instances[id]) else None
      ensures was.None? ==> db == old(db) && touched == {}
      ensures was.Some? ==> db == DropInstance(old(db), id) && touched == RootsOf(was.value.items)
    {
      if id !in db.instances {
        return {}, None;
      }
      was := Some(db.instances[id]);
      touched := RootsOf(db.instances[id].items);
      db := db.(instances := db.instances - {id});
      db := db.(files := RowsWithout(db.files, {id}), baselines := RowsWithout(db.baselines, {id}));
      db := db.(local := db.local - {id}, embedded := db.embedded - {id});
    }
  }

  ghost predicate UniquePaths(instances: map<InstId, Instance>) {
    forall a, b | a in instances && b in instances && a != b :: instances[a].path != instances[b].path
  }
}
