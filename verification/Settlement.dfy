/** The end of an observing write: emptied instances go, released keys are
    kept, handed on or lost, and touched coverage is recomputed. */
module Settlement {
  import opened Wrappers
  import opened Media
  import opened Tables
  import opened RefKeys
  import opened Claims
  import opened Judging

  /** The emptied instances nothing refilled. */
  function StillEmpty(o: Obs): set<InstId> {
    set id | id in o.emptied && id in o.db.instances && o.db.instances[id].items == []
  }

  function EmptiedRoots(o: Obs, ids: set<InstId>): set<RootKey> {
    set id, k | id in ids && id in o.emptied && k in o.emptied[id] :: k.root
  }

  function DropEmptied(o: Obs): Obs {
    var ids := StillEmpty(o);
    o.(db := DropInstances(o.db, ids), written := o.written + EmptiedRoots(o, ids))
  }

  /** The keys to decide at the end of the write: released, held nowhere, and
      no longer reported bare by the sighting they show. */
  function Unheld(o: Obs): set<Key> {
    set k | k in o.released && k in o.db.items && o.db.items[k].inst == 0
            && !(o.db.items[k].ref in o.db.sightings && o.db.sightings[o.db.items[k].ref].ClaimsBare(k))
  }

  function Claimants(sightings: map<ItemRef, Sighting>, k: Key): set<ItemRef> {
    set ref | ref in sightings && sightings[ref].ClaimsBare(k)
  }

  /** Who takes k over: of the sightings that report it bare, the one a scan
      meets first. */
  ghost function Heir(sightings: map<ItemRef, Sighting>, k: Key): (r: Option<ItemRef>)
    ensures r.Some? ==> IsFirst(Claimants(sightings, k), r.value)
  {
    if r :| IsFirst(Claimants(sightings, k), r) then Some(r) else None
  }

  /** A key with any claimant has an heir. */
  lemma HeirExists(sightings: map<ItemRef, Sighting>, k: Key, ref: ItemRef)
    requires ref in sightings && sightings[ref].ClaimsBare(k)
    ensures Heir(sightings, k).Some?
  {
    assert ref in Claimants(sightings, k);
    var r := FirstExists(Claimants(sightings, k));
  }

  ghost function Heirless(sightings: map<ItemRef, Sighting>, lost: set<Key>): set<Key> {
    set k | k in lost && Heir(sightings, k).None?
  }

  ghost function Inherited(db: Db, lost: set<Key>): map<Key, Record> {
    map k | k in db.items.Keys && k !in Heirless(db.sightings, lost) ::
      if k in lost && Heir(db.sightings, k).Some? then Record(Heir(db.sightings, k).value, 0) else db.items[k]
  }

  function LocksWithout(locks: map<LockKey, Time>, gone: set<Key>): map<LockKey, Time> {
    map lk | lk in locks && lk.key !in gone :: locks[lk]
  }

  ghost function Bequeathed(db: Db, lost: set<Key>): Db {
    var gone := Heirless(db.sightings, lost);
    db.(items := Inherited(db, lost), coverage := db.coverage - gone, locks := LocksWithout(db.locks, gone))
  }

  /** Every lost key is passed to its heir; without one, what is stored under
      it is deleted. */
  ghost function HandOn(db: Db, a: Activation, lost: set<Key>): Result<Db, StoreError> {
    Recompute(Bequeathed(db, lost), a, lost - Heirless(db.sightings, lost), false)
  }

  ghost function Settle(o: Obs, a: Activation): Result<Obs, StoreError> {
    var o1 := DropEmptied(o);
    var lost := Unheld(o1);
    var db1 :- HandOn(o1.db, a, lost);
    var db2 :- Recompute(db1, a, o1.touched - lost, false);
    Success(o1.(db := db2))
  }
}
