/** Attaching a key keeps ownership whole: the tables-only half of the proof. */
module AttachKeep {
  import opened Wrappers
  import opened Media
  import opened Tables
  import opened Claims

  function Shrunk(instances: map<InstId, Instance>, id: InstId, k: Key): map<InstId, Instance> {
    if id in instances then instances[id := instances[id].(items := Without(instances[id].items, k))] else instances
  }

  /* ---------- Giving up ---------- */

  lemma ShrunkWellFormed(instances: map<InstId, Instance>, last: InstId, id: InstId, k: Key)
    requires WellFormed(instances, last)
    ensures WellFormed(Shrunk(instances, id, k), last)
  {
  }

  lemma ShrunkRows(db: Db, id: InstId, k: Key)
    requires id in db.instances
    ensures Sourced(db.stored.sources, db.roots, db.passes, db.instances)
        ==> Sourced(db.stored.sources, db.roots, db.passes, Shrunk(db.instances, id, k))
    ensures Held(db.instances, db.files, db.baselines, db.local, db.embedded)
        ==> Held(Shrunk(db.instances, id, k), db.files, db.baselines, db.local, db.embedded)
  {
  }

  lemma WellFormedId(instances: map<InstId, Instance>, last: InstId, id: InstId)
    requires WellFormed(instances, last) && id in instances
    ensures 0 < id <= last && instances[id].path != ""
  {
  }

  lemma UnlinkOne(items: map<Key, Record>, instances: map<InstId, Instance>, k: Key)
    requires Linked(items, instances) && Owning(items, instances)
    requires k in items && items[k].inst != 0
    ensures Linked(items[k := items[k].(inst := 0)], Shrunk(instances, items[k].inst, k))
    ensures Owning(items[k := items[k].(inst := 0)], Shrunk(instances, items[k].inst, k))
  {
  }

  lemma UnlinkOneNamed(items: map<Key, Record>, instances: map<InstId, Instance>, sightings: map<ItemRef, Sighting>, released: set<Key>, k: Key)
    requires Linked(items, instances) && Named(items, instances, sightings, released)
    requires k in items && items[k].inst != 0
    ensures Named(items[k := items[k].(inst := 0)], Shrunk(instances, items[k].inst, k), sightings, released + {k})
  {
  }

  lemma UnlinkMany(items: map<Key, Record>, instances: map<InstId, Instance>, id: InstId)
    requires Linked(items, instances) && Owning(items, instances)
    requires id != 0 && id in instances && instances[id].owner.None?
    ensures Linked(Unlinked(items, instances[id].items, id), instances - {id})
    ensures Owning(Unlinked(items, instances[id].items, id), instances - {id})
  {
    var items' := Unlinked(items, instances[id].items, id);
    forall k | k in items' && items'[k].inst != 0
      ensures items'[k].inst in instances - {id} && k in (instances - {id})[items'[k].inst].items
    {
      assert items'[k] == items[k];
    }
  }

  /* ---------- Joining ---------- */

  /** k, held by nothing, joins inst as instance id. */
  lemma JoinOne(items: map<Key, Record>, instances: map<InstId, Instance>, k: Key, ref: ItemRef, id: InstId, inst: Instance)
    requires Linked(items, instances) && Owning(items, instances)
    requires id != 0 && 0 !in instances
    requires k in items ==> items[k].inst == 0
    requires inst.owner == Some(ref.root.source) && k in inst.items
    requires forall x | x in items && items[x].inst == id :: x in inst.items
    requires forall x | x in inst.items && x != k :: x in items && items[x].inst == id && items[x].ref.root.source == ref.root.source
    ensures Linked(items[k := Record(ref, id)], instances[id := inst])
    ensures Owning(items[k := Record(ref, id)], instances[id := inst])
  {
  }

  lemma NoZero(instances: map<InstId, Instance>, last: InstId)
    requires WellFormed(instances, last)
    ensures 0 !in instances
  {
  }

  lemma LinkedKey(items: map<Key, Record>, instances: map<InstId, Instance>, k: Key)
    requires Linked(items, instances) && k in items
    ensures items[k].inst != 0 ==> items[k].inst in instances && k in instances[items[k].inst].items
  {
  }

  /** A record of no owned instance is rewritten to name none. */
  lemma PutBare(items: map<Key, Record>, instances: map<InstId, Instance>, k: Key, ref: ItemRef)
    requires Linked(items, instances) && Owning(items, instances) && 0 !in instances
    requires k in items && items[k].inst != 0 ==> !Live(instances, items[k])
    ensures Linked(items[k := Record(ref, 0)], instances) && Owning(items[k := Record(ref, 0)], instances)
  {
  }

  lemma NextIsNew(instances: map<InstId, Instance>, last: InstId)
    requires WellFormed(instances, last)
    ensures last + 1 !in instances
  {
  }

  /** k stays in the instance that lists it, for another sighting of its owner. */
  lemma StayOne(items: map<Key, Record>, instances: map<InstId, Instance>, last: InstId, k: Key, ref: ItemRef, id: InstId, inst: Instance)
    requires Linked(items, instances) && Owning(items, instances) && WellFormed(instances, last)
    requires id in instances && k in instances[id].items && instances[id].owner == Some(ref.root.source)
    requires inst == instances[id].(scene := inst.scene)
    ensures Linked(items[k := Record(ref, id)], instances[id := inst])
    ensures Owning(items[k := Record(ref, id)], instances[id := inst])
    ensures WellFormed(instances[id := inst], last)
  {
    assert items[k].inst == id;
    var after := instances[id := inst];
    forall i, x | i in after && after[i].owner.Some? && x in after[i].items
      ensures x in items && items[x].inst == i && items[x].ref.root.source == after[i].owner.value
    {
      assert x in instances[i].items;
    }
  }

  lemma PutWellFormed(instances: map<InstId, Instance>, last: InstId, id: InstId, inst: Instance)
    requires WellFormed(instances, last)
    requires id in instances ==> inst.path == instances[id].path
    requires id !in instances ==> id == last + 1 && inst.path != "" && forall x | x in instances :: instances[x].path != inst.path
    requires NoRepeat(inst.items)
    ensures WellFormed(instances[id := inst], if id in instances then last else id)
  {
  }

  lemma DropWellFormed(instances: map<InstId, Instance>, last: InstId, id: InstId)
    requires WellFormed(instances, last)
    ensures WellFormed(instances - {id}, last)
  {
  }

  /* ---------- The four ways a key joins an instance ---------- */

  /** The tables with k taken from whatever holds it. */
  function FreedItems(items: map<Key, Record>, k: Key): map<Key, Record> {
    if k in items && items[k].inst != 0 then items[k := items[k].(inst := 0)] else items
  }

  function FreedInstances(items: map<Key, Record>, instances: map<InstId, Instance>, k: Key): map<InstId, Instance> {
    if k in items && items[k].inst != 0 then Shrunk(instances, items[k].inst, k) else instances
  }

  lemma Freed(items: map<Key, Record>, instances: map<InstId, Instance>, k: Key)
    requires Linked(items, instances) && Owning(items, instances)
    ensures Linked(FreedItems(items, k), FreedInstances(items, instances, k))
    ensures Owning(FreedItems(items, k), FreedInstances(items, instances, k))
  {
    if k in items && items[k].inst != 0 {
      UnlinkOne(items, instances, k);
    }
  }

  lemma JoinNew(items: map<Key, Record>, instances: map<InstId, Instance>, last: InstId, k: Key, ref: ItemRef, inst: Instance)
    requires Linked(items, instances) && Owning(items, instances) && WellFormed(instances, last)
    requires inst.owner == Some(ref.root.source) && inst.items == [k] && inst.path != ""
    requires forall x | x in instances :: instances[x].path != inst.path
    ensures Linked(items[k := Record(ref, last + 1)], FreedInstances(items, instances, k)[last + 1 := inst])
    ensures Owning(items[k := Record(ref, last + 1)], FreedInstances(items, instances, k)[last + 1 := inst])
    ensures WellFormed(FreedInstances(items, instances, k)[last + 1 := inst], last + 1)
  {
    Freed(items, instances, k);
    JoinOne(FreedItems(items, k), FreedInstances(items, instances, k), k, ref, last + 1, inst);
    assert FreedItems(items, k)[k := Record(ref, last + 1)] == items[k := Record(ref, last + 1)];
    ShrunkWellFormed(instances, last, if k in items then items[k].inst else 0, k);
    PutWellFormed(FreedInstances(items, instances, k), last, last + 1, inst);
  }

  lemma JoinOwned(items: map<Key, Record>, instances: map<InstId, Instance>, last: InstId, k: Key, ref: ItemRef, id: InstId, inst: Instance)
    requires Linked(items, instances) && Owning(items, instances) && WellFormed(instances, last)
    requires id in instances && instances[id].owner == Some(ref.root.source) && k !in instances[id].items
    requires inst == instances[id].(scene := inst.scene, items := instances[id].items + [k])
    ensures Linked(items[k := Record(ref, id)], FreedInstances(items, instances, k)[id := inst])
    ensures Owning(items[k := Record(ref, id)], FreedInstances(items, instances, k)[id := inst])
    ensures WellFormed(FreedInstances(items, instances, k)[id := inst], last)
  {
    Freed(items, instances, k);
    JoinOne(FreedItems(items, k), FreedInstances(items, instances, k), k, ref, id, inst);
    assert FreedItems(items, k)[k := Record(ref, id)] == items[k := Record(ref, id)];
    ShrunkWellFormed(instances, last, if k in items then items[k].inst else 0, k);
    PutWellFormed(FreedInstances(items, instances, k), last, id, inst);
  }

  /** Claiming an ownerless instance empties its list of all but k. */
  lemma JoinClaimed(items: map<Key, Record>, instances: map<InstId, Instance>, last: InstId, k: Key, ref: ItemRef, id: InstId, inst: Instance)
    requires Linked(items, instances) && Owning(items, instances) && WellFormed(instances, last)
    requires id in instances && instances[id].owner.None?
    requires inst.owner == Some(ref.root.source) && inst.items == [k] && inst.path == instances[id].path
    ensures var items' := Unlinked(items, instances[id].items, id);
            && Linked(items'[k := Record(ref, id)], FreedInstances(items', instances, k)[id := inst])
            && Owning(items'[k := Record(ref, id)], FreedInstances(items', instances, k)[id := inst])
            && WellFormed(FreedInstances(items', instances, k)[id := inst], last)
  {
    var items' := Unlinked(items, instances[id].items, id);
    UnlinkMany(items, instances, id);
    Freed(items', instances - {id}, k);
    JoinOne(FreedItems(items', k), FreedInstances(items', instances - {id}, k), k, ref, id, inst);
    assert FreedItems(items', k)[k := Record(ref, id)] == items'[k := Record(ref, id)];
    assert FreedInstances(items', instances - {id}, k)[id := inst] == FreedInstances(items', instances, k)[id := inst];
    ShrunkWellFormed(instances, last, if k in items' then items'[k].inst else 0, k);
    PutWellFormed(FreedInstances(items', instances, k), last, id, inst);
  }

  /** An expired instance goes, and k joins a new one at its path. */
  lemma JoinExpired(items: map<Key, Record>, instances: map<InstId, Instance>, last: InstId, k: Key, ref: ItemRef, id: InstId, inst: Instance)
    requires Linked(items, instances) && Owning(items, instances) && WellFormed(instances, last)
    requires id in instances && instances[id].owner.None?
    requires inst.owner == Some(ref.root.source) && inst.items == [k] && inst.path == instances[id].path
    ensures var items' := Unlinked(items, instances[id].items, id);
            && Linked(items'[k := Record(ref, last + 1)], FreedInstances(items', instances - {id}, k)[last + 1 := inst])
            && Owning(items'[k := Record(ref, last + 1)], FreedInstances(items', instances - {id}, k)[last + 1 := inst])
            && WellFormed(FreedInstances(items', instances - {id}, k)[last + 1 := inst], last + 1)
  {
    UnlinkMany(items, instances, id);
    DropWellFormed(instances, last, id);
    JoinNew(Unlinked(items, instances[id].items, id), instances - {id}, last, k, ref, inst);
  }
}
