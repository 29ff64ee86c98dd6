/** Every step of an observation keeps the suspended invariant: whatever a
    step breaks is recorded in released, emptied or touched. */
module ClaimsKeep {
  import opened Wrappers
  import opened Media
  import opened Tables
  import opened Claims
  import opened AttachKeep

  ghost predicate EmptiesListed(o: Obs) {
    forall id | id in o.db.instances && o.db.instances[id].items == [] :: id in o.emptied
  }

  /** Ownership inside an observing write. */
  ghost predicate Links(o: Obs) {
    && Linked(o.db.items, o.db.instances)
    && Owning(o.db.items, o.db.instances)
    && WellFormed(o.db.instances, o.db.lastInst)
    && EmptiesListed(o)
    && Named(o.db.items, o.db.instances, o.db.sightings, o.released)
    && Kept(o.db.items, o.db.sightings)
  }

  /** What the other tables keep inside an observing write. */
  ghost predicate Rows(db: Db) {
    && Sourced(db.stored.sources, db.roots, db.passes, db.instances)
    && Overlapping(db.stored.sources, db.overlaps, db.sightings)
    && Held(db.instances, db.files, db.baselines, db.local, db.embedded)
    && Staging(db.instances, db.intents)
    && NoStray(db.coverage, db.items)
  }

  lemma LinksLinked(o: Obs)
    requires Links(o)
    ensures Linked(o.db.items, o.db.instances)
  {
  }

  /** The write is of an activated source, in its open pass. */
  ghost predicate Passing(o: Obs) {
    && o.src in o.db.stored.sources
    && o.pass <= o.db.lastPass
    && (o.src in o.db.passes ==> o.db.passes[o.src].id == o.pass)
  }

  ghost predicate Filed(db: Db) {
    Rows(db) && Stamped(db.sightings, db.stamps, db.roots, db.passes, db.lastPass)
  }

  /** The invariant inside a write under activation a, but for the stamps. */
  ghost predicate Tidy(o: Obs, a: Activation) {
    && Links(o)
    && Rows(o.db)
    && Passing(o)
    && Agrees(o.db.stored, Some(a))
    && Current(o.db, a, o.touched)
    && o.released <= o.touched
  }

  /** The invariant inside an observing write under activation a. */
  ghost predicate Weak(o: Obs, a: Activation) {
    Tidy(o, a) && Stamped(o.db.sightings, o.db.stamps, o.db.roots, o.db.passes, o.db.lastPass)
  }

  /** k's freshness is about its own rows and its instance's evidence. */
  lemma FreshFrame(before: Db, after: Db, a: Activation, k: Key)
    requires k in before.items && Fresh(before, a, k)
    requires k in after.items && after.items[k] == before.items[k]
    requires after.items[k].ref in after.sightings && after.sightings[after.items[k].ref] == before.sightings[before.items[k].ref]
    requires after.coverage == before.coverage && after.locks == before.locks
    requires after.items[k].inst != 0 ==> EvidenceOf(after, a.codecs, after.items[k].inst) == EvidenceOf(before, a.codecs, before.items[k].inst)
    ensures Fresh(after, a, k)
  {
  }

  lemma DropEvidence(db: Db, ids: set<InstId>, codecs: set<string>, other: InstId)
    requires other !in ids
    ensures EvidenceOf(DropInstances(db, ids), codecs, other) == EvidenceOf(db, codecs, other)
  {
    var after := DropInstances(db, ids);
    assert (set fk | fk in after.files && fk.inst == other :: Evidence(after.files[fk].tag, after.files[fk].flags))
        == (set fk | fk in db.files && fk.inst == other :: Evidence(db.files[fk].tag, db.files[fk].flags));
  }

  /* ---------- Giving up a claim ---------- */

  lemma NamedMonotone(items: map<Key, Record>, instances: map<InstId, Instance>, sightings: map<ItemRef, Sighting>, released: set<Key>, more: set<Key>)
    requires Named(items, instances, sightings, released) && released <= more
    ensures Named(items, instances, sightings, more)
  {
  }

  lemma KeptMore(items: map<Key, Record>, more: map<Key, Record>, sightings: map<ItemRef, Sighting>)
    requires Kept(items, sightings) && items.Keys <= more.Keys
    ensures Kept(more, sightings)
  {
  }

  lemma ShrunkStaging(instances: map<InstId, Instance>, intents: map<FileKey, Intent>, id: InstId, k: Key)
    requires Staging(instances, intents) && id in instances && !Pinned(intents, id)
    ensures Staging(Shrunk(instances, id, k), intents)
  {
    forall fk | fk in intents
      ensures fk.inst in instances && Staged(Shrunk(instances, id, k)[fk.inst], fk, intents[fk])
    {
      assert fk.inst != id;
    }
  }

  /** The tables and sets after a held key is given up. */
  lemma ReleaseShape(o: Obs, ref: ItemRef, was: Sighting)
    requires Links(o) && Release(o, ref, was).Success?
    ensures var o1 := Release(o, ref, was).value;
      var db0 := o.db.(overlaps := o.db.overlaps - {ref});
      if was.key.None? || was.key.value !in o.db.items || o.db.items[was.key.value].ref != ref then o1 == o.(db := db0)
      else
        var k := was.key.value;
        var rec := o.db.items[k];
        var items := o.db.items[k := rec.(inst := 0)];
        if rec.inst == 0 then o1 == o.(released := o.released + {k}, touched := o.touched + {k}, db := db0.(items := items))
        else
          && !Pinned(o.db.intents, rec.inst)
          && o1 == o.(released := o.released + {k}, touched := o.touched + {k},
                      emptied := o.emptied[rec.inst := EmptiedOf(o, rec.inst) + {k}],
                      db := db0.(items := items, instances := Shrunk(o.db.instances, rec.inst, k)))
  {
  }

  lemma ReleaseCurrent(before: Obs, after: Obs, a: Activation)
    requires Current(before.db, a, before.touched) && before.touched <= after.touched
    requires forall k | k in after.db.items && k !in after.touched && Live(after.db.instances, after.db.items[k]) ::
               k in before.db.items && before.db.items[k] == after.db.items[k] && Live(before.db.instances, before.db.items[k])
    requires after.db.sightings == before.db.sightings && after.db.coverage == before.db.coverage && after.db.locks == before.db.locks
    requires after.db.files == before.db.files && after.db.local == before.db.local && after.db.embedded == before.db.embedded
    ensures Current(after.db, a, after.touched)
  {
    forall k | k in after.db.items && Live(after.db.instances, after.db.items[k]) && k !in after.touched
      ensures Fresh(after.db, a, k)
    {
      FreshFrame(before.db, after.db, a, k);
    }
  }

  lemma ReleaseLinks(o: Obs, ref: ItemRef, was: Sighting)
    requires Links(o) && Release(o, ref, was).Success?
    ensures Links(Release(o, ref, was).value)
  {
    hide Linked, Owning, WellFormed, Named, Kept;
    var o1 := Release(o, ref, was).value;
    ReleaseShape(o, ref, was);
    if was.key.Some? && was.key.value in o.db.items && o.db.items[was.key.value].ref == ref {
      var k := was.key.value;
      var rec := o.db.items[k];
      KeptMore(o.db.items, o1.db.items, o.db.sightings);
      if rec.inst != 0 {
        ShrunkWellFormed(o.db.instances, o.db.lastInst, rec.inst, k);
        UnlinkOne(o.db.items, o.db.instances, k);
        UnlinkOneNamed(o.db.items, o.db.instances, o.db.sightings, o.released, k);
      } else {
        assert o.db.items[k := rec.(inst := 0)] == o.db.items;
        NamedMonotone(o.db.items, o.db.instances, o.db.sightings, o.released, o1.released);
      }
    }
  }

  lemma ReleaseRows(o: Obs, ref: ItemRef, was: Sighting)
    requires Links(o) && Rows(o.db) && Release(o, ref, was).Success?
    ensures Rows(Release(o, ref, was).value.db)
  {
    hide Links, Stamped, Staging, Sourced, Held;
    ReleaseShape(o, ref, was);
    LinksLinked(o);
    if was.key.Some? && was.key.value in o.db.items && o.db.items[was.key.value].ref == ref && o.db.items[was.key.value].inst != 0 {
      ShrunkStaging(o.db.instances, o.db.intents, o.db.items[was.key.value].inst, was.key.value);
      ShrunkRows(o.db, o.db.items[was.key.value].inst, was.key.value);
    }
  }

  lemma ReleaseKeeps(o: Obs, a: Activation, ref: ItemRef, was: Sighting)
    requires Tidy(o, a) && Release(o, ref, was).Success?
    ensures Tidy(Release(o, ref, was).value, a)
  {
    hide Links, Rows, Current;
    ReleaseLinks(o, ref, was);
    ReleaseRows(o, ref, was);
    ReleaseShape(o, ref, was);
    ReleaseCurrent(o, Release(o, ref, was).value, a);
  }

  /* ---------- Attaching ---------- */

  /** The instances after k is attached: which instance it joined, and with
      what row. */
  datatype Joined = Joined(items: map<Key, Record>, instances: map<InstId, Instance>, id: InstId, inst: Instance, dropped: Option<InstId>)

  predicate Expiring(o: Obs, inst: Instance) {
    inst.owner.None? && o.now - inst.orphaned > EXPIRE_AFTER
  }

  function JoinedBy(o: Obs, k: Key, p: string, at: Option<InstId>): Joined
    requires at.Some? ==> at.value in o.db.instances
  {
    var items, instances, next := o.db.items, o.db.instances, o.db.lastInst + 1;
    var begun := Instance(p, SceneAt(o, p), Some(o.src), 0, [k]);
    if at.None? then Joined(items, FreedInstances(items, instances, k), next, begun, None)
    else
      var id := at.value;
      var inst := instances[id];
      var unlinked := Unlinked(items, inst.items, id);
      if Expiring(o, inst) then Joined(unlinked, FreedInstances(unlinked, instances - {id}, k), next, begun, Some(id))
      else if inst.owner.None? then Joined(unlinked, FreedInstances(unlinked, instances, k), id, begun, None)
      else if k in inst.items then Joined(items, instances, id, inst.(owner := Some(o.src), scene := SceneAt(o, p)), None)
      else Joined(items, FreedInstances(items, instances, k), id,
                  inst.(owner := Some(o.src), scene := SceneAt(o, p), items := inst.items + [k]), None)
  }

  /** The tables after k is attached for ref. */
  function AttachedDb(o: Obs, ref: ItemRef, k: Key, j: Joined): Db {
    var base := if j.dropped.Some? then DropInstance(o.db, j.dropped.value) else o.db;
    base.(items := j.items[k := Record(ref, j.id)], instances := j.instances[j.id := j.inst],
          lastInst := if j.id in o.db.instances then o.db.lastInst else j.id,
          overlaps := o.db.overlaps - {ref})
  }

  lemma AttachShape(o: Obs, ref: ItemRef, k: Key, p: string, at: Option<InstId>)
    requires Linked(o.db.items, o.db.instances) && Owning(o.db.items, o.db.instances) && WellFormed(o.db.instances, o.db.lastInst)
    requires at.Some? ==> at.value in o.db.instances && o.db.instances[at.value].path == p && !OtherOwner(o, at.value)
    requires AttachKey(o, ref, k, p, at).Success?
    ensures AttachKey(o, ref, k, p, at).value.db == AttachedDb(o, ref, k, JoinedBy(o, k, p, at))
  {
    if at.None? {
      AttachNew(o, ref, k, p);
    } else if o.db.instances[at.value].owner.None? {
      if Expiring(o, o.db.instances[at.value]) {
        AttachExpired(o, ref, k, p, at);
      } else {
        AttachClaimed(o, ref, k, p, at);
      }
    } else {
      AttachOwned(o, ref, k, p, at);
    }
  }

  /** Taking k from its holder and putting a row elsewhere commute. */
  lemma DetachSwap(o: Obs, k: Key, id: InstId, inst: Instance)
    requires k in o.db.items && o.db.items[k].inst != 0 && o.db.items[k].inst != id
    requires o.db.items[k].inst in o.db.instances && k in o.db.instances[o.db.items[k].inst].items
    requires Detach(o.(db := o.db.(instances := o.db.instances[id := inst])), o.db.items[k].inst, k).Success?
    ensures Detach(o.(db := o.db.(instances := o.db.instances[id := inst])), o.db.items[k].inst, k).value.db
         == o.db.(instances := FreedInstances(o.db.items, o.db.instances, k)[id := inst])
  {
    var held := o.db.items[k].inst;
    var row := o.db.instances[held];
    assert o.db.instances[id := inst][held := row.(items := Without(row.items, k))]
        == o.db.instances[held := row.(items := Without(row.items, k))][id := inst];
  }

  lemma AttachNew(o: Obs, ref: ItemRef, k: Key, p: string)
    requires WellFormed(o.db.instances, o.db.lastInst)
    requires Linked(o.db.items, o.db.instances)
    requires AttachKey(o, ref, k, p, None).Success?
    ensures AttachKey(o, ref, k, p, None).value.db == AttachedDb(o, ref, k, JoinedBy(o, k, p, None))
  {
    hide Detach;
    var j := JoinedBy(o, k, p, None);
    if k in o.db.items && o.db.items[k].inst != 0 {
      assert o.db.items[k].inst != j.id;
      DetachSwap(o.(db := o.db.(lastInst := j.id)), k, j.id, j.inst);
    }
  }

  lemma AttachOwned(o: Obs, ref: ItemRef, k: Key, p: string, at: Option<InstId>)
    requires Linked(o.db.items, o.db.instances) && Owning(o.db.items, o.db.instances)
    requires at.Some? && at.value in o.db.instances && o.db.instances[at.value].owner.Some?
    requires AttachKey(o, ref, k, p, at).Success?
    ensures AttachKey(o, ref, k, p, at).value.db == AttachedDb(o, ref, k, JoinedBy(o, k, p, at))
  {
    hide Detach;
    var j := JoinedBy(o, k, p, at);
    if k !in o.db.instances[at.value].items && k in o.db.items && o.db.items[k].inst != 0 {
      DetachSwap(o, k, j.id, j.inst);
    }
  }

  lemma AttachClaimed(o: Obs, ref: ItemRef, k: Key, p: string, at: Option<InstId>)
    requires Linked(o.db.items, o.db.instances)
    requires at.Some? && at.value in o.db.instances && o.db.instances[at.value].owner.None? && !Expiring(o, o.db.instances[at.value])
    requires AttachKey(o, ref, k, p, at).Success?
    ensures AttachKey(o, ref, k, p, at).value.db == AttachedDb(o, ref, k, JoinedBy(o, k, p, at))
  {
    hide Detach;
    var j := JoinedBy(o, k, p, at);
    if k in o.db.items && o.db.items[k].inst != 0 && o.db.items[k].inst != at.value {
      DetachSwap(UnlinkAll(o, o.db.instances[at.value].items, at.value), k, j.id, j.inst);
    }
  }

  lemma AttachExpired(o: Obs, ref: ItemRef, k: Key, p: string, at: Option<InstId>)
    requires Linked(o.db.items, o.db.instances) && Owning(o.db.items, o.db.instances) && WellFormed(o.db.instances, o.db.lastInst)
    requires at.Some? && at.value in o.db.instances && o.db.instances[at.value].owner.None? && Expiring(o, o.db.instances[at.value])
    requires AttachKey(o, ref, k, p, at).Success?
    ensures AttachKey(o, ref, k, p, at).value.db == AttachedDb(o, ref, k, JoinedBy(o, k, p, at))
  {
    hide Linked, Owning, WellFormed, AttachKey, AttachedDb, JoinedBy, Expire;
    var o1 := Expire(o, at.value);
    ExpiredTables(o, at.value);
    WellFormedId(o.db.instances, o.db.lastInst, at.value);
    NextIsNew(o.db.instances, o.db.lastInst);
    UnlinkMany(o.db.items, o.db.instances, at.value);
    DropWellFormed(o.db.instances, o.db.lastInst, at.value);
    ExpiredAttach(o, ref, k, p, at.value);
    AttachNew(o1, ref, k, p);
    ExpiredJoin(o, ref, k, p, at.value);
  }

  lemma ExpiredTables(o: Obs, id: InstId)
    requires id in o.db.instances
    ensures Expire(o, id).db == DropInstance(o.db, id).(items := Unlinked(o.db.items, o.db.instances[id].items, id))
    ensures Expire(o, id).db.instances == o.db.instances - {id} && Expire(o, id).db.lastInst == o.db.lastInst
    ensures Expire(o, id).src == o.src && Expire(o, id).scene == o.scene
  {
    hide Unlinked, RowsWithout;
  }

  /** Attaching at an expired instance is attaching anew once it is gone. */
  lemma ExpiredAttach(o: Obs, ref: ItemRef, k: Key, p: string, id: InstId)
    requires id in o.db.instances && o.db.instances[id].owner.None? && Expiring(o, o.db.instances[id]) && 0 < id <= o.db.lastInst
    requires AttachKey(o, ref, k, p, Some(id)).Success?
    ensures AttachKey(o, ref, k, p, Some(id)) == AttachKey(Expire(o, id), ref, k, p, None)
  {
    hide Detach, NewInstance;
    ExpiredTables(o, id);
    hide Expire;
    var o1 := Expire(o, id);
    var items := o.db.items;
    if k in items && items[k].inst == id && k in o.db.instances[id].items {
      NewDetach(o1, k, p, id);
    }
  }

  lemma NewDetach(o: Obs, k: Key, p: string, id: InstId)
    requires id !in o.db.instances && id <= o.db.lastInst
    ensures var (o1, next) := NewInstance(o, k, p); next != id && id !in o1.db.instances && Detach(o1, id, k) == Success(o1)
  {
  }

  lemma ExpiredJoin(o: Obs, ref: ItemRef, k: Key, p: string, id: InstId)
    requires id in o.db.instances && o.db.instances[id].owner.None? && Expiring(o, o.db.instances[id]) && 0 < id <= o.db.lastInst
    requires o.db.lastInst + 1 !in o.db.instances
    ensures AttachedDb(Expire(o, id), ref, k, JoinedBy(Expire(o, id), k, p, None)) == AttachedDb(o, ref, k, JoinedBy(o, k, p, Some(id)))
  {
    hide Unlinked, FreedInstances, RowsWithout;
    ExpiredTables(o, id);
    hide Expire;
  }

  /** What attaching k leaves alone: every other record is as it was, and so
      are its instance's path and owner, or it is released. */
  lemma JoinedFrame(o: Obs, k: Key, p: string, at: Option<InstId>, x: Key)
    requires Linked(o.db.items, o.db.instances) && WellFormed(o.db.instances, o.db.lastInst)
    requires at.Some? ==> at.value in o.db.instances && !OtherOwner(o, at.value)
    requires x in o.db.items && x != k && o.db.items[x].inst != 0
    ensures var j := JoinedBy(o, k, p, at);
            var after := j.instances[j.id := j.inst];
            var i := o.db.items[x].inst;
            && x in j.items
            && if j.items[x] == o.db.items[x]
               then i in after && after[i].owner == o.db.instances[i].owner && after[i].path == o.db.instances[i].path
               else at == Some(i) && j.items[x] == o.db.items[x].(inst := 0)
  {
  }

  /** The sets an attach leaves: what it unlinked is released, what it took
      a key from is emptied. */
  ghost predicate Grown(o: Obs, o1: Obs) {
    && o1.src == o.src && o1.pass == o.pass && o1.now == o.now && o1.scene == o.scene
    && o.released <= o1.released && o.touched <= o1.touched
    && o1.released - o.released <= o1.touched
    && o.emptied.Keys <= o1.emptied.Keys
  }

  lemma UnlinkSets(o: Obs, ks: seq<Key>, id: InstId, x: Key)
    ensures Grown(o, UnlinkAll(o, ks, id)) && UnlinkAll(o, ks, id).emptied == o.emptied
    ensures UnlinkAll(o, ks, id).db == o.db.(items := Unlinked(o.db.items, ks, id))
    ensures x in o.db.items && Unlinked(o.db.items, ks, id)[x] != o.db.items[x] ==> x in UnlinkAll(o, ks, id).released
  {
  }

  lemma JoinSets(o: Obs, k: Key, p: string, at: Option<InstId>, x: Key, y: InstId)
    requires at.Some? ==> at.value in o.db.instances && !OtherOwner(o, at.value)
    requires Join(o, at, k, p).Success?
    ensures var (o1, id) := Join(o, at, k, p).value;
            var j := JoinedBy(o, k, p, at);
            && Grown(o, o1) && id == j.id && o1.emptied == o.emptied
            && (x in o.db.items && j.items[x] != o.db.items[x] ==> x in o1.released)
            && (y in o.db.instances && y != id && Some(y) != j.dropped ==> y in o1.db.instances && o1.db.instances[y] == o.db.instances[y])
  {
    hide UnlinkAll;
    if at.Some? && o.db.instances[at.value].owner.None? {
      var ks := o.db.instances[at.value].items;
      if Expiring(o, o.db.instances[at.value]) {
        UnlinkSets(o.(db := DropInstance(o.db, at.value), written := o.written + RootsOf(ks)), ks, at.value, x);
      } else {
        UnlinkSets(o, ks, at.value, x);
      }
    }
  }

  lemma DetachSets(o: Obs, id: InstId, k: Key)
    requires Detach(o, id, k).Success?
    ensures Grown(o, Detach(o, id, k).value)
    ensures Detach(o, id, k).value.released == o.released && Detach(o, id, k).value.touched == o.touched
    ensures id in o.db.instances && k in o.db.instances[id].items ==> id in Detach(o, id, k).value.emptied && !Pinned(o.db.intents, id)
  {
  }

  lemma AttachSets(o: Obs, ref: ItemRef, k: Key, p: string, at: Option<InstId>, x: Key)
    requires Linked(o.db.items, o.db.instances)
    requires at.Some? ==> at.value in o.db.instances && !OtherOwner(o, at.value)
    requires AttachKey(o, ref, k, p, at).Success?
    ensures var o1 := AttachKey(o, ref, k, p, at).value;
            var j := JoinedBy(o, k, p, at);
            && Grown(o, o1)
            && (x in o.db.items && j.items[x] != o.db.items[x] ==> x in o1.released)
            && (k in o.db.items && o.db.items[k].inst != 0 && o.db.items[k].inst != j.id && Some(o.db.items[k].inst) != j.dropped
                ==> o.db.items[k].inst in o1.emptied)
  {
    hide Join, Detach;
    JoinSets(o, k, p, at, x, if k in o.db.items then o.db.items[k].inst else 0);
    var (o1, id) := Join(o, at, k, p).value;
    if k in o.db.items && o.db.items[k].inst != 0 && o.db.items[k].inst != id {
      DetachSets(o1, o.db.items[k].inst, k);
    }
  }

  /* ---------- Ownership through a claim ---------- */

  /** After GiveUp no live record rests on what ref's sighting used to say. */
  ghost predicate Settled(o: Obs, ref: ItemRef, key: Option<Key>, p: string) {
    forall k | k in o.db.items && o.db.items[k].ref == ref && Live(o.db.instances, o.db.items[k]) ::
      || (o.db.items[k].inst == 0 && k in o.released)
      || (key == Some(k) && ref in o.db.sightings && o.db.sightings[ref].key == key && o.db.sightings[ref].item.path == p)
  }

  lemma AttachOwnership(o: Obs, ref: ItemRef, k: Key, p: string)
    requires Links(o) && ref.root.source == o.src && p != ""
    requires var at := InstanceAt(o.db.instances, p); at.Some? ==> !OtherOwner(o, at.value)
    ensures var after := AttachedDb(o, ref, k, JoinedBy(o, k, p, InstanceAt(o.db.instances, p)));
            Linked(after.items, after.instances) && Owning(after.items, after.instances) && WellFormed(after.instances, after.lastInst)
  {
    hide Linked, Owning, WellFormed;
    var items, instances, last := o.db.items, o.db.instances, o.db.lastInst;
    var at := InstanceAt(instances, p);
    var j := JoinedBy(o, k, p, at);
    assert last + 1 !in instances by { NextIsNew(instances, last); }
    if at.None? {
      JoinNew(items, instances, last, k, ref, j.inst);
    } else if Expiring(o, instances[at.value]) {
      JoinExpired(items, instances, last, k, ref, at.value, j.inst);
    } else if instances[at.value].owner.None? {
      JoinClaimed(items, instances, last, k, ref, at.value, j.inst);
    } else if k in instances[at.value].items {
      StayOne(items, instances, last, k, ref, at.value, j.inst);
    } else {
      JoinOwned(items, instances, last, k, ref, at.value, j.inst);
    }
  }

  /** A sighting is stored over ref's, and records move by one key: what is
      named stays named. */
  lemma NamedStep(o: Obs, o1: Obs, ref: ItemRef, key: Option<Key>, it: Item, next: Sighting, k: Key)
    requires Linked(o.db.items, o.db.instances)
    requires Named(o.db.items, o.db.instances, o.db.sightings, o.released) && o.released <= o1.released
    requires Settled(o, ref, key, it.path) && (key == Some(k) || key.None?)
    requires o1.db.sightings == o.db.sightings[ref := next] && next.item == it
    requires forall x | x in o1.db.items && x != k :: Carried(o, o1, x)
    requires k in o1.db.items && Live(o1.db.instances, o1.db.items[k]) ==>
               NamesClaim(o1.db.sightings, o1.db.instances, k, o1.db.items[k]) || (o1.db.items[k].inst == 0 && k in o1.released)
    ensures Named(o1.db.items, o1.db.instances, o1.db.sightings, o1.released)
  {
    forall x | x in o1.db.items && Live(o1.db.instances, o1.db.items[x])
      ensures NamesClaim(o1.db.sightings, o1.db.instances, x, o1.db.items[x]) || (o1.db.items[x].inst == 0 && x in o1.released)
    {
      if x != k {
        assert Carried(o, o1, x);
      }
    }
  }

  /** x's record is as it was, with its instance's path and owner, or it has
      been unlinked and released. */
  ghost predicate Carried(o: Obs, o1: Obs, x: Key) {
    && x in o.db.items && x in o1.db.items
    && var i := o.db.items[x].inst;
       || (o1.db.items[x].inst == 0 && x in o1.released)
       || (o1.db.items[x] == o.db.items[x]
           && (i != 0 ==> i in o1.db.instances && i in o.db.instances
                          && o1.db.instances[i].owner == o.db.instances[i].owner && o1.db.instances[i].path == o.db.instances[i].path))
  }

  lemma AttachCarries(o: Obs, ref: ItemRef, k: Key, p: string, at: Option<InstId>, x: Key)
    requires Linked(o.db.items, o.db.instances) && Owning(o.db.items, o.db.instances) && WellFormed(o.db.instances, o.db.lastInst)
    requires at.Some? ==> at.value in o.db.instances && o.db.instances[at.value].path == p && !OtherOwner(o, at.value)
    requires AttachKey(o, ref, k, p, at).Success?
    requires x in o.db.items && x != k
    ensures Carried(o, AttachKey(o, ref, k, p, at).value, x)
  {
    hide AttachKey, Owning;
    AttachShape(o, ref, k, p, at);
    AttachSets(o, ref, k, p, at, x);
    if o.db.items[x].inst != 0 {
      hide Linked, WellFormed;
      JoinedFrame(o, k, p, at, x);
    }
  }

  lemma AttachEmpties(o: Obs, ref: ItemRef, k: Key, p: string, at: Option<InstId>)
    requires Linked(o.db.items, o.db.instances) && Owning(o.db.items, o.db.instances) && WellFormed(o.db.instances, o.db.lastInst)
    requires at.Some? ==> at.value in o.db.instances && o.db.instances[at.value].path == p && !OtherOwner(o, at.value)
    requires EmptiesListed(o)
    requires AttachKey(o, ref, k, p, at).Success?
    ensures EmptiesListed(AttachKey(o, ref, k, p, at).value)
  {
    hide AttachKey, Owning, Linked, WellFormed;
    AttachShape(o, ref, k, p, at);
    AttachSets(o, ref, k, p, at, k);
  }

  lemma KeptStep(items: map<Key, Record>, more: map<Key, Record>, sightings: map<ItemRef, Sighting>, ref: ItemRef, next: Sighting)
    requires Kept(items, sightings) && items.Keys <= more.Keys
    requires next.key.Some? && next.item.path == "" ==> next.key.value in more
    ensures Kept(more, sightings[ref := next])
  {
  }

  lemma AttachNamed(o: Obs, ref: ItemRef, k: Key, it: Item, at: Option<InstId>)
    requires Linked(o.db.items, o.db.instances) && Owning(o.db.items, o.db.instances) && WellFormed(o.db.instances, o.db.lastInst)
    requires Named(o.db.items, o.db.instances, o.db.sightings, o.released) && Settled(o, ref, Some(k), it.path)
    requires at.Some? ==> at.value in o.db.instances && o.db.instances[at.value].path == it.path && !OtherOwner(o, at.value)
    requires AttachKey(o, ref, k, it.path, at).Success?
    ensures var o2 := StoreSighting(AttachKey(o, ref, k, it.path, at).value, ref, Sighting(Some(k), it));
            Named(o2.db.items, o2.db.instances, o2.db.sightings, o2.released)
  {
    hide Linked, Owning, WellFormed, Named, Settled, AttachKey, Carried;
    var o1 := AttachKey(o, ref, k, it.path, at).value;
    var o2 := StoreSighting(o1, ref, Sighting(Some(k), it));
    AttachShape(o, ref, k, it.path, at);
    AttachSets(o, ref, k, it.path, at, k);
    forall x | x in o2.db.items && x != k
      ensures Carried(o, o2, x)
    {
      AttachCarries(o, ref, k, it.path, at, x);
      CarriedOn(o, o1, o2, x);
    }
    assert o2.db.items[k] == Record(ref, JoinedBy(o, k, it.path, at).id);
    assert JoinedBy(o, k, it.path, at).inst.path == it.path;
    if at.Some? {
      WellFormedId(o.db.instances, o.db.lastInst, at.value);
    }
    NamedStep(o, o2, ref, Some(k), it, Sighting(Some(k), it), k);
  }

  lemma AttachLinks(o: Obs, ref: ItemRef, k: Key, it: Item)
    requires Links(o) && ref.root.source == o.src && it.path != "" && Settled(o, ref, Some(k), it.path)
    requires var at := InstanceAt(o.db.instances, it.path); at.Some? ==> !OtherOwner(o, at.value)
    requires AttachKey(o, ref, k, it.path, InstanceAt(o.db.instances, it.path)).Success?
    ensures var o1 := AttachKey(o, ref, k, it.path, InstanceAt(o.db.instances, it.path)).value;
            Links(StoreSighting(o1, ref, Sighting(Some(k), it)))
  {
    hide Linked, Owning, WellFormed, Named, Settled, AttachKey, Kept;
    var at := InstanceAt(o.db.instances, it.path);
    AttachShape(o, ref, k, it.path, at);
    AttachOwnership(o, ref, k, it.path);
    AttachEmpties(o, ref, k, it.path, at);
    AttachNamed(o, ref, k, it, at);
    AttachGrows(o, ref, k, it.path, at);
    KeptStep(o.db.items, AttachKey(o, ref, k, it.path, at).value.db.items, o.db.sightings, ref, Sighting(Some(k), it));
  }

  lemma AttachGrows(o: Obs, ref: ItemRef, k: Key, p: string, at: Option<InstId>)
    requires at.Some? ==> at.value in o.db.instances
    ensures o.db.items.Keys <= AttachedDb(o, ref, k, JoinedBy(o, k, p, at)).items.Keys
  {
  }

  lemma CarriedOn(o: Obs, o1: Obs, o2: Obs, x: Key)
    requires Carried(o, o1, x) && o2.db.items == o1.db.items && o2.db.instances == o1.db.instances && o2.released == o1.released
    ensures Carried(o, o2, x)
  {
  }

  /* ---------- The claims that attach nothing ---------- */

  lemma PlainLinks(o: Obs, o1: Obs, ref: ItemRef, key: Option<Key>, it: Item, next: Sighting)
    requires Links(o) && Settled(o, ref, key, it.path)
    requires o1.db.items == o.db.items && o1.db.instances == o.db.instances && o1.db.lastInst == o.db.lastInst && o1.db.sightings == o.db.sightings
    requires o1.released == o.released && o1.emptied == o.emptied
    requires next.item == it && (next.key == key || next.key.None?)
    requires next.key.Some? ==> it.path != ""
    requires key.Some? && next.key.None? ==> key.value in o.db.items && o.db.items[key.value].ref != ref
    ensures Links(StoreSighting(o1, ref, next))
  {
    hide Linked, Owning, WellFormed, Kept;
    var o2 := StoreSighting(o1, ref, next);
    KeptStep(o.db.items, o.db.items, o.db.sightings, ref, next);
  }

  lemma NamedKey(o: Obs, k: Key)
    requires Named(o.db.items, o.db.instances, o.db.sightings, o.released)
    requires k in o.db.items && Live(o.db.instances, o.db.items[k])
    ensures NamesClaim(o.db.sightings, o.db.instances, k, o.db.items[k]) || (o.db.items[k].inst == 0 && k in o.released)
  {
  }

  predicate Rewrites(o: Obs, ref: ItemRef, k: Key) {
    k !in o.db.items || o.db.items[k].ref == ref || (!HeldElsewhere(o, o.db.items[k]) && o.db.items[k].inst == 0)
  }

  /** A record rewritten with no video is not of an owned instance. */
  lemma BareNotOwned(o: Obs, ref: ItemRef, k: Key)
    requires Named(o.db.items, o.db.instances, o.db.sightings, o.released) && Settled(o, ref, Some(k), "")
    requires WellFormed(o.db.instances, o.db.lastInst)
    requires Rewrites(o, ref, k) && k in o.db.items && o.db.items[k].inst != 0
    ensures !Live(o.db.instances, o.db.items[k])
  {
    hide Settled;
    if Live(o.db.instances, o.db.items[k]) {
      NamedKey(o, k);
      SettledKey(o, ref, Some(k), "", k);
      WellFormedId(o.db.instances, o.db.lastInst, o.db.items[k].inst);
    }
  }

  lemma SettledKey(o: Obs, ref: ItemRef, key: Option<Key>, p: string, k: Key)
    requires Settled(o, ref, key, p)
    requires k in o.db.items && Live(o.db.instances, o.db.items[k]) && o.db.items[k].ref == ref
    ensures || (o.db.items[k].inst == 0 && k in o.released)
            || (key == Some(k) && ref in o.db.sightings && o.db.sightings[ref].key == key && o.db.sightings[ref].item.path == p)
  {
  }

  lemma BareRewriteLinks(o: Obs, ref: ItemRef, k: Key, it: Item)
    requires Links(o) && Settled(o, ref, Some(k), "") && it.path == "" && Rewrites(o, ref, k)
    ensures Links(StoreSighting(o.(db := o.db.(items := o.db.items[k := Record(ref, 0)])), ref, Sighting(Some(k), it)))
  {
    hide Linked, Owning, WellFormed, Kept, Named, Settled, Rewrites;
    var o1 := o.(db := o.db.(items := o.db.items[k := Record(ref, 0)]));
    var o2 := StoreSighting(o1, ref, Sighting(Some(k), it));
    if k in o.db.items && o.db.items[k].inst != 0 {
      BareNotOwned(o, ref, k);
    }
    NoZero(o.db.instances, o.db.lastInst);
    PutBare(o.db.items, o.db.instances, k, ref);
    KeptStep(o.db.items, o1.db.items, o.db.sightings, ref, Sighting(Some(k), it));
    NamedStep(o, o2, ref, Some(k), it, Sighting(Some(k), it), k) by {
      forall x | x in o2.db.items && x != k
        ensures Carried(o, o2, x)
      {
        LinkedKey(o.db.items, o.db.instances, x);
      }
    }
  }

  lemma BareLinks(o: Obs, ref: ItemRef, k: Key, it: Item)
    requires Links(o) && Settled(o, ref, Some(k), "") && it.path == ""
    ensures Links(StoreSighting(NoVideo(o, ref, k), ref, Sighting(Some(k), it)))
  {
    hide Links, Settled;
    if Rewrites(o, ref, k) {
      BareRewriteLinks(o, ref, k, it);
    } else {
      BareSkipLinks(o, ref, k, it);
    }
  }

  lemma BareSkipLinks(o: Obs, ref: ItemRef, k: Key, it: Item)
    requires Links(o) && Settled(o, ref, Some(k), "") && it.path == "" && !Rewrites(o, ref, k)
    ensures Links(StoreSighting(o, ref, Sighting(Some(k), it)))
  {
    hide Linked, Owning, WellFormed, Kept, Named, Settled;
    var o2 := StoreSighting(o, ref, Sighting(Some(k), it));
    KeptStep(o.db.items, o.db.items, o.db.sightings, ref, Sighting(Some(k), it));
    if Live(o.db.instances, o.db.items[k]) {
      NamedKey(o, k);
    }
    NamedStep(o, o2, ref, Some(k), it, Sighting(Some(k), it), k) by {
      forall x | x in o2.db.items && x != k
        ensures Carried(o, o2, x)
      {
        LinkedKey(o.db.items, o.db.instances, x);
      }
    }
  }

  /** After GiveUp nothing live rests on what ref's sighting said before. */
  lemma GiveUpSettles(o: Obs, ref: ItemRef, key: Option<Key>, p: string)
    requires Links(o) && GiveUp(o, ref, key, p).Success?
    ensures Settled(GiveUp(o, ref, key, p).value, ref, key, p)
  {
    hide Release, Linked, Owning, WellFormed, Kept, Named;
    var o1 := GiveUp(o, ref, key, p).value;
    if ref in o.db.sightings && (o.db.sightings[ref].key != key || o.db.sightings[ref].item.path != p) {
      ReleaseShape(o, ref, o.db.sightings[ref]);
      ReleaseLinks(o, ref, o.db.sightings[ref]);
    }
    forall k | k in o1.db.items && o1.db.items[k].ref == ref && Live(o1.db.instances, o1.db.items[k])
      ensures || (o1.db.items[k].inst == 0 && k in o1.released)
              || (key == Some(k) && ref in o1.db.sightings && o1.db.sightings[ref].key == key && o1.db.sightings[ref].item.path == p)
    {
      NamedKey(o1, k);
    }
  }

  lemma TouchKeeps(o: Obs, a: Activation, key: Option<Key>)
    requires Weak(o, a)
    ensures Weak(Touch(o, key), a)
  {
    hide Linked, Owning, WellFormed, Kept, Named, Rows, Fresh;
  }

  /** What giving up a claim leaves alone. */
  ghost predicate SourceFrame(o: Obs, o1: Obs) {
    && o1.db.sightings == o.db.sightings && o1.db.stamps == o.db.stamps && o1.db.roots == o.db.roots
    && o1.db.passes == o.db.passes && o1.db.lastPass == o.db.lastPass && o1.db.stored == o.db.stored
  }

  lemma DetachFrame(o: Obs, id: InstId, k: Key)
    requires Detach(o, id, k).Success?
    ensures Grown(o, Detach(o, id, k).value) && SourceFrame(o, Detach(o, id, k).value)
    ensures Detach(o, id, k).value.db.overlaps == o.db.overlaps
  {
  }

  lemma ReleaseFrame(o: Obs, ref: ItemRef, was: Sighting)
    requires Release(o, ref, was).Success?
    ensures Grown(o, Release(o, ref, was).value) && SourceFrame(o, Release(o, ref, was).value)
    ensures Release(o, ref, was).value.db.overlaps == o.db.overlaps - {ref}
  {
    hide Detach;
    var o1 := o.(db := o.db.(overlaps := o.db.overlaps - {ref}));
    if was.key.Some? && was.key.value in o.db.items && o.db.items[was.key.value].ref == ref && o.db.items[was.key.value].inst != 0 {
      DetachFrame(o1, o.db.items[was.key.value].inst, was.key.value);
    }
  }

  lemma GiveUpFrame(o: Obs, ref: ItemRef, key: Option<Key>, p: string)
    requires GiveUp(o, ref, key, p).Success?
    ensures Grown(o, GiveUp(o, ref, key, p).value) && SourceFrame(o, GiveUp(o, ref, key, p).value)
  {
    hide Release;
    if ref in o.db.sightings && (o.db.sightings[ref].key != key || o.db.sightings[ref].item.path != p) {
      ReleaseFrame(o, ref, o.db.sightings[ref]);
    }
  }

  lemma GiveUpKeeps(o: Obs, a: Activation, ref: ItemRef, key: Option<Key>, p: string)
    requires Weak(o, a) && GiveUp(o, ref, key, p).Success?
    ensures Weak(GiveUp(o, ref, key, p).value, a)
  {
    hide Tidy, Release, Stamped;
    GiveUpFrame(o, ref, key, p);
    if ref in o.db.sightings && (o.db.sightings[ref].key != key || o.db.sightings[ref].item.path != p) {
      ReleaseKeeps(o, a, ref, o.db.sightings[ref]);
    }
  }
}
