/** Every report a source makes keeps the suspended invariant. */
module ObserveKeeps {
  import opened Wrappers
  import opened Media
  import opened Tables
  import opened Claims
  import opened AttachKeep
  import opened ClaimsKeep

  /** The root of ref is stored and stamped by this pass. */
  ghost predicate Ready(o: Obs, ref: ItemRef) {
    && ref.root.source == o.src && ref.item != ""
    && ref.root in o.db.roots && ItemRef(ref.root, "") in o.db.stamps && o.db.stamps[ItemRef(ref.root, "")] == o.pass
  }

  /* ---------- The other tables ---------- */

  lemma StampStep(o: Obs, ref: ItemRef, next: Sighting)
    requires Stamped(o.db.sightings, o.db.stamps, o.db.roots, o.db.passes, o.db.lastPass)
    requires Ready(o, ref) && Passing(o)
    ensures Stamped(o.db.sightings[ref := next], o.db.stamps[ref := o.pass], o.db.roots, o.db.passes, o.db.lastPass)
  {
  }

  lemma OverlapStep(sources: set<SourceId>, overlaps: map<ItemRef, Overlap>, sightings: map<ItemRef, Sighting>, ref: ItemRef, next: Sighting, put: Option<Overlap>)
    requires Overlapping(sources, overlaps, sightings)
    requires put.Some? ==> next.key.Some? && next.item.path != "" && put.value.owner in sources && put.value.owner != ref.root.source
    ensures Overlapping(sources, if put.Some? then overlaps[ref := put.value] else overlaps - {ref}, sightings[ref := next])
  {
  }

  /** An overlap row of ref rests on a sighting the report repeats. */
  ghost predicate Unchallenged(o: Obs, ref: ItemRef, key: Option<Key>, p: string) {
    ref in o.db.overlaps ==> ref in o.db.sightings && o.db.sightings[ref].key == key && o.db.sightings[ref].item.path == p
  }

  lemma GiveUpUnchallenged(o: Obs, ref: ItemRef, key: Option<Key>, p: string)
    requires Overlapping(o.db.stored.sources, o.db.overlaps, o.db.sightings)
    requires GiveUp(o, ref, key, p).Success?
    ensures Unchallenged(GiveUp(o, ref, key, p).value, ref, key, p)
  {
    hide Release;
    if ref in o.db.sightings && (o.db.sightings[ref].key != key || o.db.sightings[ref].item.path != p) {
      ReleaseFrame(o, ref, o.db.sightings[ref]);
    }
  }

  lemma PlainRows(o: Obs, o1: Obs, ref: ItemRef, next: Sighting, put: Option<Overlap>)
    requires Filed(o.db) && Ready(o, ref) && Passing(o)
    requires o1 == o.(db := o.db.(overlaps := if put.Some? then o.db.overlaps[ref := put.value] else o.db.overlaps - {ref}))
    requires put.Some? ==> next.key.Some? && next.item.path != "" && put.value.owner in o.db.stored.sources && put.value.owner != o.src
    ensures Filed(StoreSighting(o1, ref, next).db)
  {
    hide Stamped, Overlapping, Sourced, Held, Staging, NoStray;
    StampStep(o, ref, next);
    OverlapStep(o.db.stored.sources, o.db.overlaps, o.db.sightings, ref, next, put);
  }

  lemma BareRows(o: Obs, ref: ItemRef, k: Key, it: Item)
    requires Filed(o.db) && Ready(o, ref) && Passing(o) && it.path == "" && Unchallenged(o, ref, Some(k), "")
    ensures Filed(StoreSighting(NoVideo(o, ref, k), ref, Sighting(Some(k), it)).db)
  {
    hide Stamped, Sourced, Held, Staging, Overlapping, NoStray, NoVideo;
    var o1 := NoVideo(o, ref, k);
    BareFrame(o, ref, k);
    assert o.db.items.Keys <= o1.db.items.Keys;
    StampStep(o, ref, Sighting(Some(k), it));
    BareOverlaps(o, ref, k);
    OverlapStep(o.db.stored.sources, o.db.overlaps, o.db.sightings, ref, Sighting(Some(k), it), None);
    NoStrayMore(o.db.coverage, o.db.items, o1.db.items);
  }

  /** A key reported with no video moves at most its own record. */
  lemma BareFrame(o: Obs, ref: ItemRef, k: Key)
    ensures var o1 := NoVideo(o, ref, k);
            (o1 == o && k in o.db.items && o.db.items[k].ref != ref && !Rewrites(o, ref, k))
            || (o1 == o.(db := o.db.(items := o.db.items[k := Record(ref, 0)])) && Rewrites(o, ref, k))
  {
  }

  lemma BareOverlaps(o: Obs, ref: ItemRef, k: Key)
    requires Overlapping(o.db.stored.sources, o.db.overlaps, o.db.sightings) && Unchallenged(o, ref, Some(k), "")
    ensures o.db.overlaps - {ref} == o.db.overlaps
  {
  }

  lemma NoStrayMore(coverage: map<Key, seq<Covering>>, items: map<Key, Record>, more: map<Key, Record>)
    requires NoStray(coverage, items) && items.Keys <= more.Keys
    ensures NoStray(coverage, more)
  {
  }

  /* ---------- Attaching ---------- */

  lemma AttachedSourced(o: Obs, ref: ItemRef, k: Key, p: string, at: Option<InstId>)
    requires at.Some? ==> at.value in o.db.instances
    requires Sourced(o.db.stored.sources, o.db.roots, o.db.passes, o.db.instances) && Passing(o)
    ensures var after := AttachedDb(o, ref, k, JoinedBy(o, k, p, at));
            Sourced(after.stored.sources, after.roots, after.passes, after.instances)
  {
    hide JoinedBy, RowsWithout, Sourced;
    JoinedOwners(o, k, p, at);
    SourcedOwners(o.db, AttachedDb(o, ref, k, JoinedBy(o, k, p, at)).instances, o.src);
  }

  /** New owners among those of the activation keep sources in order. */
  lemma SourcedOwners(db: Db, instances: map<InstId, Instance>, src: SourceId)
    requires Sourced(db.stored.sources, db.roots, db.passes, db.instances) && src in db.stored.sources
    requires forall id | id in instances ::
               instances[id].owner == Some(src) || (id in db.instances && instances[id].owner == db.instances[id].owner)
    ensures Sourced(db.stored.sources, db.roots, db.passes, instances)
  {
  }

  lemma JoinedOwners(o: Obs, k: Key, p: string, at: Option<InstId>)
    requires at.Some? ==> at.value in o.db.instances
    ensures var j := JoinedBy(o, k, p, at);
            && j.inst.owner == Some(o.src)
            && forall id | id in j.instances :: id in o.db.instances && j.instances[id].owner == o.db.instances[id].owner
  {
    hide Unlinked;
  }

  lemma DropHeld(db: Db, id: InstId)
    requires Held(db.instances, db.files, db.baselines, db.local, db.embedded)
    ensures var after := DropInstance(db, id);
            Held(after.instances, after.files, after.baselines, after.local, after.embedded)
  {
  }

  lemma DropKeys(db: Db, id: InstId)
    ensures DropInstance(db, id).instances.Keys == db.instances.Keys - {id}
  {
  }

  lemma HeldMore(db: Db, more: map<InstId, Instance>)
    requires Held(db.instances, db.files, db.baselines, db.local, db.embedded)
    requires db.instances.Keys <= more.Keys
    ensures Held(more, db.files, db.baselines, db.local, db.embedded)
  {
  }

  lemma JoinedKeys(o: Obs, k: Key, p: string, at: Option<InstId>)
    requires at.Some? ==> at.value in o.db.instances
    ensures var j := JoinedBy(o, k, p, at);
            && (j.dropped.Some? ==> j.dropped.value in o.db.instances)
            && j.instances.Keys == o.db.instances.Keys - (if j.dropped.Some? then {j.dropped.value} else {})
  {
  }

  lemma AttachedHeld(o: Obs, ref: ItemRef, k: Key, p: string, at: Option<InstId>)
    requires at.Some? ==> at.value in o.db.instances
    requires Held(o.db.instances, o.db.files, o.db.baselines, o.db.local, o.db.embedded)
    ensures var after := AttachedDb(o, ref, k, JoinedBy(o, k, p, at));
            Held(after.instances, after.files, after.baselines, after.local, after.embedded)
  {
    hide Held, JoinedBy, DropInstance;
    var j := JoinedBy(o, k, p, at);
    JoinedKeys(o, k, p, at);
    if j.dropped.Some? {
      DropHeld(o.db, j.dropped.value);
      DropKeys(o.db, j.dropped.value);
      HeldMore(DropInstance(o.db, j.dropped.value), j.instances[j.id := j.inst]);
    } else {
      HeldMore(o.db, j.instances[j.id := j.inst]);
    }
  }

  /** A pinned instance an attach leaves as it was, but for its scene. */
  lemma AttachUnpinned(o: Obs, ref: ItemRef, k: Key, p: string, at: Option<InstId>, id: InstId)
    requires Linked(o.db.items, o.db.instances) && Owning(o.db.items, o.db.instances) && WellFormed(o.db.instances, o.db.lastInst)
    requires at.Some? ==> at.value in o.db.instances && o.db.instances[at.value].path == p && !OtherOwner(o, at.value)
    requires AttachKey(o, ref, k, p, at).Success?
    requires id in o.db.instances && Pinned(o.db.intents, id)
    ensures var j := JoinedBy(o, k, p, at);
            var after := j.instances[j.id := j.inst];
            id in after && after[id] == o.db.instances[id].(scene := after[id].scene)
  {
    hide Pinned;
    if at.Some? && at.value == id {
      PinnedAt(o, ref, k, p, id);
    } else {
      PinnedElsewhere(o, ref, k, p, at, id);
    }
  }

  lemma PinnedAt(o: Obs, ref: ItemRef, k: Key, p: string, id: InstId)
    requires Linked(o.db.items, o.db.instances) && Owning(o.db.items, o.db.instances)
    requires id in o.db.instances && !OtherOwner(o, id) && AttachKey(o, ref, k, p, Some(id)).Success?
    requires Pinned(o.db.intents, id)
    ensures var j := JoinedBy(o, k, p, Some(id));
            var after := j.instances[j.id := j.inst];
            id in after && after[id] == o.db.instances[id].(scene := after[id].scene)
  {
    hide Pinned, Linked, Owning;
  }

  lemma JoinedElsewhere(o: Obs, k: Key, p: string, at: Option<InstId>, id: InstId)
    requires WellFormed(o.db.instances, o.db.lastInst)
    requires at.Some? ==> at.value in o.db.instances && !OtherOwner(o, at.value)
    requires id in o.db.instances && at != Some(id) && !(k in o.db.items && o.db.items[k].inst == id)
    ensures var j := JoinedBy(o, k, p, at);
            var after := j.instances[j.id := j.inst];
            id in after && after[id] == o.db.instances[id]
  {
  }

  lemma PinnedElsewhere(o: Obs, ref: ItemRef, k: Key, p: string, at: Option<InstId>, id: InstId)
    requires Linked(o.db.items, o.db.instances) && Owning(o.db.items, o.db.instances) && WellFormed(o.db.instances, o.db.lastInst)
    requires at.Some? ==> at.value in o.db.instances && !OtherOwner(o, at.value)
    requires AttachKey(o, ref, k, p, at).Success? && at != Some(id)
    requires id in o.db.instances && Pinned(o.db.intents, id)
    ensures var j := JoinedBy(o, k, p, at);
            var after := j.instances[j.id := j.inst];
            id in after && after[id] == o.db.instances[id]
  {
    hide Pinned, Owning, JoinedBy;
    if k in o.db.items && o.db.items[k].inst == id {
      HeldUnpinned(o, ref, k, p, at);
    }
    JoinedElsewhere(o, k, p, at, id);
  }

  /** The instance an attach takes its key from was not pinned. */
  lemma HeldUnpinned(o: Obs, ref: ItemRef, k: Key, p: string, at: Option<InstId>)
    requires Linked(o.db.items, o.db.instances) && WellFormed(o.db.instances, o.db.lastInst)
    requires at.Some? ==> at.value in o.db.instances && !OtherOwner(o, at.value)
    requires AttachKey(o, ref, k, p, at).Success?
    requires k in o.db.items && o.db.items[k].inst != 0 && at != Some(o.db.items[k].inst)
    ensures !Pinned(o.db.intents, o.db.items[k].inst)
  {
    hide Join, Detach, Pinned;
    var id := o.db.items[k].inst;
    JoinSets(o, k, p, at, k, id);
    JoinIntents(o, k, p, at);
    var (o1, id1) := Join(o, at, k, p).value;
    assert id1 != id;
    DetachSets(o1, id, k);
  }

  lemma JoinIntents(o: Obs, k: Key, p: string, at: Option<InstId>)
    requires at.Some? ==> at.value in o.db.instances
    requires Join(o, at, k, p).Success?
    ensures Join(o, at, k, p).value.0.db.intents == o.db.intents
  {
    hide Expire, NewInstance, UnlinkAll, Pinned;
    NewIntents(o, k, p);
    if at.Some? {
      ExpireIntents(o, at.value);
      NewIntents(Expire(o, at.value), k, p);
      UnlinkIntents(o, o.db.instances[at.value].items, at.value);
    }
  }

  lemma NewIntents(o: Obs, k: Key, p: string)
    ensures NewInstance(o, k, p).0.db.intents == o.db.intents
  {
  }

  lemma UnlinkIntents(o: Obs, ks: seq<Key>, id: InstId)
    ensures UnlinkAll(o, ks, id).db.intents == o.db.intents
  {
  }

  lemma ExpireIntents(o: Obs, id: InstId)
    ensures Expire(o, id).db.intents == o.db.intents
  {
  }

  lemma StagedMore(inst: Instance, more: Instance, fk: FileKey, it: Intent)
    requires Staged(inst, fk, it) && more.items == inst.items
    ensures Staged(more, fk, it)
  {
  }

  lemma AttachedStaging(o: Obs, ref: ItemRef, k: Key, p: string, at: Option<InstId>)
    requires Linked(o.db.items, o.db.instances) && Owning(o.db.items, o.db.instances) && WellFormed(o.db.instances, o.db.lastInst)
    requires at.Some? ==> at.value in o.db.instances && o.db.instances[at.value].path == p && !OtherOwner(o, at.value)
    requires AttachKey(o, ref, k, p, at).Success? && Staging(o.db.instances, o.db.intents)
    ensures var j := JoinedBy(o, k, p, at);
            Staging(j.instances[j.id := j.inst], o.db.intents)
  {
    hide Linked, Owning, WellFormed, AttachKey, JoinedBy, Staged;
    var j := JoinedBy(o, k, p, at);
    var after := j.instances[j.id := j.inst];
    forall fk | fk in o.db.intents
      ensures fk.inst in after && Staged(after[fk.inst], fk, o.db.intents[fk])
    {
      assert Pinned(o.db.intents, fk.inst);
      AttachUnpinned(o, ref, k, p, at, fk.inst);
      StagedMore(o.db.instances[fk.inst], after[fk.inst], fk, o.db.intents[fk]);
    }
  }

  lemma AttachRows(o: Obs, ref: ItemRef, k: Key, it: Item, at: Option<InstId>)
    requires Linked(o.db.items, o.db.instances) && Owning(o.db.items, o.db.instances) && WellFormed(o.db.instances, o.db.lastInst)
    requires at.Some? ==> at.value in o.db.instances && o.db.instances[at.value].path == it.path && !OtherOwner(o, at.value)
    requires AttachKey(o, ref, k, it.path, at).Success?
    requires Filed(o.db) && Ready(o, ref) && Passing(o)
    ensures Filed(StoreSighting(AttachKey(o, ref, k, it.path, at).value, ref, Sighting(Some(k), it)).db)
  {
    hide Linked, Owning, WellFormed, AttachKey, JoinedBy, Stamped, Overlapping, Sourced, Held, Staging, NoStray;
    AttachShape(o, ref, k, it.path, at);
    AttachedStaging(o, ref, k, it.path, at);
    AttachedHeld(o, ref, k, it.path, at);
    AttachedSourced(o, ref, k, it.path, at);
    AttachSets(o, ref, k, it.path, at, k);
    StampStep(o, ref, Sighting(Some(k), it));
    OverlapStep(o.db.stored.sources, o.db.overlaps, o.db.sightings, ref, Sighting(Some(k), it), None);
    AttachGrows(o, ref, k, it.path, at);
    NoStrayMore(o.db.coverage, o.db.items, AttachKey(o, ref, k, it.path, at).value.db.items);
  }

  /* ---------- Coverage ---------- */

  /** x rests on exactly what it rested on before. */
  ghost predicate Steady(o: Obs, o1: Obs, a: Activation, ref: ItemRef, x: Key) {
    && x in o.db.items && x in o1.db.items && o1.db.items[x] == o.db.items[x] && o.db.items[x].ref != ref
    && Live(o.db.instances, o.db.items[x])
    && (o.db.items[x].inst != 0 ==> EvidenceOf(o1.db, a.codecs, o.db.items[x].inst) == EvidenceOf(o.db, a.codecs, o.db.items[x].inst))
  }

  lemma CurrentStep(o: Obs, o1: Obs, a: Activation, ref: ItemRef, next: Sighting)
    requires Current(o.db, a, o.touched) && o.touched <= o1.touched
    requires o1.db.coverage == o.db.coverage && o1.db.locks == o.db.locks && o1.db.sightings == o.db.sightings[ref := next]
    requires forall x | x in o1.db.items && Live(o1.db.instances, o1.db.items[x]) && x !in o1.touched :: Steady(o, o1, a, ref, x)
    ensures Current(o1.db, a, o1.touched)
  {
    forall x | x in o1.db.items && Live(o1.db.instances, o1.db.items[x]) && x !in o1.touched
      ensures Fresh(o1.db, a, x)
    {
      assert Steady(o, o1, a, ref, x);
      FreshFrame(o.db, o1.db, a, x);
    }
  }

  /** A live record of another key than the one reported names another sighting. */
  lemma OtherRef(o: Obs, ref: ItemRef, key: Option<Key>, p: string, x: Key)
    requires Settled(o, ref, key, p) && o.released <= o.touched
    requires x in o.db.items && Live(o.db.instances, o.db.items[x]) && x !in o.touched && key != Some(x)
    ensures o.db.items[x].ref != ref
  {
  }

  lemma AttachedEvidence(o: Obs, ref: ItemRef, k: Key, p: string, at: Option<InstId>, codecs: set<string>, id: InstId)
    requires at.Some? ==> at.value in o.db.instances
    requires JoinedBy(o, k, p, at).dropped != Some(id)
    ensures EvidenceOf(AttachedDb(o, ref, k, JoinedBy(o, k, p, at)), codecs, id) == EvidenceOf(o.db, codecs, id)
  {
    hide JoinedBy;
    var j := JoinedBy(o, k, p, at);
    if j.dropped.Some? {
      DropEvidence(o.db, {j.dropped.value}, codecs, id);
    }
  }

  lemma AttachSteady(o: Obs, a: Activation, ref: ItemRef, k: Key, it: Item, at: Option<InstId>, x: Key)
    requires Linked(o.db.items, o.db.instances) && Owning(o.db.items, o.db.instances) && WellFormed(o.db.instances, o.db.lastInst)
    requires at.Some? ==> at.value in o.db.instances && o.db.instances[at.value].path == it.path && !OtherOwner(o, at.value)
    requires Settled(o, ref, Some(k), it.path) && o.released <= o.touched && k in o.touched
    requires AttachKey(o, ref, k, it.path, at).Success?
    requires var o1 := AttachKey(o, ref, k, it.path, at).value;
             x in o1.db.items && Live(o1.db.instances, o1.db.items[x]) && x !in o1.touched
    ensures Steady(o, AttachKey(o, ref, k, it.path, at).value, a, ref, x)
  {
    hide Owning, AttachKey, Settled, WellFormed, Linked, EvidenceOf;
    AttachShape(o, ref, k, it.path, at);
    AttachSets(o, ref, k, it.path, at, x);
    assert x != k;
    var i := o.db.items[x].inst;
    if i != 0 {
      LinkedKey(o.db.items, o.db.instances, x);
      JoinedFrame(o, k, it.path, at, x);
      JoinedDropped(o, k, it.path, at);
      AttachedEvidence(o, ref, k, it.path, at, a.codecs, i);
    }
    OtherRef(o, ref, Some(k), it.path, x);
  }

  lemma JoinedDropped(o: Obs, k: Key, p: string, at: Option<InstId>)
    requires at.Some? ==> at.value in o.db.instances
    ensures var j := JoinedBy(o, k, p, at);
            j.dropped.Some? ==> j.dropped == at && forall x | x in o.db.items && x in o.db.instances[at.value].items && o.db.items[x].inst == at.value :: j.items[x].inst == 0
  {
  }

  /* ---------- One item ---------- */

  /** What a claim leaves of its write's own frame. */
  ghost predicate SameWrite(o: Obs, o1: Obs) {
    && o1.src == o.src && o1.pass == o.pass && o1.now == o.now && o1.scene == o.scene
    && o1.db.roots == o.db.roots && o1.db.stored == o.db.stored && o1.db.passes == o.db.passes && o1.db.lastPass == o.db.lastPass
  }

  lemma AttachFrame(o: Obs, ref: ItemRef, k: Key, p: string, at: Option<InstId>)
    requires Linked(o.db.items, o.db.instances) && Owning(o.db.items, o.db.instances) && WellFormed(o.db.instances, o.db.lastInst)
    requires at.Some? ==> at.value in o.db.instances && o.db.instances[at.value].path == p && !OtherOwner(o, at.value)
    requires AttachKey(o, ref, k, p, at).Success?
    ensures var o1 := AttachKey(o, ref, k, p, at).value;
            && Grown(o, o1) && SameWrite(o, o1) && o1.db.sightings == o.db.sightings && o1.db.stamps == o.db.stamps
            && o1.db.coverage == o.db.coverage && o1.db.locks == o.db.locks
  {
    hide AttachKey, Linked, Owning, WellFormed, JoinedBy, AttachedDb;
    AttachShape(o, ref, k, p, at);
    AttachedFrame(o, ref, k, JoinedBy(o, k, p, at));
    AttachSets(o, ref, k, p, at, k);
  }

  lemma AttachedFrame(o: Obs, ref: ItemRef, k: Key, j: Joined)
    ensures var after := AttachedDb(o, ref, k, j);
            && after.sightings == o.db.sightings && after.stamps == o.db.stamps && after.coverage == o.db.coverage && after.locks == o.db.locks
            && after.roots == o.db.roots && after.stored == o.db.stored && after.passes == o.db.passes && after.lastPass == o.db.lastPass
  {
    hide RowsWithout;
    if j.dropped.Some? {
    } else {
    }
  }

  lemma AttachCurrent(o: Obs, a: Activation, ref: ItemRef, k: Key, it: Item, at: Option<InstId>)
    requires Linked(o.db.items, o.db.instances) && Owning(o.db.items, o.db.instances) && WellFormed(o.db.instances, o.db.lastInst)
    requires at.Some? ==> at.value in o.db.instances && o.db.instances[at.value].path == it.path && !OtherOwner(o, at.value)
    requires Settled(o, ref, Some(k), it.path) && o.released <= o.touched && k in o.touched && Current(o.db, a, o.touched)
    requires AttachKey(o, ref, k, it.path, at).Success?
    ensures var o2 := StoreSighting(AttachKey(o, ref, k, it.path, at).value, ref, Sighting(Some(k), it));
            Current(o2.db, a, o2.touched) && o2.released <= o2.touched
  {
    hide AttachKey, Settled, Linked, Owning, WellFormed, Current, Steady;
    var o1 := AttachKey(o, ref, k, it.path, at).value;
    var o2 := StoreSighting(o1, ref, Sighting(Some(k), it));
    AttachFrame(o, ref, k, it.path, at);
    forall x | x in o2.db.items && Live(o2.db.instances, o2.db.items[x]) && x !in o2.touched
      ensures Steady(o, o2, a, ref, x)
    {
      AttachSteady(o, a, ref, k, it, at, x);
      SteadyOn(o, o1, o2, a, ref, x);
    }
    CurrentStep(o, o2, a, ref, Sighting(Some(k), it));
  }

  lemma AttachWeak(o: Obs, a: Activation, ref: ItemRef, k: Key, it: Item)
    requires Weak(o, a) && Ready(o, ref) && it.path != "" && Settled(o, ref, Some(k), it.path) && k in o.touched
    requires var at := InstanceAt(o.db.instances, it.path); at.Some? ==> !OtherOwner(o, at.value)
    requires AttachKey(o, ref, k, it.path, InstanceAt(o.db.instances, it.path)).Success?
    ensures var o2 := StoreSighting(AttachKey(o, ref, k, it.path, InstanceAt(o.db.instances, it.path)).value, ref, Sighting(Some(k), it));
            Weak(o2, a) && SameWrite(o, o2) && o2.db.stamps == o.db.stamps[ref := o.pass]
  {
    hide AttachKey, Settled, Linked, Owning, WellFormed, Named, Kept, Rows, Stamped, Current;
    var at := InstanceAt(o.db.instances, it.path);
    AttachFrame(o, ref, k, it.path, at);
    AttachLinks(o, ref, k, it);
    AttachRows(o, ref, k, it, at);
    AttachCurrent(o, a, ref, k, it, at);
  }

  lemma SteadyOn(o: Obs, o1: Obs, o2: Obs, a: Activation, ref: ItemRef, x: Key)
    requires Steady(o, o1, a, ref, x) && o2.db.items == o1.db.items
    requires o2.db.files == o1.db.files && o2.db.local == o1.db.local && o2.db.embedded == o1.db.embedded
    ensures Steady(o, o2, a, ref, x)
  {
  }

  lemma PlainWeak(o: Obs, a: Activation, ref: ItemRef, key: Option<Key>, it: Item, next: Sighting, put: Option<Overlap>)
    requires Weak(o, a) && Ready(o, ref) && Settled(o, ref, key, it.path) && (key.Some? ==> key.value in o.touched)
    requires put.Some? ==> next.key.Some? && put.value.owner in o.db.stored.sources && put.value.owner != o.src
    requires next.item == it && (next.key == key || next.key.None?)
    requires next.key.Some? ==> it.path != ""
    requires key.Some? && next.key.None? ==> key.value in o.db.items && o.db.items[key.value].ref != ref
    ensures var o1 := o.(db := o.db.(overlaps := if put.Some? then o.db.overlaps[ref := put.value] else o.db.overlaps - {ref}));
            var o2 := StoreSighting(o1, ref, next);
            Weak(o2, a) && SameWrite(o, o2) && o2.db.stamps == o.db.stamps[ref := o.pass]
  {
    hide Settled, Links, Rows, Stamped, Current, Steady;
    var o1 := o.(db := o.db.(overlaps := if put.Some? then o.db.overlaps[ref := put.value] else o.db.overlaps - {ref}));
    var o2 := StoreSighting(o1, ref, next);
    PlainLinks(o, o1, ref, key, it, next);
    PlainRows(o, o1, ref, next, put);
    forall x | x in o2.db.items && Live(o2.db.instances, o2.db.items[x]) && x !in o2.touched
      ensures Steady(o, o2, a, ref, x)
    {
      OtherRef(o, ref, key, it.path, x);
      SteadySame(o, o2, a, ref, x);
    }
    CurrentStep(o, o2, a, ref, next);
  }

  lemma SteadySame(o: Obs, o1: Obs, a: Activation, ref: ItemRef, x: Key)
    requires x in o.db.items && x in o1.db.items && o1.db.items[x] == o.db.items[x] && o.db.items[x].ref != ref
    requires Live(o.db.instances, o.db.items[x])
    requires o1.db.files == o.db.files && o1.db.local == o.db.local && o1.db.embedded == o.db.embedded
    ensures Steady(o, o1, a, ref, x)
  {
  }

  lemma BareWeak(o: Obs, a: Activation, ref: ItemRef, k: Key, it: Item)
    requires Weak(o, a) && Ready(o, ref) && Settled(o, ref, Some(k), "") && it.path == "" && k in o.touched && Unchallenged(o, ref, Some(k), "")
    ensures var o2 := StoreSighting(NoVideo(o, ref, k), ref, Sighting(Some(k), it));
            Weak(o2, a) && SameWrite(o, o2) && o2.db.stamps == o.db.stamps[ref := o.pass]
  {
    hide Settled, Links, Rows, Stamped, Current, Steady, NoVideo;
    var o1 := NoVideo(o, ref, k);
    var o2 := StoreSighting(o1, ref, Sighting(Some(k), it));
    BareFrame(o, ref, k);
    BareLinks(o, ref, k, it);
    BareRows(o, ref, k, it);
    forall x | x in o2.db.items && Live(o2.db.instances, o2.db.items[x]) && x !in o2.touched
      ensures Steady(o, o2, a, ref, x)
    {
      OtherRef(o, ref, Some(k), "", x);
      SteadySame(o, o2, a, ref, x);
    }
    CurrentStep(o, o2, a, ref, Sighting(Some(k), it));
  }

  /** An identified sighting's claim, and its sighting stored. */
  lemma ClaimWeak(o: Obs, a: Activation, ref: ItemRef, k: Key, it: Item)
    requires Weak(o, a) && Ready(o, ref) && Settled(o, ref, Some(k), it.path) && k in o.touched && Unchallenged(o, ref, Some(k), it.path)
    requires Claim(o, ref, k, it.path).Success?
    ensures var c := Claim(o, ref, k, it.path).value;
            var o2 := StoreSighting(c.0, ref, Sighting(if c.1 then Some(k) else None, it));
            Weak(o2, a) && SameWrite(o, o2) && o2.db.stamps == o.db.stamps[ref := o.pass]
  {
    hide Weak, Settled, NoVideo, AttachKey, Ready, SameWrite, StoreSighting;
    var p := it.path;
    if p == "" {
      BareWeak(o, a, ref, k, it);
    } else {
      var at := InstanceAt(o.db.instances, p);
      var rec := RecordOf(o.db.items, k);
      var rival := Rival(o, at, rec);
      if rival.Some? {
        RivalActive(o, a, at, rec);
        PlainWeak(o, a, ref, Some(k), it, Sighting(Some(k), it), rival);
      } else if IsHeld(rec) && rec.value.ref != ref && rec.value.ref.root.source == o.src && HeldElsewhere(o, rec.value) {
        var keyed := at == Some(rec.value.inst);
        PlainWeak(o, a, ref, Some(k), it, Sighting(if keyed then Some(k) else None, it), None);
      } else {
        AttachWeak(o, a, ref, k, it);
      }
    }
  }

  lemma RivalActive(o: Obs, a: Activation, at: Option<InstId>, rec: Option<Record>)
    requires Weak(o, a) && Rival(o, at, rec).Some?
    ensures Rival(o, at, rec).value.owner in o.db.stored.sources && Rival(o, at, rec).value.owner != o.src
  {
    hide Links, Stamped, Overlapping, Held, Staging, NoStray, Current;
  }

  /** The whole of an item's observation. */
  lemma ObserveItemKeeps(o: Obs, a: Activation, ref: ItemRef, root: Root, it: Item)
    requires Weak(o, a) && Ready(o, ref) && ObserveItem(o, ref, root, it).Success?
    ensures var o2 := ObserveItem(o, ref, root, it).value;
            Weak(o2, a) && SameWrite(o, o2) && o2.db.stamps == o.db.stamps[ref := o.pass]
  {
    hide Weak, Settled, GiveUp, Claim, StoreSighting, ItemKey;
    var key := ItemKey(root, it);
    var o0 := Touch(o, key);
    var o1 := GiveUp(o0, ref, key, it.path).value;
    TouchKeeps(o, a, key);
    GiveUpReady(o0, a, ref, key, it.path);
    if key.None? {
      PlainWeak(o1, a, ref, None, it, Sighting(None, it), None);
      NoOverlap(o1, a, ref, it.path);
    } else {
      ClaimWeak(o1, a, ref, key.value, it);
    }
  }

  lemma GiveUpReady(o: Obs, a: Activation, ref: ItemRef, key: Option<Key>, p: string)
    requires Weak(o, a) && Ready(o, ref) && GiveUp(o, ref, key, p).Success?
    ensures var o1 := GiveUp(o, ref, key, p).value;
            && Weak(o1, a) && Ready(o1, ref) && Settled(o1, ref, key, p) && Unchallenged(o1, ref, key, p)
            && SameWrite(o, o1) && o1.db.stamps == o.db.stamps && o.touched <= o1.touched
  {
    hide Links, Current, Settled, GiveUp, Stamped, Held, Staging, NoStray, Sourced, Overlapping;
    GiveUpKeeps(o, a, ref, key, p);
    GiveUpFrame(o, ref, key, p);
    GiveUpSettles(o, ref, key, p);
    GiveUpUnchallenged(o, ref, key, p);
  }

  /** An unidentified sighting has no overlap row to drop. */
  lemma NoOverlap(o: Obs, a: Activation, ref: ItemRef, p: string)
    requires Weak(o, a) && Unchallenged(o, ref, None, p)
    ensures o.db.overlaps - {ref} == o.db.overlaps
  {
  }

  /* ---------- A report ---------- */

  ghost predicate Opened(db: Db, src: SourceId, pass: PassId) {
    src in db.passes && db.passes[src].id == pass
  }

  lemma BeginWeak(db: Db, a: Activation, src: SourceId, pass: PassId, now: Time)
    requires Inv(db, Some(a)) && Opened(db, src, pass)
    ensures Weak(Begun(db, src, pass, now), a)
  {
    hide Linked, Owning, WellFormed, Kept, Overlapping, Held, Staging, NoStray, Current, Named;
  }

  lemma StampRootKeeps(o: Obs, a: Activation, root: Root, scene: map<string, string>)
    requires Weak(o, a) && Opened(o.db, o.src, o.pass)
    ensures var rr := RootRef(o.src, root.native);
            var o1 := StampRoot(o, rr, root).(scene := scene);
            Weak(o1, a) && rr in o1.db.roots && ItemRef(rr, "") in o1.db.stamps && o1.db.stamps[ItemRef(rr, "")] == o.pass
  {
    hide Links, Overlapping, Held, Staging, NoStray, Stamped, Sourced, Current, Opened;
    var rr := RootRef(o.src, root.native);
    var o1 := StampRoot(o, rr, root).(scene := scene);
    RootStamp(o, rr, root);
    RootSourced(o, rr, root);
    LinksOn(o, o1);
    CurrentOn(o.db, o1.db, a, o.touched);
  }

  lemma LinksOn(o: Obs, o1: Obs)
    requires Links(o) && o1.db.items == o.db.items && o1.db.instances == o.db.instances && o1.db.lastInst == o.db.lastInst
    requires o1.db.sightings == o.db.sightings && o1.released == o.released && o1.emptied == o.emptied
    ensures Links(o1)
  {
  }

  lemma CurrentOn(db: Db, db1: Db, a: Activation, stale: set<Key>)
    requires Current(db, a, stale)
    requires db1.items == db.items && db1.instances == db.instances && db1.sightings == db.sightings && db1.coverage == db.coverage && db1.locks == db.locks
    requires db1.files == db.files && db1.local == db.local && db1.embedded == db.embedded
    ensures Current(db1, a, stale)
  {
    forall k | k in db1.items && Live(db1.instances, db1.items[k]) && k !in stale
      ensures Fresh(db1, a, k)
    {
      assert Fresh(db, a, k);
      FreshFrame(db, db1, a, k);
    }
  }

  lemma RootStamp(o: Obs, rr: RootRef, root: Root)
    requires Stamped(o.db.sightings, o.db.stamps, o.db.roots, o.db.passes, o.db.lastPass)
    requires Opened(o.db, o.src, o.pass) && rr.source == o.src
    ensures Stamped(o.db.sightings, o.db.stamps[ItemRef(rr, "") := o.pass], o.db.roots[rr := root], o.db.passes, o.db.lastPass)
  {
  }

  lemma RootSourced(o: Obs, rr: RootRef, root: Root)
    requires Sourced(o.db.stored.sources, o.db.roots, o.db.passes, o.db.instances) && Passing(o) && rr.source == o.src
    ensures Sourced(o.db.stored.sources, o.db.roots[rr := root], o.db.passes, o.db.instances)
  {
  }

  /** The report's checks: no item without an id. */
  predicate Identified(items: seq<Item>) {
    forall i | 0 <= i < |items| :: items[i].native != ""
  }

  lemma {:induction false} ObserveAllKeeps(o: Obs, a: Activation, rr: RootRef, root: Root, items: seq<Item>)
    requires Weak(o, a) && rr.source == o.src && rr in o.db.roots && ItemRef(rr, "") in o.db.stamps && o.db.stamps[ItemRef(rr, "")] == o.pass
    requires Identified(items) && ObserveAll(o, rr, root, items).Success?
    ensures var o1 := ObserveAll(o, rr, root, items).value;
            Weak(o1, a) && SameWrite(o, o1) && ItemRef(rr, "") in o1.db.stamps && o1.db.stamps[ItemRef(rr, "")] == o.pass
  {
    hide Weak, ObserveItem;
    if items != [] {
      var last := items[|items| - 1];
      ObserveAllKeeps(o, a, rr, root, items[..|items| - 1]);
      ObserveItemKeeps(ObserveAll(o, rr, root, items[..|items| - 1]).value, a, ItemRef(rr, last.native), root, last);
    }
  }

  /** A report leaves the suspended invariant, whatever it says. */
  lemma ReportKeeps(db: Db, a: Activation, src: SourceId, pass: PassId, now: Time, root: Root, items: seq<Item>)
    requires Inv(db, Some(a)) && Opened(db, src, pass) && Identified(items)
    requires Observe(Begun(db, src, pass, now), root, items).Success?
    ensures Weak(Observe(Begun(db, src, pass, now), root, items).value, a)
  {
    hide Weak, Inv, ObserveAll, StampRoot;
    var o := Begun(db, src, pass, now);
    BeginWeak(db, a, src, pass, now);
    StampRootKeeps(o, a, root, Scenes(items));
    StampRootSame(o, RootRef(src, root.native), root);
    ObserveAllKeeps(StampRoot(o, RootRef(src, root.native), root).(scene := Scenes(items)), a, RootRef(src, root.native), root, items);
  }

  lemma StampRootSame(o: Obs, rr: RootRef, root: Root)
    ensures StampRoot(o, rr, root).src == o.src && StampRoot(o, rr, root).pass == o.pass
  {
  }

  /* ---------- The only refusal ---------- */

  /** What is refused is refused for a write that waits on an instance. */
  ghost predicate OnlyPins<T>(intents: map<FileKey, Intent>, r: Result<T, StoreError>) {
    r.Failure? ==> r.error.PinnedInstance? && Pinned(intents, r.error.id)
  }

  lemma DetachRefusal(o: Obs, id: InstId, k: Key)
    ensures var r := Detach(o, id, k); OnlyPins(o.db.intents, r) && (r.Success? ==> r.value.db.intents == o.db.intents)
  {
  }

  lemma GiveUpRefusal(o: Obs, ref: ItemRef, key: Option<Key>, p: string)
    ensures var r := GiveUp(o, ref, key, p); OnlyPins(o.db.intents, r) && (r.Success? ==> r.value.db.intents == o.db.intents)
  {
    hide Release, Pinned;
    if ref in o.db.sightings {
      ReleaseRefusal(o, ref, o.db.sightings[ref]);
    }
  }

  lemma ReleaseRefusal(o: Obs, ref: ItemRef, was: Sighting)
    ensures var r := Release(o, ref, was); OnlyPins(o.db.intents, r) && (r.Success? ==> r.value.db.intents == o.db.intents)
  {
    hide Detach, Pinned;
    if was.key.Some? && was.key.value in o.db.items {
      DetachRefusal(o.(db := o.db.(overlaps := o.db.overlaps - {ref})), o.db.items[was.key.value].inst, was.key.value);
    }
  }

  lemma JoinRefusal(o: Obs, at: Option<InstId>, k: Key, p: string)
    requires at.Some? ==> at.value in o.db.instances
    ensures var r := Join(o, at, k, p); OnlyPins(o.db.intents, r) && (r.Success? ==> r.value.0.db.intents == o.db.intents)
  {
    hide Pinned, NewInstance, Expire, UnlinkAll, SceneAt;
    if Join(o, at, k, p).Success? {
      JoinIntents(o, k, p, at);
    }
  }

  lemma AttachRefusal(o: Obs, ref: ItemRef, k: Key, p: string, at: Option<InstId>)
    requires at.Some? ==> at.value in o.db.instances
    ensures var r := AttachKey(o, ref, k, p, at); OnlyPins(o.db.intents, r) && (r.Success? ==> r.value.db.intents == o.db.intents)
  {
    hide Detach, Join, Pinned;
    JoinRefusal(o, at, k, p);
    var j := Join(o, at, k, p);
    if j.Success? && k in o.db.items {
      DetachRefusal(j.value.0, o.db.items[k].inst, k);
    }
  }

  lemma ClaimRefusal(o: Obs, ref: ItemRef, k: Key, p: string)
    ensures var r := Claim(o, ref, k, p); OnlyPins(o.db.intents, r) && (r.Success? ==> r.value.0.db.intents == o.db.intents)
  {
    hide AttachOrOverlap, Pinned;
    VideoRefusal(o, ref, k, p);
  }

  lemma VideoRefusal(o: Obs, ref: ItemRef, k: Key, p: string)
    ensures var r := AttachOrOverlap(o, ref, k, p); OnlyPins(o.db.intents, r) && (r.Success? ==> r.value.0.db.intents == o.db.intents)
  {
    hide AttachKey, AttachOrOverlap, Pinned, InstanceAt;
    var at := InstanceAt(o.db.instances, p);
    AttachRefusal(o, ref, k, p, at);
    if AttachOrOverlap(o, ref, k, p).Success? {
      AttachedOrNoted(o, ref, k, p);
    } else {
      OverlapRefusal(o, ref, k, p);
    }
  }

  lemma OverlapRefusal(o: Obs, ref: ItemRef, k: Key, p: string)
    requires AttachOrOverlap(o, ref, k, p).Failure?
    ensures var attached := AttachKey(o, ref, k, p, InstanceAt(o.db.instances, p));
            attached.Failure? && AttachOrOverlap(o, ref, k, p).error == attached.error
  {
    hide AttachKey, Rival, HeldElsewhere, InstanceAt;
  }

  /** A write pins what it needs: nothing else stops a report. */
  lemma {:induction false} ObserveAllRefusal(o: Obs, rr: RootRef, root: Root, items: seq<Item>)
    ensures var r := ObserveAll(o, rr, root, items); OnlyPins(o.db.intents, r) && (r.Success? ==> r.value.db.intents == o.db.intents)
  {
    hide GiveUp, Claim, Pinned;
    if items != [] {
      var last := items[|items| - 1];
      ObserveAllRefusal(o, rr, root, items[..|items| - 1]);
      var before := ObserveAll(o, rr, root, items[..|items| - 1]);
      if before.Success? {
        var ref := ItemRef(rr, last.native);
        var key := ItemKey(root, last);
        var o1 := GiveUp(Touch(before.value, key), ref, key, last.path);
        GiveUpRefusal(Touch(before.value, key), ref, key, last.path);
        if o1.Success? && key.Some? {
          ClaimRefusal(o1.value, ref, key.value, last.path);
        }
      }
    }
  }
}
