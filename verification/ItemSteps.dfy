/** What one reported item does to the instances of its source, and to the keys
    they hold. */
module ItemSteps {
  import opened Wrappers
  import opened Media
  import opened Tables
  import opened Claims
  import opened AttachKeep
  import opened ClaimsKeep
  import opened ObserveKeeps

  /* ---------- Where keys are held ---------- */

  /** The record of a key some instance holds. */
  function HeldAt(db: Db, x: Key): Option<Record> {
    if x in db.items && db.items[x].inst != 0 then Some(db.items[x]) else None
  }

  predicate Owned(instances: map<InstId, Instance>, id: InstId) {
    id in instances && instances[id].owner.Some?
  }

  predicate AdriftAt(instances: map<InstId, Instance>, id: InstId, p: string) {
    id in instances && instances[id].owner.None? && instances[id].path == p
  }

  /** Another live source owns the path, or the instance that holds the key. */
  ghost predicate Foreign(o: Obs, k: Key, p: string) {
    || (exists id :: id in o.db.instances && o.db.instances[id].path == p && OtherOwner(o, id))
    || (HeldAt(o.db, k).Some? && OtherOwner(o, HeldAt(o.db, k).value.inst))
  }

  /** k is held for another sighting of this source, already reported in this pass. */
  predicate Taken(o: Obs, ref: ItemRef, k: Key) {
    && HeldAt(o.db, k).Some? && HeldAt(o.db, k).value.ref != ref
    && HeldAt(o.db, k).value.ref.root.source == o.src && HeldElsewhere(o, HeldAt(o.db, k).value)
  }

  ghost predicate Attaching(o: Obs, ref: ItemRef, key: Option<Key>, p: string) {
    key.Some? && p != "" && !Foreign(o, key.value, p) && !Taken(o, ref, key.value)
  }

  /** ref's sighting was stored under x, and x's record is still its own. */
  predicate Gives(db: Db, ref: ItemRef, x: Key) {
    x in db.items && db.items[x].ref == ref && ref in db.sightings && db.sightings[ref].key == Some(x)
  }

  /** An item reported under another key takes x from its instance by giving it
      up, or by taking over an ownerless instance that held it. */
  ghost predicate Moved(o: Obs, o1: Obs, ref: ItemRef, p: string, over: bool, x: Key) {
    HeldAt(o1.db, x) ==
      if Gives(o.db, ref, x) then None
      else if over && HeldAt(o.db, x).Some? && AdriftAt(o.db.instances, HeldAt(o.db, x).value.inst, p) then None
      else HeldAt(o.db, x)
  }

  /** k is held for ref by an instance of src at p. */
  ghost predicate Joins(db: Db, src: SourceId, ref: ItemRef, k: Key, p: string) {
    && HeldAt(db, k).Some? && HeldAt(db, k).value.ref == ref
    && var id := HeldAt(db, k).value.inst; id in db.instances && db.instances[id].path == p && db.instances[id].owner == Some(src)
  }

  /** A key that is not attached stays where it is held, unless for this very
      item by an owned instance: then nothing holds it. */
  ghost predicate Left(o: Obs, o1: Obs, ref: ItemRef, k: Key) {
    && (HeldAt(o1.db, k).Some? ==> HeldAt(o1.db, k) == HeldAt(o.db, k))
    && (HeldAt(o.db, k).Some? && HeldAt(o.db, k).value.ref != ref ==> HeldAt(o1.db, k) == HeldAt(o.db, k))
    && (HeldAt(o.db, k).Some? && HeldAt(o.db, k).value.ref == ref && Owned(o.db.instances, HeldAt(o.db, k).value.inst) ==> HeldAt(o1.db, k).None?)
  }

  /** Owned instances stay, with path, owner and file records; an ownerless one
      leaves that state only at p; and only src gains any. */
  ghost predicate Stand(db: Db, db1: Db, src: SourceId, over: bool, p: string) {
    && (forall id | Owned(db.instances, id) ::
          id in db1.instances && db1.instances[id].path == db.instances[id].path && db1.instances[id].owner == db.instances[id].owner)
    && (forall id | id in db.instances && db.instances[id].owner.None? && !(over && db.instances[id].path == p) ::
          AdriftAt(db1.instances, id, db.instances[id].path))
    && (forall id | id in db1.instances && db1.instances[id].owner.None? ::
          AdriftAt(db.instances, id, db1.instances[id].path) && !(over && db1.instances[id].path == p))
    && (forall id | Owned(db1.instances, id) && db1.instances[id].owner != Some(src) ::
          Owned(db.instances, id) && db1.instances[id].path == db.instances[id].path && db1.instances[id].owner == db.instances[id].owner)
    && (forall fk: FileKey | Owned(db.instances, fk.inst) ::
          (fk in db1.files <==> fk in db.files) && (fk in db.files ==> db1.files[fk] == db.files[fk]))
  }

  /* ---------- Giving up ---------- */

  /** The same instances, with their paths and owners, and the same files. */
  ghost predicate Alike(db: Db, db1: Db) {
    && db1.files == db.files && db1.instances.Keys == db.instances.Keys
    && forall id | id in db.instances :: db1.instances[id].path == db.instances[id].path && db1.instances[id].owner == db.instances[id].owner
  }

  lemma DetachAlike(o: Obs, id: InstId, k: Key)
    requires Detach(o, id, k).Success?
    ensures Alike(o.db, Detach(o, id, k).value.db) && Detach(o, id, k).value.db.items == o.db.items
  {
  }

  lemma ReleaseAlike(o: Obs, ref: ItemRef, was: Sighting)
    requires Release(o, ref, was).Success?
    ensures Alike(o.db, Release(o, ref, was).value.db)
    ensures Release(o, ref, was).value.db.items ==
            if was.key.None? || was.key.value !in o.db.items || o.db.items[was.key.value].ref != ref then o.db.items
            else o.db.items[was.key.value := o.db.items[was.key.value].(inst := 0)]
  {
    hide Detach;
    var o1 := o.(db := o.db.(overlaps := o.db.overlaps - {ref}));
    if was.key.Some? && was.key.value in o.db.items && o.db.items[was.key.value].ref == ref && o.db.items[was.key.value].inst != 0 {
      DetachAlike(o1, o.db.items[was.key.value].inst, was.key.value);
    }
  }

  lemma GiveUpAlike(o: Obs, ref: ItemRef, key: Option<Key>, p: string)
    requires GiveUp(o, ref, key, p).Success?
    ensures Alike(o.db, GiveUp(o, ref, key, p).value.db)
  {
    hide Release, Alike;
    AlikeSelf(o.db);
    if ref in o.db.sightings {
      ReleaseIfAlike(o, ref, o.db.sightings[ref]);
    }
  }

  lemma ReleaseIfAlike(o: Obs, ref: ItemRef, was: Sighting)
    ensures Release(o, ref, was).Success? ==> Alike(o.db, Release(o, ref, was).value.db)
  {
    if Release(o, ref, was).Success? {
      ReleaseAlike(o, ref, was);
    }
  }

  /** Giving up frees exactly the key the stored sighting had, when the report
      differs from it. */
  lemma GiveUpFrees(o: Obs, ref: ItemRef, key: Option<Key>, p: string, x: Key)
    requires GiveUp(o, ref, key, p).Success?
    ensures var o1 := GiveUp(o, ref, key, p).value;
            && (x in o1.db.items <==> x in o.db.items)
            && (x in o.db.items ==> o1.db.items[x].ref == o.db.items[x].ref)
            && HeldAt(o1.db, x) == if Gives(o.db, ref, x) && (key != Some(x) || o.db.sightings[ref].item.path != p) then None else HeldAt(o.db, x)
  {
    hide Release, Alike;
    if ref in o.db.sightings && (o.db.sightings[ref].key != key || o.db.sightings[ref].item.path != p) {
      ReleaseAlike(o, ref, o.db.sightings[ref]);
    }
  }

  lemma AlikeSelf(db: Db)
    ensures Alike(db, db)
  {
  }

  /* ---------- Attaching ---------- */

  lemma RivalForeign(o: Obs, k: Key, p: string)
    requires WellFormed(o.db.instances, o.db.lastInst)
    ensures Rival(o, InstanceAt(o.db.instances, p), RecordOf(o.db.items, k)).Some? <==> Foreign(o, k, p)
  {
    var at := InstanceAt(o.db.instances, p);
    forall id | id in o.db.instances && o.db.instances[id].path == p
      ensures at == Some(id)
    {
    }
  }

  lemma FreedRow(items: map<Key, Record>, instances: map<InstId, Instance>, k: Key, id: InstId)
    ensures var after := FreedInstances(items, instances, k);
            && (id in after <==> id in instances)
            && (id in instances ==> after[id].path == instances[id].path && after[id].owner == instances[id].owner)
  {
  }

  /** An instance once k is attached at p: as it was, but for its scene and its
      keys; src's at p, if it was ownerless there or is new; or expired. */
  lemma AttachRow(o: Obs, ref: ItemRef, k: Key, p: string, at: Option<InstId>, id: InstId)
    requires WellFormed(o.db.instances, o.db.lastInst)
    requires at == InstanceAt(o.db.instances, p) && (at.Some? ==> !OtherOwner(o, at.value))
    ensures var after := AttachedDb(o, ref, k, JoinedBy(o, k, p, at)).instances;
            if id in o.db.instances && !AdriftAt(o.db.instances, id, p)
            then id in after && after[id].path == o.db.instances[id].path && after[id].owner == o.db.instances[id].owner
            else id in after ==> after[id].path == p && after[id].owner == Some(o.src)
  {
    hide RowsWithout, FreedInstances, Unlinked;
    var items, instances := o.db.items, o.db.instances;
    FreedRow(items, instances, k, id);
    if at.Some? {
      var unlinked := Unlinked(items, instances[at.value].items, at.value);
      FreedRow(unlinked, instances, k, id);
      FreedRow(unlinked, instances - {at.value}, k, id);
    }
  }

  lemma AttachFiles(o: Obs, ref: ItemRef, k: Key, p: string, at: Option<InstId>, fk: FileKey)
    requires at.Some? ==> at.value in o.db.instances
    requires Owned(o.db.instances, fk.inst)
    ensures var after := AttachedDb(o, ref, k, JoinedBy(o, k, p, at)).files;
            (fk in after <==> fk in o.db.files) && (fk in o.db.files ==> after[fk] == o.db.files[fk])
  {
    hide FreedInstances, Unlinked;
  }

  /** Where the instances stand once k is attached at p. */
  lemma AttachStands(o: Obs, ref: ItemRef, k: Key, p: string, at: Option<InstId>)
    requires WellFormed(o.db.instances, o.db.lastInst)
    requires at == InstanceAt(o.db.instances, p) && (at.Some? ==> !OtherOwner(o, at.value))
    ensures Stand(o.db, AttachedDb(o, ref, k, JoinedBy(o, k, p, at)), o.src, true, p)
  {
    hide WellFormed, InstanceAt, OtherOwner, AttachedDb, JoinedBy;
    forall id
      ensures var after := AttachedDb(o, ref, k, JoinedBy(o, k, p, at)).instances;
              if id in o.db.instances && !AdriftAt(o.db.instances, id, p)
              then id in after && after[id].path == o.db.instances[id].path && after[id].owner == o.db.instances[id].owner
              else id in after ==> after[id].path == p && after[id].owner == Some(o.src)
    {
      AttachRow(o, ref, k, p, at, id);
    }
    forall fk: FileKey | Owned(o.db.instances, fk.inst)
      ensures var after := AttachedDb(o, ref, k, JoinedBy(o, k, p, at)).files;
              (fk in after <==> fk in o.db.files) && (fk in o.db.files ==> after[fk] == o.db.files[fk])
    {
      AttachFiles(o, ref, k, p, at, fk);
    }
  }

  lemma AttachMoves(o: Obs, ref: ItemRef, k: Key, p: string, at: Option<InstId>, x: Key)
    requires Linked(o.db.items, o.db.instances) && WellFormed(o.db.instances, o.db.lastInst)
    requires at == InstanceAt(o.db.instances, p) && (at.Some? ==> !OtherOwner(o, at.value)) && x != k
    ensures var after := AttachedDb(o, ref, k, JoinedBy(o, k, p, at));
            HeldAt(after, x) ==
              if HeldAt(o.db, x).Some? && AdriftAt(o.db.instances, HeldAt(o.db, x).value.inst, p) then None else HeldAt(o.db, x)
  {
  }

  lemma AttachJoins(o: Obs, ref: ItemRef, k: Key, p: string, at: Option<InstId>)
    requires WellFormed(o.db.instances, o.db.lastInst)
    requires at == InstanceAt(o.db.instances, p) && (at.Some? ==> !OtherOwner(o, at.value))
    ensures Joins(AttachedDb(o, ref, k, JoinedBy(o, k, p, at)), o.src, ref, k, p)
  {
  }

  /* ---------- One item ---------- */

  lemma StandSame(db: Db, db1: Db, src: SourceId, p: string)
    requires Alike(db, db1)
    ensures Stand(db, db1, src, false, p)
  {
  }

  lemma StandAfter(db: Db, db1: Db, db2: Db, src: SourceId, over: bool, p: string)
    requires Alike(db, db1) && Stand(db1, db2, src, over, p)
    ensures Stand(db, db2, src, over, p)
  {
  }

  lemma StandOn(db: Db, db1: Db, db2: Db, src: SourceId, over: bool, p: string)
    requires Stand(db, db1, src, over, p) && db2.files == db1.files && db2.instances == db1.instances
    ensures Stand(db, db2, src, over, p)
  {
  }

  /** An item's own record names no other source's instance. */
  lemma OwnNotForeign(o: Obs, k: Key)
    requires Linked(o.db.items, o.db.instances) && Owning(o.db.items, o.db.instances)
    requires HeldAt(o.db, k).Some? && HeldAt(o.db, k).value.ref.root.source == o.src
    ensures !OtherOwner(o, HeldAt(o.db, k).value.inst)
  {
  }

  /** Whether a key attaches is settled before its item gives anything up. */
  lemma AttachingAfter(o: Obs, ref: ItemRef, key: Option<Key>, p: string)
    requires Linked(o.db.items, o.db.instances) && Owning(o.db.items, o.db.instances) && ref.root.source == o.src
    requires GiveUp(o, ref, key, p).Success?
    ensures Attaching(GiveUp(o, ref, key, p).value, ref, key, p) <==> Attaching(o, ref, key, p)
  {
    hide GiveUp, Linked, Owning;
    if key.Some? {
      GiveUpAlike(o, ref, key, p);
      GiveUpFrees(o, ref, key, p, key.value);
      GiveUpFrame(o, ref, key, p);
      if HeldAt(o.db, key.value).Some? && HeldAt(o.db, key.value).value.ref == ref {
        OwnNotForeign(o, key.value);
      }
    }
  }

  /** What a claim does to another key's record. */
  lemma ClaimMoves(o: Obs, ref: ItemRef, k: Key, p: string, x: Key)
    requires Links(o) && Claim(o, ref, k, p).Success? && x != k
    ensures var o1, over := Claim(o, ref, k, p).value.0, Attaching(o, ref, Some(k), p);
            HeldAt(o1.db, x) ==
              if over && HeldAt(o.db, x).Some? && AdriftAt(o.db.instances, HeldAt(o.db, x).value.inst, p) then None else HeldAt(o.db, x)
  {
    hide Linked, Owning, WellFormed, AttachKey, JoinedBy, Foreign;
    if p != "" {
      var at := InstanceAt(o.db.instances, p);
      RivalForeign(o, k, p);
      if !Foreign(o, k, p) && !Taken(o, ref, k) {
        AttachShape(o, ref, k, p, at);
        AttachMoves(o, ref, k, p, at, x);
      }
    }
  }

  lemma ClaimStands(o: Obs, ref: ItemRef, k: Key, p: string)
    requires Links(o) && Claim(o, ref, k, p).Success?
    ensures Stand(o.db, Claim(o, ref, k, p).value.0.db, o.src, Attaching(o, ref, Some(k), p), p)
    ensures Attaching(o, ref, Some(k), p) ==> Joins(Claim(o, ref, k, p).value.0.db, o.src, ref, k, p)
    ensures p != "" && !Attaching(o, ref, Some(k), p) ==> Claim(o, ref, k, p).value.0.db.items == o.db.items
    ensures p == "" ==> Claim(o, ref, k, p).value.0 == NoVideo(o, ref, k)
    ensures Claim(o, ref, k, p).value.0.db.sightings == o.db.sightings
  {
    hide Linked, Owning, WellFormed, AttachKey, JoinedBy, Foreign, Stand, AttachedDb, Joins;
    AlikeSelf(o.db);
    StandSame(o.db, o.db, o.src, p);
    if p == "" {
      StandOn(o.db, o.db, NoVideo(o, ref, k).db, o.src, false, p);
    } else {
      var at := InstanceAt(o.db.instances, p);
      var o1 := AttachOrOverlap(o, ref, k, p).value.0;
      RivalForeign(o, k, p);
      if !Foreign(o, k, p) && !Taken(o, ref, k) {
        AttachShape(o, ref, k, p, at);
        AttachedFrame(o, ref, k, JoinedBy(o, k, p, at));
        AttachStands(o, ref, k, p, at);
        AttachJoins(o, ref, k, p, at);
      } else {
        StandOn(o.db, o.db, o1.db, o.src, false, p);
      }
    }
  }

  lemma ItemMoves(o: Obs, a: Activation, ref: ItemRef, root: Root, it: Item, x: Key)
    requires Weak(o, a) && Ready(o, ref) && ObserveItem(o, ref, root, it).Success? && ItemKey(root, it) != Some(x)
    ensures Moved(o, ObserveItem(o, ref, root, it).value, ref, it.path, Attaching(o, ref, ItemKey(root, it), it.path), x)
  {
    hide Weak, Links, GiveUp, Claim, Ready, ItemKey, Foreign, Taken;
    var key := ItemKey(root, it);
    var o0 := Touch(o, key);
    var o1 := GiveUp(o0, ref, key, it.path).value;
    ItemGivesUp(o, a, ref, key, it.path);
    GiveUpFrees(o0, ref, key, it.path, x);
    if key.Some? {
      ClaimMoves(o1, ref, key.value, it.path, x);
    }
  }

  /** Where an item stands once it has given up what it had. */
  lemma ItemGivesUp(o: Obs, a: Activation, ref: ItemRef, key: Option<Key>, p: string)
    requires Weak(o, a) && Ready(o, ref) && GiveUp(Touch(o, key), ref, key, p).Success?
    ensures Touch(o, key).db == o.db
    ensures var o1 := GiveUp(Touch(o, key), ref, key, p).value;
            && Links(o1) && Alike(o.db, o1.db) && o1.src == o.src && o1.db.sightings == o.db.sightings
            && (Attaching(o1, ref, key, p) <==> Attaching(o, ref, key, p))
  {
    hide Weak, GiveUp, Attaching;
    var o0 := Touch(o, key);
    TouchKeeps(o, a, key);
    WeakLinks(o, a);
    AttachingTouched(o, ref, key, p);
    AttachingAfter(o0, ref, key, p);
    GiveUpKeeps(o0, a, ref, key, p);
    GiveUpFrame(o0, ref, key, p);
    GiveUpAlike(o0, ref, key, p);
    WeakLinks(GiveUp(o0, ref, key, p).value, a);
  }

  lemma AttachingTouched(o: Obs, ref: ItemRef, key: Option<Key>, p: string)
    ensures Attaching(Touch(o, key), ref, key, p) <==> Attaching(o, ref, key, p)
  {
  }

  lemma WeakLinks(o: Obs, a: Activation)
    requires Weak(o, a)
    ensures Links(o) && Linked(o.db.items, o.db.instances) && Owning(o.db.items, o.db.instances) && WellFormed(o.db.instances, o.db.lastInst)
  {
  }

  lemma ItemStands(o: Obs, a: Activation, ref: ItemRef, root: Root, it: Item)
    requires Weak(o, a) && Ready(o, ref) && ObserveItem(o, ref, root, it).Success?
    ensures var o1, key := ObserveItem(o, ref, root, it).value, ItemKey(root, it);
            && Stand(o.db, o1.db, o.src, Attaching(o, ref, key, it.path), it.path)
            && (Attaching(o, ref, key, it.path) ==> Joins(o1.db, o.src, ref, key.value, it.path))
            && ref in o1.db.sightings && o1.db.sightings == o.db.sightings[ref := o1.db.sightings[ref]]
  {
    hide Weak, Links, GiveUp, Claim, Ready, ItemKey, Foreign, Taken, Stand, Alike;
    var key := ItemKey(root, it);
    var o0 := Touch(o, key);
    var o1 := GiveUp(o0, ref, key, it.path).value;
    var o2 := ObserveItem(o, ref, root, it).value;
    ItemGivesUp(o, a, ref, key, it.path);
    if key.Some? {
      var o3 := Claim(o1, ref, key.value, it.path).value.0;
      ClaimStands(o1, ref, key.value, it.path);
      StandAfter(o.db, o1.db, o3.db, o.src, Attaching(o, ref, key, it.path), it.path);
      StandOn(o.db, o3.db, o2.db, o.src, Attaching(o, ref, key, it.path), it.path);
    } else {
      StandSame(o.db, o1.db, o.src, it.path);
      StandOn(o.db, o1.db, o2.db, o.src, false, it.path);
    }
  }

  /** The sighting an owned instance's record names reports that key there. */
  lemma OwnedNamed(o: Obs, x: Key)
    requires Links(o) && HeldAt(o.db, x).Some? && Owned(o.db.instances, HeldAt(o.db, x).value.inst)
    ensures var rec := o.db.items[x];
            && rec.ref in o.db.sightings && o.db.sightings[rec.ref].key == Some(x)
            && o.db.sightings[rec.ref].item.path == o.db.instances[rec.inst].path
            && x in o.db.instances[rec.inst].items && Some(rec.ref.root.source) == o.db.instances[rec.inst].owner
  {
    NamedKey(o, x);
  }

  lemma NoVideoLeaves(o: Obs, ref: ItemRef, k: Key)
    ensures var o1 := NoVideo(o, ref, k);
            HeldAt(o1.db, k) == if HeldAt(o.db, k).Some? && HeldAt(o.db, k).value.ref != ref then HeldAt(o.db, k) else None
  {
  }

  /** What an item does to its own key when it attaches nothing. */
  lemma ItemLeaves(o: Obs, a: Activation, ref: ItemRef, root: Root, it: Item, k: Key)
    requires Weak(o, a) && Ready(o, ref) && ObserveItem(o, ref, root, it).Success?
    requires ItemKey(root, it) == Some(k) && !Attaching(o, ref, Some(k), it.path)
    ensures Left(o, ObserveItem(o, ref, root, it).value, ref, k)
  {
    hide Weak, Links, GiveUp, Claim, ItemKey, Attaching, Alike, NoVideo;
    var o0 := Touch(o, Some(k));
    var o1 := GiveUp(o0, ref, Some(k), it.path).value;
    ItemGivesUp(o, a, ref, Some(k), it.path);
    GiveUpFrees(o0, ref, Some(k), it.path, k);
    ClaimStands(o1, ref, k, it.path);
    NoVideoLeaves(o1, ref, k);
    if HeldAt(o.db, k).Some? && HeldAt(o.db, k).value.ref == ref && Owned(o.db.instances, HeldAt(o.db, k).value.inst) {
      WeakLinks(o, a);
      OwnedNamed(o, k);
      if it.path != "" {
        OwnPath(o, ref, k, it.path);
      }
    }
  }

  /** An item that attaches nothing is not at the path its key is held at. */
  lemma OwnPath(o: Obs, ref: ItemRef, k: Key, p: string)
    requires Links(o) && ref.root.source == o.src && p != "" && !Attaching(o, ref, Some(k), p)
    requires HeldAt(o.db, k).Some? && HeldAt(o.db, k).value.ref == ref && Owned(o.db.instances, HeldAt(o.db, k).value.inst)
    ensures o.db.instances[HeldAt(o.db, k).value.inst].path != p
  {
    OwnedNamed(o, k);
  }
}
