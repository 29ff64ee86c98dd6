/** What a report does to an instance that has no owner: it claims the one at
    an item's path, with its files, within thirty days, and after that starts
    anew. */
module Reclaims {
  import opened Wrappers
  import opened Media
  import opened Tables
  import opened Claims
  import opened Settlement
  import opened Passes
  import opened AttachKeep
  import opened ClaimsKeep
  import opened ItemSteps
  import opened ObserveKeeps
  import opened SettlementKeeps
  import opened Renumbering
  import opened Heirs
  import opened Removals
  import opened Retirement

  /** Every row of instance id's files is as it was. */
  ghost predicate RowsSame(db: Db, db1: Db, id: InstId) {
    forall fk: FileKey | fk.inst == id :: SameRow(db.files, db1.files, fk) && SameRow(db.baselines, db1.baselines, fk)
  }

  ghost predicate NoRows(db: Db, id: InstId) {
    forall fk: FileKey | fk.inst == id :: fk !in db.files && fk !in db.baselines
  }

  /** inst, but for keys its list has lost. */
  predicate Fewer(inst: Instance, inst1: Instance) {
    inst1 == inst.(items := inst1.items) && forall x | x in inst1.items :: x in inst.items
  }

  /** Instance id has no owner still, and is as it was but for its list. */
  predicate Unowned(db: Db, db1: Db, id: InstId) {
    id in db.instances && db.instances[id].owner.None? && id in db1.instances && Fewer(db.instances[id], db1.instances[id])
  }

  predicate Late(db: Db, now: Time, id: InstId)
    requires id in db.instances
  {
    now - db.instances[id].orphaned > ORPHAN_LIFE
  }

  /* ---------- One item ---------- */

  /** Only lists have lost keys, and no row of a file has changed. */
  ghost predicate ListsOnly(db: Db, db1: Db) {
    && db1.files == db.files && db1.baselines == db.baselines && db1.lastInst == db.lastInst && db1.instances.Keys == db.instances.Keys
    && forall id | id in db.instances :: Fewer(db.instances[id], db1.instances[id])
  }

  lemma ListsSame(db: Db)
    ensures ListsOnly(db, db)
  {
  }

  lemma DetachLists(o: Obs, id: InstId, k: Key)
    requires Detach(o, id, k).Success?
    ensures ListsOnly(o.db, Detach(o, id, k).value.db)
  {
  }

  lemma ListsOn(db: Db, db1: Db, db2: Db)
    requires ListsOnly(db, db1) && db2.files == db1.files && db2.baselines == db1.baselines && db2.lastInst == db1.lastInst && db2.instances == db1.instances
    ensures ListsOnly(db, db2)
  {
  }

  lemma ReleaseLists(o: Obs, ref: ItemRef, was: Sighting)
    requires Release(o, ref, was).Success?
    ensures ListsOnly(o.db, Release(o, ref, was).value.db)
  {
    hide Detach, ListsOnly;
    var o1 := o.(db := o.db.(overlaps := o.db.overlaps - {ref}));
    ListsSame(o.db);
    ListsOn(o.db, o.db, o1.db);
    if was.key.Some? && was.key.value in o.db.items && o.db.items[was.key.value].ref == ref && o.db.items[was.key.value].inst != 0 {
      var o2 := Detach(o1, o.db.items[was.key.value].inst, was.key.value).value;
      DetachLists(o1, o.db.items[was.key.value].inst, was.key.value);
      ListsFrom(o.db, o1.db, o2.db);
      ListsOn(o.db, o2.db, Release(o, ref, was).value.db);
    } else {
      ListsOn(o.db, o1.db, Release(o, ref, was).value.db);
    }
  }

  lemma ListsFrom(db: Db, db1: Db, db2: Db)
    requires db1 == db.(overlaps := db1.overlaps) && ListsOnly(db1, db2)
    ensures ListsOnly(db, db2)
  {
  }

  lemma GiveUpLists(o: Obs, ref: ItemRef, key: Option<Key>, p: string)
    requires GiveUp(o, ref, key, p).Success?
    ensures ListsOnly(o.db, GiveUp(o, ref, key, p).value.db)
  {
    hide Release, ListsOnly;
    ListsSame(o.db);
    if ref in o.db.sightings && (o.db.sightings[ref].key != key || o.db.sightings[ref].item.path != p) {
      ReleaseLists(o, ref, o.db.sightings[ref]);
    }
  }

  lemma FreedKeeps(items: map<Key, Record>, instances: map<InstId, Instance>, k: Key, id: InstId)
    requires id in instances
    ensures var after := FreedInstances(items, instances, k); id in after && Fewer(instances[id], after[id])
  {
  }

  lemma JoinedElsewhereRow(o: Obs, k: Key, p: string, at: Option<InstId>, id: InstId)
    requires WellFormed(o.db.instances, o.db.lastInst) && at == InstanceAt(o.db.instances, p)
    requires id in o.db.instances && o.db.instances[id].path != p
    ensures var j := JoinedBy(o, k, p, at);
            && j.dropped != Some(id) && j.id != id && id in j.instances && Fewer(o.db.instances[id], j.instances[id])
  {
    hide Unlinked, FreedInstances;
    FreedKeeps(o.db.items, o.db.instances, k, id);
    if at.Some? {
      var unlinked := Unlinked(o.db.items, o.db.instances[at.value].items, at.value);
      FreedKeeps(unlinked, o.db.instances, k, id);
      FreedKeeps(unlinked, o.db.instances - {at.value}, k, id);
    }
  }

  /** An instance elsewhere, once a key is attached at p. */
  lemma AttachElsewhere(o: Obs, ref: ItemRef, k: Key, p: string, at: Option<InstId>, id: InstId)
    requires WellFormed(o.db.instances, o.db.lastInst) && at == InstanceAt(o.db.instances, p)
    requires id in o.db.instances && o.db.instances[id].path != p
    ensures var after := AttachedDb(o, ref, k, JoinedBy(o, k, p, at));
            id in after.instances && Fewer(o.db.instances[id], after.instances[id]) && RowsSame(o.db, after, id)
  {
    hide JoinedBy, WellFormed;
    JoinedElsewhereRow(o, k, p, at, id);
  }

  /** The ownerless instance at p, once a key is attached there. */
  lemma AttachReclaims(o: Obs, ref: ItemRef, k: Key, p: string, id: InstId)
    requires WellFormed(o.db.instances, o.db.lastInst)
    requires id in o.db.instances && o.db.instances[id].path == p && o.db.instances[id].owner.None?
    ensures var after := AttachedDb(o, ref, k, JoinedBy(o, k, p, Some(id)));
            if Late(o.db, o.now, id) then id !in after.instances && NoRows(after, id)
            else id in after.instances && after.instances[id].path == p && after.instances[id].owner == Some(o.src) && RowsSame(o.db, after, id)
  {
    hide Unlinked;
  }

  /** An owned instance keeps its rows when a key is attached. */
  lemma AttachOwnedRows(o: Obs, ref: ItemRef, k: Key, p: string, at: Option<InstId>, id: InstId)
    requires at.Some? ==> at.value in o.db.instances
    requires Owned(o.db.instances, id)
    ensures RowsSame(o.db, AttachedDb(o, ref, k, JoinedBy(o, k, p, at)), id)
  {
    hide FreedInstances, Unlinked;
  }

  /** New instances take the next number. */
  lemma AttachNumbers(o: Obs, ref: ItemRef, k: Key, p: string, at: Option<InstId>, id: InstId)
    requires at.Some? ==> at.value in o.db.instances
    ensures var after := AttachedDb(o, ref, k, JoinedBy(o, k, p, at));
            o.db.lastInst <= after.lastInst && (id in after.instances ==> id in o.db.instances || id > o.db.lastInst)
  {
    hide Unlinked, RowsWithout;
  }

  lemma ClaimsAt(o: Obs, ref: ItemRef, k: Key, p: string) returns (at: Option<InstId>)
    requires Links(o) && p != "" && Attaching(o, ref, Some(k), p) && Claim(o, ref, k, p).Success?
    ensures at == InstanceAt(o.db.instances, p) && (at.Some? ==> !OtherOwner(o, at.value))
    ensures Claim(o, ref, k, p).value.0.db == AttachedDb(o, ref, k, JoinedBy(o, k, p, at))
  {
    hide Linked, Owning, WellFormed, AttachKey, JoinedBy, AttachedDb;
    at := InstanceAt(o.db.instances, p);
    RivalForeign(o, k, p);
    AttachShape(o, ref, k, p, at);
  }

  /** What an item may do to instance id: claim it, or let it expire, when it has
      no owner and the item attaches at its path; else leave it its rows, and
      without an owner if it had none. */
  ghost predicate OrphanStep(db: Db, db1: Db, src: SourceId, now: Time, over: bool, p: string, id: InstId) {
    && db.lastInst <= db1.lastInst && (id in db1.instances ==> id in db.instances || id > db.lastInst)
    && if id !in db.instances then NoRows(db, id) ==> NoRows(db1, id)
       else if db.instances[id].owner.Some? then RowsSame(db, db1, id)
       else if !(over && db.instances[id].path == p) then Unowned(db, db1, id) && RowsSame(db, db1, id)
       else if Late(db, now, id) then id !in db1.instances && NoRows(db1, id)
       else id in db1.instances && db1.instances[id].path == p && db1.instances[id].owner == Some(src) && RowsSame(db, db1, id)
  }

  lemma OrphanSame(db: Db, db1: Db, src: SourceId, now: Time, p: string, id: InstId)
    requires ListsOnly(db, db1)
    ensures OrphanStep(db, db1, src, now, false, p, id)
  {
  }

  lemma OrphanAfter(db: Db, db1: Db, db2: Db, src: SourceId, now: Time, over: bool, p: string, id: InstId)
    requires ListsOnly(db, db1) && OrphanStep(db1, db2, src, now, over, p, id)
    ensures OrphanStep(db, db2, src, now, over, p, id)
  {
  }

  lemma OrphanOn(db: Db, db1: Db, db2: Db, src: SourceId, now: Time, over: bool, p: string, id: InstId)
    requires OrphanStep(db, db1, src, now, over, p, id)
    requires db2.files == db1.files && db2.baselines == db1.baselines && db2.instances == db1.instances && db2.lastInst == db1.lastInst
    ensures OrphanStep(db, db2, src, now, over, p, id)
  {
  }

  lemma AttachGone(o: Obs, ref: ItemRef, k: Key, p: string, at: Option<InstId>, id: InstId)
    requires at.Some? ==> at.value in o.db.instances
    requires NoRows(o.db, id)
    ensures NoRows(AttachedDb(o, ref, k, JoinedBy(o, k, p, at)), id)
  {
    hide JoinedBy;
  }

  lemma AttachStep(o: Obs, ref: ItemRef, k: Key, p: string, at: Option<InstId>, id: InstId)
    requires WellFormed(o.db.instances, o.db.lastInst) && at == InstanceAt(o.db.instances, p) && (at.Some? ==> !OtherOwner(o, at.value))
    ensures OrphanStep(o.db, AttachedDb(o, ref, k, JoinedBy(o, k, p, at)), o.src, o.now, true, p, id)
  {
    hide JoinedBy, AttachedDb, RowsSame, NoRows;
    AttachNumbers(o, ref, k, p, at, id);
    if id !in o.db.instances {
      if NoRows(o.db, id) {
        AttachGone(o, ref, k, p, at, id);
      }
    } else if o.db.instances[id].owner.Some? {
      AttachOwnedRows(o, ref, k, p, at, id);
    } else if o.db.instances[id].path != p {
      AttachElsewhere(o, ref, k, p, at, id);
    } else {
      AttachReclaims(o, ref, k, p, id);
    }
  }

  lemma ClaimStep(o: Obs, ref: ItemRef, k: Key, p: string, id: InstId)
    requires Links(o) && Claim(o, ref, k, p).Success?
    ensures OrphanStep(o.db, Claim(o, ref, k, p).value.0.db, o.src, o.now, Attaching(o, ref, Some(k), p), p, id)
  {
    hide AttachKey, JoinedBy, Foreign, AttachedDb, OrphanStep, Taken, Rival;
    ListsSame(o.db);
    OrphanSame(o.db, o.db, o.src, o.now, p, id);
    if p != "" && Attaching(o, ref, Some(k), p) {
      var at := ClaimsAt(o, ref, k, p);
      AttachStep(o, ref, k, p, at, id);
    } else {
      ClaimLeaves(o, ref, k, p);
      OrphanOn(o.db, o.db, Claim(o, ref, k, p).value.0.db, o.src, o.now, false, p, id);
    }
  }

  lemma ClaimLeaves(o: Obs, ref: ItemRef, k: Key, p: string)
    requires Links(o) && Claim(o, ref, k, p).Success? && !Attaching(o, ref, Some(k), p)
    ensures var db := Claim(o, ref, k, p).value.0.db; db == o.db.(overlaps := db.overlaps, items := db.items)
  {
    hide Links, AttachOrOverlap;
    if p == "" {
      hide NoVideo;
      BareFrame(o, ref, k);
    } else {
      OverlapLeaves(o, ref, k, p);
    }
  }

  lemma OverlapLeaves(o: Obs, ref: ItemRef, k: Key, p: string)
    requires Links(o) && AttachOrOverlap(o, ref, k, p).Success? && p != "" && !Attaching(o, ref, Some(k), p)
    ensures var db := AttachOrOverlap(o, ref, k, p).value.0.db; db == o.db.(overlaps := db.overlaps)
  {
    hide Linked, Owning, WellFormed, Named, Kept, EmptiesListed, AttachKey, Foreign, Rival, HeldElsewhere, InstanceAt;
    RivalForeign(o, k, p);
    var rec := RecordOf(o.db.items, k);
    var rival := Rival(o, InstanceAt(o.db.instances, p), rec);
    if rival.Some? {
      assert AttachOrOverlap(o, ref, k, p).value.0 == o.(db := o.db.(overlaps := o.db.overlaps[ref := rival.value]));
    } else {
      assert IsHeld(rec) && rec.value.ref != ref && rec.value.ref.root.source == o.src && HeldElsewhere(o, rec.value);
      assert AttachOrOverlap(o, ref, k, p).value.0 == o.(db := o.db.(overlaps := o.db.overlaps - {ref}));
    }
  }

  lemma ItemStep(on: Obs, a: Activation, ref: ItemRef, root: Root, it: Item, id: InstId)
    requires Weak(on, a) && Ready(on, ref) && ObserveItem(on, ref, root, it).Success?
    ensures OrphanStep(on.db, ObserveItem(on, ref, root, it).value.db, on.src, on.now, Attaching(on, ref, ItemKey(root, it), it.path), it.path, id)
  {
    hide Weak, Links, GiveUp, Claim, ItemKey, Attaching, Alike, OrphanStep, ListsOnly;
    var key := ItemKey(root, it);
    var o0 := Touch(on, key);
    var o1 := GiveUp(o0, ref, key, it.path).value;
    ItemGivesUp(on, a, ref, key, it.path);
    GiveUpFrame(o0, ref, key, it.path);
    GiveUpLists(o0, ref, key, it.path);
    if key.Some? {
      var o2 := Claim(o1, ref, key.value, it.path).value.0;
      ClaimStep(o1, ref, key.value, it.path, id);
      OrphanAfter(on.db, o1.db, o2.db, on.src, on.now, Attaching(on, ref, key, it.path), it.path, id);
      OrphanOn(on.db, o2.db, ObserveItem(on, ref, root, it).value.db, on.src, on.now, Attaching(on, ref, key, it.path), it.path, id);
    } else {
      assert !Attaching(on, ref, key, it.path) by { NoneAttaching(on, ref, it.path); }
      OrphanSame(on.db, o1.db, on.src, on.now, it.path, id);
      OrphanOn(on.db, o1.db, ObserveItem(on, ref, root, it).value.db, on.src, on.now, false, it.path, id);
    }
  }

  lemma NoneAttaching(o: Obs, ref: ItemRef, p: string)
    ensures !Attaching(o, ref, None, p)
  {
  }

  /* ---------- Item after item ---------- */

  /** Where an instance with no owner stands when n items are reported: claimed,
      or expired, once one of them attaches at its path. */
  ghost predicate Phase(o: Obs, on: Obs, p: Report, n: nat, id: InstId)
    requires n <= |p.items| && id in o.db.instances
  {
    && on.now == o.now && o.db.lastInst <= on.db.lastInst
    && (forall x | x in on.db.instances :: x in o.db.instances || x > o.db.lastInst)
    && if !TakenOver(o, p, n, id) then Unowned(o.db, on.db, id) && RowsSame(o.db, on.db, id)
       else if Late(o.db, o.now, id) then id !in on.db.instances && NoRows(on.db, id)
       else id in on.db.instances && on.db.instances[id].path == o.db.instances[id].path && on.db.instances[id].owner == Some(o.src)
            && RowsSame(o.db, on.db, id)
  }

  lemma PhaseStep(o: Obs, on: Obs, on1: Obs, p: Report, n: nat, id: InstId)
    requires n < |p.items| && id in o.db.instances && o.db.instances[id].owner.None? && id <= o.db.lastInst
    requires Phase(o, on, p, n, id) && on.src == o.src && on1.now == on.now
    requires OrphanStep(on.db, on1.db, on.src, on.now, Attaches(o, p, n), p.items[n].path, id)
    requires forall x | x in on1.db.instances :: x in on.db.instances || x > on.db.lastInst
    requires Stand(on.db, on1.db, o.src, Attaches(o, p, n), p.items[n].path)
    ensures Phase(o, on1, p, n + 1, id)
  {
    hide Attaches, TakenOver;
    TakenOverNext(o, p, n, id);
    assert TakenOver(o, p, n, id) && !Late(o.db, o.now, id) ==> Owned(on.db.instances, id);
  }

  lemma PhaseZero(o: Obs, p: Report, scene: map<string, string>, id: InstId)
    requires id in o.db.instances && o.db.instances[id].owner.None?
    ensures Phase(o, StampRoot(o, p.Under(), p.root).(scene := scene), p, 0, id)
  {
    NoneTakenOver(o, p, id);
    hide TakenOver;
  }

  lemma {:induction false} ReportPhase(o: Obs, a: Activation, p: Report, n: nat, id: InstId)
    requires Weak(o, a) && Opened(o.db, o.src, o.pass) && o.src == p.src && p.Distinct() && n <= |p.items|
    requires id in o.db.instances && o.db.instances[id].owner.None?
    requires ObserveAll(StampRoot(o, p.Under(), p.root).(scene := Scenes(p.items)), p.Under(), p.root, p.items[..n]).Success?
    ensures Phase(o, ObserveAll(StampRoot(o, p.Under(), p.root).(scene := Scenes(p.items)), p.Under(), p.root, p.items[..n]).value, p, n, id)
  {
    hide Weak, Links, ObserveItem, StampRoot, Tracked, Phase;
    var o1 := StampRoot(o, p.Under(), p.root).(scene := Scenes(p.items));
    StampRootKeeps(o, a, p.root, Scenes(p.items));
    StampRootSame(o, p.Under(), p.root);
    if n == 0 {
      PhaseZero(o, p, Scenes(p.items), id);
    } else {
      var m := n - 1;
      assert p.items[..n][..m] == p.items[..m] && p.items[..n][m] == p.items[m];
      ReportPhase(o, a, p, m, id);
      ReportTracked(o, a, p, m);
      ObserveAllKeeps(o1, a, p.Under(), p.root, p.items[..m]);
      PhaseNext(o, ObserveAll(o1, p.Under(), p.root, p.items[..m]).value, a, p, m, id);
    }
  }

  lemma StepNumbers(db: Db, db1: Db, src: SourceId, now: Time, over: bool, p: string, id: InstId)
    requires OrphanStep(db, db1, src, now, over, p, id)
    ensures id in db1.instances ==> id in db.instances || id > db.lastInst
  {
  }

  lemma PhaseNext(o: Obs, on: Obs, a: Activation, p: Report, n: nat, id: InstId)
    requires Weak(o, a) && o.src == p.src && p.Distinct() && n < |p.items| && id in o.db.instances && o.db.instances[id].owner.None?
    requires Weak(on, a) && Tracked(o, on, p, n) && Phase(o, on, p, n, id)
    requires Ready(on, p.Ref(n)) && ObserveItem(on, p.Ref(n), p.root, p.items[n]).Success?
    ensures Phase(o, ObserveItem(on, p.Ref(n), p.root, p.items[n]).value, p, n + 1, id)
  {
    hide Weak, Links, ObserveItem, TrackedInstances, TrackedKeys, TrackedSources, Phase, Attaching, Attaches, Stand, OrphanStep, Ready, Joins;
    var ref, it := p.Ref(n), p.items[n];
    var on1 := ObserveItem(on, ref, p.root, it).value;
    WeakLinks(o, a);
    NextAttaches(o, on, p, n);
    ItemStands(on, a, ref, p.root, it);
    ItemStep(on, a, ref, p.root, it, id);
    ObserveItemKeeps(on, a, ref, p.root, it);
    WellFormedId(o.db.instances, o.db.lastInst, id);
    forall x | x in on1.db.instances
      ensures x in on.db.instances || x > on.db.lastInst
    {
      ItemStep(on, a, ref, p.root, it, x);
      StepNumbers(on.db, on1.db, on.src, on.now, Attaches(o, p, n), it.path, x);
    }
    PhaseStep(o, on, on1, p, n, id);
  }

  /* ---------- The whole report ---------- */

  lemma DropKeepsRows(o: Obs, id: InstId)
    ensures id in DropEmptied(o).db.instances ==> RowsSame(o.db, DropEmptied(o).db, id)
    ensures NoRows(o.db, id) ==> NoRows(DropEmptied(o).db, id)
    ensures id !in o.db.instances ==> id !in DropEmptied(o).db.instances
  {
    hide EmptiedRoots;
  }

  lemma SettleRows(o: Obs, a: Activation, id: InstId)
    requires Weak(o, a)
    ensures Settle(o, a).Success?
    ensures var after := Settle(o, a).value.db;
            && (id in after.instances ==> RowsSame(o.db, after, id)) && (NoRows(o.db, id) ==> NoRows(after, id))
            && (id !in o.db.instances ==> id !in after.instances)
  {
    hide Weak, Settle, DropEmptied;
    SettleKeeps(o, a);
    SettleRest(o, a);
    DropKeepsRows(o, id);
  }

  /** An instance the report leaves at a path no stored one had before is new. */
  lemma NewAtPath(o: Obs, on: Obs, a: Activation, p: Report, id: InstId, x: InstId)
    requires Weak(o, a) && Opened(o.db, o.src, o.pass) && o.src == p.src && p.Distinct() && Tracked(o, on, p, |p.items|)
    requires var o1 := StampRoot(o, p.Under(), p.root).(scene := Scenes(p.items));
             ObserveAll(o1, p.Under(), p.root, p.items) == Success(on)
    requires id in o.db.instances && id !in on.db.instances && x in on.db.instances && on.db.instances[x].path == o.db.instances[id].path
    requires Phase(o, on, p, |p.items|, id)
    ensures x > o.db.lastInst
  {
    hide Weak, Links, StampRoot, ObserveAll, TrackedKeys, TrackedSources, TakenOver, RowsSame;
    WeakLinks(o, a);
    if x in o.db.instances {
      if o.db.instances[x].owner.None? {
        assert p.items[..|p.items|] == p.items;
        ReportPhase(o, a, p, |p.items|, x);
      }
      PathsApart(o, id, x);
    }
  }

  /** What a claimed instance, or the one started in its place, is. */
  ghost predicate Reclaimed(db: Db, after: Db, now: Time, p: Report, i: nat, id: InstId)
    requires id in db.instances && i < |p.items| && p.KeyAt(i).Some?
  {
    var k := p.KeyAt(i).value;
    && Joins(after, p.src, p.Ref(i), k, db.instances[id].path)
    && if Late(db, now, id) then after.items[k].inst > db.lastInst && id !in after.instances && NoRows(after, id)
       else after.items[k].inst == id && k in after.instances[id].items && RowsSame(db, after, id)
  }

  /** Where its key stands before settling. */
  ghost predicate ReclaimHeld(o: Obs, on: Obs, ref: ItemRef, k: Key, id: InstId)
    requires id in o.db.instances
  {
    && ItemSteps.Joins(on.db, o.src, ref, k, o.db.instances[id].path)
    && if Late(o.db, o.now, id) then on.db.items[k].inst > o.db.lastInst && id !in on.db.instances && NoRows(on.db, id)
       else on.db.items[k].inst == id && RowsSame(o.db, on.db, id)
  }

  lemma AttachedJoins(o: Obs, on: Obs, p: Report, i: nat, id: InstId)
    requires Tracked(o, on, p, |p.items|) && id in o.db.instances && o.db.instances[id].owner.None?
    requires i < |p.items| && p.items[i].path == o.db.instances[id].path && Attaches(o, p, i)
    ensures TakenOver(o, p, |p.items|, id) && p.KeyAt(i).Some?
    ensures ItemSteps.Joins(on.db, o.src, p.Ref(i), p.KeyAt(i).value, p.items[i].path)
  {
    hide TrackedInstances, TrackedSources, Blocked, Foreign, Skipped, Waiting;
  }

  lemma ReclaimHolds(o: Obs, on: Obs, a: Activation, p: Report, i: nat, id: InstId)
    requires Weak(o, a) && Weak(on, a) && Opened(o.db, o.src, o.pass) && o.src == p.src && p.Distinct() && Tracked(o, on, p, |p.items|)
    requires var o1 := StampRoot(o, p.Under(), p.root).(scene := Scenes(p.items));
             ObserveAll(o1, p.Under(), p.root, p.items) == Success(on)
    requires id in o.db.instances && o.db.instances[id].owner.None? && i < |p.items| && p.items[i].path == o.db.instances[id].path && Attaches(o, p, i)
    ensures p.KeyAt(i).Some? && ReclaimHeld(o, on, p.Ref(i), p.KeyAt(i).value, id)
  {
    hide Weak, Links, StampRoot, ObserveAll, Tracked, TakenOver, RowsSame, NoRows, Attaches;
    AttachedJoins(o, on, p, i, id);
    assert p.items[..|p.items|] == p.items;
    ReportPhase(o, a, p, |p.items|, id);
    WeakLinks(on, a);
    if Late(o.db, o.now, id) {
      NewAtPath(o, on, a, p, id, on.db.items[p.KeyAt(i).value].inst);
    } else {
      PathsApart(on, id, on.db.items[p.KeyAt(i).value].inst);
    }
  }

  lemma ReclaimSettles(o: Obs, on: Obs, a: Activation, p: Report, i: nat, id: InstId)
    requires Weak(on, a) && on.src == o.src == p.src && i < |p.items| && id in o.db.instances
    requires p.KeyAt(i).Some? && ReclaimHeld(o, on, p.Ref(i), p.KeyAt(i).value, id)
    ensures Settle(on, a).Success? && Reclaimed(o.db, Settle(on, a).value.db, o.now, p, i, id)
  {
    hide Weak, Settle, RowsSame, NoRows, Late;
    var k := p.KeyAt(i).value;
    JoinedSettles(on, a, p.Ref(i), k, o.db.instances[id].path);
    SettleRows(on, a, id);
    SettledRecord(on, a, k);
    SettledLinks(on, a);
    LinkedKey(Settle(on, a).value.db.items, Settle(on, a).value.db.instances, k);
    if !Late(o.db, o.now, id) {
      RowsTwice(o.db, on.db, Settle(on, a).value.db, id);
    }
  }

  lemma TrackedSource(o: Obs, on: Obs, p: Report)
    requires Tracked(o, on, p, |p.items|)
    ensures on.src == o.src
  {
  }

  lemma SettledLinks(o: Obs, a: Activation)
    requires Weak(o, a)
    ensures Settle(o, a).Success? && Linked(Settle(o, a).value.db.items, Settle(o, a).value.db.instances)
  {
    hide Weak, Settle, Owning, WellFormed, Named, Kept, Stamped, Sourced, Overlapping, Held, Staging, NonEmpty, NoStray, Current;
    SettleKeeps(o, a);
  }

  lemma RowsTwice(db: Db, db1: Db, db2: Db, id: InstId)
    requires RowsSame(db, db1, id) && RowsSame(db1, db2, id)
    ensures RowsSame(db, db2, id)
  {
  }

  /** An item that attaches at the path of an instance with no owner claims it
      for its source, with every file, when it was orphaned at most thirty days
      ago; past that the instance goes with its files, and the key joins a new
      one at the path. */
  lemma ReportReclaims(db: Db, a: Activation, pass: PassId, now: Time, p: Report, i: nat, id: InstId)
    requires Inv(db, Some(a)) && Opened(db, p.src, pass) && p.Distinct()
    requires ObserveItems(db, Some(a), p.src, pass, now, p.root, p.items).Success?
    requires id in db.instances && db.instances[id].owner.None?
    requires i < |p.items| && p.items[i].path == db.instances[id].path && Attaches(Begun(db, p.src, pass, now), p, i)
    ensures p.KeyAt(i).Some? && Reclaimed(db, ObserveItems(db, Some(a), p.src, pass, now, p.root, p.items).value.db, now, p, i, id)
  {
    hide Inv, Links, Weak, Settle, ObserveAll, StampRoot, Tracked, Attaches, Reclaimed;
    var o := Begun(db, p.src, pass, now);
    BeginWeak(db, a, p.src, pass, now);
    var on := Reported(db, a, pass, now, p);
    TrackedSource(o, on, p);
    ReclaimHolds(o, on, a, p, i, id);
    ReclaimSettles(o, on, a, p, i, id);
  }
}
