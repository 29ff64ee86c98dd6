/** The roots whose managed files a commit changes are among those it marks
    written: of items that keep their instance, and of instances that go. */
module WrittenRoots {
  import opened Wrappers
  import opened Media
  import opened Tables
  import opened Claims
  import opened Judging
  import opened Settlement
  import opened Passes
  import opened Feed

  /* ---------- Items that keep their instance ---------- */

  /** A listed item whose instance is the same and whose managed files are not
      has its root marked written. */
  lemma FilesNamed(db: Db, db1: Db, written: set<RootKey>, k: Key)
    requires Sound(db1) && k in db.items && k in db1.items && db.items[k].inst == db1.items[k].inst && db1.items[k].inst != 0
    requires ViewOf(db, k).files != ViewOf(db1, k).files
    ensures NamesWritten(db, db1, written, k.root)
  {
    hide NamesWritten, FilesAt;
    ListedBy(db1, k);
    if !NamesWritten(db, db1, written, k.root) {
      FilesSame(db, db1, written, k.root, db1.items[k].inst);
    }
  }

  lemma ListedBy(db: Db, k: Key)
    requires Sound(db) && k in db.items && db.items[k].inst != 0
    ensures k.root in InstanceRoots(db, db.items[k].inst)
  {
  }

  /* ---------- Instances that go ---------- */

  /** An instance owned at the start of a write is still owned, and each key it
      listed is still listed or remembered as taken from it. */
  ghost predicate Covers(before: Db, o: Obs, id: InstId)
    requires id in before.instances
  {
    && id <= o.db.lastInst && id in o.db.instances && o.db.instances[id].owner.Some?
    && forall k | k in before.instances[id].items :: k in o.db.instances[id].items || k in EmptiedOf(o, id)
  }

  lemma DetachCovers(before: Db, o: Obs, x: InstId, k: Key, id: InstId)
    requires id in before.instances && Covers(before, o, id) && Detach(o, x, k).Success?
    ensures Covers(before, Detach(o, x, k).value, id)
  {
    hide Pinned;
  }

  lemma ReleaseCovers(before: Db, o: Obs, ref: ItemRef, was: Sighting, id: InstId)
    requires id in before.instances && Covers(before, o, id) && Release(o, ref, was).Success?
    ensures Covers(before, Release(o, ref, was).value, id)
  {
    hide Detach;
    var o1 := o.(db := o.db.(overlaps := o.db.overlaps - {ref}));
    if was.key.Some? && was.key.value in o.db.items && o.db.items[was.key.value].ref == ref && o.db.items[was.key.value].inst != 0 {
      DetachCovers(before, o1, o.db.items[was.key.value].inst, was.key.value, id);
    }
  }

  lemma UnlinkCovers(before: Db, o: Obs, ks: seq<Key>, x: InstId, id: InstId)
    requires id in before.instances && Covers(before, o, id)
    ensures Covers(before, UnlinkAll(o, ks, x), id) && UnlinkAll(o, ks, x).db.instances == o.db.instances
    ensures UnlinkAll(o, ks, x).db.lastInst == o.db.lastInst
  {
  }

  lemma ExpireCovers(before: Db, o: Obs, x: InstId, id: InstId)
    requires id in before.instances && Covers(before, o, id) && x in o.db.instances && o.db.instances[x].owner.None?
    ensures Covers(before, Expire(o, x), id)
  {
    hide Unlinked, Holders, RowsWithout;
  }

  lemma NewCovers(before: Db, o: Obs, k: Key, p: string, id: InstId)
    requires id in before.instances && Covers(before, o, id)
    ensures Covers(before, NewInstance(o, k, p).0, id)
  {
  }

  lemma JoinCovers(before: Db, o: Obs, at: Option<InstId>, k: Key, p: string, id: InstId)
    requires at.Some? ==> at.value in o.db.instances
    requires id in before.instances && Covers(before, o, id) && Join(o, at, k, p).Success?
    ensures Covers(before, Join(o, at, k, p).value.0, id)
  {
    hide Expire, UnlinkAll, NewInstance, Pinned;
    if at.None? {
      NewCovers(before, o, k, p, id);
    } else if o.db.instances[at.value].owner.None? {
      ExpireCovers(before, o, at.value, id);
      NewCovers(before, Expire(o, at.value), k, p, id);
      UnlinkCovers(before, o, o.db.instances[at.value].items, at.value, id);
    }
  }

  lemma AttachCovers(before: Db, o: Obs, ref: ItemRef, k: Key, p: string, at: Option<InstId>, id: InstId)
    requires at.Some? ==> at.value in o.db.instances
    requires id in before.instances && Covers(before, o, id) && AttachKey(o, ref, k, p, at).Success?
    ensures Covers(before, AttachKey(o, ref, k, p, at).value, id)
  {
    hide Join, Detach;
    JoinCovers(before, o, at, k, p, id);
    var j := Join(o, at, k, p).value;
    var rec := RecordOf(o.db.items, k);
    if IsHeld(rec) && rec.value.inst != j.1 {
      DetachCovers(before, j.0, rec.value.inst, k, id);
    }
  }

  lemma ClaimCovers(before: Db, o: Obs, ref: ItemRef, k: Key, p: string, id: InstId)
    requires id in before.instances && Covers(before, o, id) && Claim(o, ref, k, p).Success?
    ensures Covers(before, Claim(o, ref, k, p).value.0, id)
  {
    hide AttachOrOverlap, NoVideo;
    if p == "" {
      BareCovers(before, o, ref, k, id);
    } else {
      AttachOrOverlapCovers(before, o, ref, k, p, id);
    }
  }

  lemma BareCovers(before: Db, o: Obs, ref: ItemRef, k: Key, id: InstId)
    requires id in before.instances && Covers(before, o, id)
    ensures Covers(before, NoVideo(o, ref, k), id)
  {
  }

  lemma AttachOrOverlapCovers(before: Db, o: Obs, ref: ItemRef, k: Key, p: string, id: InstId)
    requires id in before.instances && Covers(before, o, id) && AttachOrOverlap(o, ref, k, p).Success?
    ensures Covers(before, AttachOrOverlap(o, ref, k, p).value.0, id)
  {
    hide AttachKey, AttachOrOverlap, InstanceAt, Covers;
    AttachedOrNoted(o, ref, k, p);
    var at, r := InstanceAt(o.db.instances, p), AttachOrOverlap(o, ref, k, p).value.0;
    if r == o.(db := o.db.(overlaps := r.db.overlaps)) {
      CoversOn(before, o, r, id);
    } else {
      AttachCovers(before, o, ref, k, p, at, id);
    }
  }

  lemma CoversOn(before: Db, o: Obs, o1: Obs, id: InstId)
    requires id in before.instances && Covers(before, o, id)
    requires o1.db.instances == o.db.instances && o1.db.lastInst == o.db.lastInst && o1.emptied == o.emptied
    ensures Covers(before, o1, id)
  {
  }

  lemma ItemCovers(before: Db, o: Obs, ref: ItemRef, root: Root, it: Item, id: InstId)
    requires id in before.instances && Covers(before, o, id) && ObserveItem(o, ref, root, it).Success?
    ensures Covers(before, ObserveItem(o, ref, root, it).value, id)
  {
    hide Release, Claim, ItemKey, Covers;
    var key := ItemKey(root, it);
    var o0 := Touch(o, key);
    CoversOn(before, o, o0, id);
    var was := SightingAt(o0.db, ref);
    if was.Some? && (was.value.key != key || was.value.item.path != it.path) {
      ReleaseCovers(before, o0, ref, was.value, id);
    }
    var o1 := GiveUp(o0, ref, key, it.path).value;
    if key.Some? {
      ClaimCovers(before, o1, ref, key.value, it.path, id);
      CoversOn(before, Claim(o1, ref, key.value, it.path).value.0, ObserveItem(o, ref, root, it).value, id);
    } else {
      CoversOn(before, o1, ObserveItem(o, ref, root, it).value, id);
    }
  }

  lemma {:induction false} AllCovers(before: Db, o: Obs, rr: RootRef, root: Root, items: seq<Item>, id: InstId)
    requires id in before.instances && Covers(before, o, id) && ObserveAll(o, rr, root, items).Success?
    ensures Covers(before, ObserveAll(o, rr, root, items).value, id)
  {
    hide ObserveItem, Covers;
    if items != [] {
      var n := |items| - 1;
      AllCovers(before, o, rr, root, items[..n], id);
      ItemCovers(before, ObserveAll(o, rr, root, items[..n]).value, ItemRef(rr, items[n].native), root, items[n], id);
    }
  }

  lemma RetireOneCovers(before: Db, o: Obs, ref: ItemRef, id: InstId)
    requires id in before.instances && Covers(before, o, id) && RetireOne(o, ref).Success?
    ensures Covers(before, RetireOne(o, ref).value, id)
  {
    hide Release, Covers;
    var o1 := o.(db := o.db.(stamps := o.db.stamps - {ref}));
    CoversOn(before, o, o1, id);
    if ref.item != "" && ref in o1.db.sightings {
      ReleaseCovers(before, o1, ref, o1.db.sightings[ref], id);
      CoversOn(before, Release(o1, ref, o1.db.sightings[ref]).value, RetireOne(o, ref).value, id);
    } else {
      CoversOn(before, o1, RetireOne(o, ref).value, id);
    }
  }

  lemma {:induction false} RetireCovers(before: Db, o: Obs, refs: seq<ItemRef>, id: InstId)
    requires id in before.instances && Covers(before, o, id) && RetireAll(o, refs).Success?
    ensures Covers(before, RetireAll(o, refs).value, id)
  {
    hide RetireOne, Covers;
    if refs != [] {
      var n := |refs| - 1;
      RetireCovers(before, o, refs[..n], id);
      RetireOneCovers(before, RetireAll(o, refs[..n]).value, refs[n], id);
    }
  }

  /** Orphans expire, which an owned instance is not. */
  lemma OrphansCovers(before: Db, o: Obs, id: InstId)
    requires id in before.instances && Covers(before, o, id)
    ensures Covers(before, ExpireAll(o, Orphans(o)), id)
  {
    hide UnlinkedFrom, KeysHeld, ItemRoots, RowsWithout;
  }

  /** Deleting an emptied instance is reported under the roots it had keys of.
      */
  lemma SettledWritten(before: Db, o: Obs, a: Activation, id: InstId, k: Key)
    requires id in before.instances && Covers(before, o, id) && k in before.instances[id].items && Settle(o, a).Success?
    requires id !in DropEmptied(o).db.instances
    ensures k.root in Settle(o, a).value.written
  {
    hide HandOn, Recompute;
    assert id in StillEmpty(o);
    assert k in o.emptied[id];
  }

  ghost predicate OwnedBefore(db: Db, id: InstId) {
    id in db.instances && db.instances[id].owner.Some? && id <= db.lastInst
  }

  /** A report that deletes an owned instance marks the root of every item it
      listed before the report written, whatever emptied it. */
  lemma ReportWritten(db: Db, a: Activation, src: SourceId, pass: PassId, now: Time, root: Root, items: seq<Item>, id: InstId, k: Key)
    requires OwnedBefore(db, id) && k in db.instances[id].items
    requires ObserveItems(db, Some(a), src, pass, now, root, items).Success?
    requires id !in ObserveItems(db, Some(a), src, pass, now, root, items).value.db.instances
    ensures k.root in ObserveItems(db, Some(a), src, pass, now, root, items).value.written
  {
    hide ObserveAll, Settle, ValidReport, Scenes, Covers;
    var o, rr := Begun(db, src, pass, now), RootRef(src, root.native);
    var o1 := StampRoot(o, rr, root).(scene := Scenes(items));
    BegunCovers(db, o, id);
    CoversOn(db, o, o1, id);
    AllCovers(db, o1, rr, root, items, id);
    var on := ObserveAll(o1, rr, root, items).value;
    SettledInstances(on, a);
    SettledWritten(db, on, a, id, k);
  }

  lemma BegunCovers(db: Db, o: Obs, id: InstId)
    requires OwnedBefore(db, id) && o.db.instances == db.instances && o.db.lastInst == db.lastInst
    ensures Covers(db, o, id)
  {
  }

  lemma SettledInstances(o: Obs, a: Activation)
    requires Settle(o, a).Success?
    ensures Settle(o, a).value.db.instances == DropEmptied(o).db.instances
  {
    hide NewCoverage, KeptLocks, Inherited, Unheld, DropEmptied, Heirless;
  }

  /** So does a complete pass. */
  lemma PassWritten(db: Db, a: Activation, src: SourceId, p: PassRow, kept: set<NativeRef>, now: Time, id: InstId, k: Key)
    requires OwnedBefore(db, id) && k in db.instances[id].items
    requires CompletePass(db, a, src, p, kept, now).Success?
    requires id !in CompletePass(db, a, src, p, kept, now).value.db.instances
    ensures k.root in CompletePass(db, a, src, p, kept, now).value.written
  {
    hide RetireAll, StaleRefs, Settle, ExpireAll, Covers;
    var o := Begun(db, src, p.id, now);
    BegunCovers(db, o, id);
    RetireCovers(db, o, StaleRefs(o, kept, p), id);
    var o1 := RetireAll(o, StaleRefs(o, kept, p)).value;
    OrphansCovers(db, o1, id);
    var o2 := ExpireAll(o1, Orphans(o1));
    SettledInstances(o2, a);
    SettledWritten(db, o2, a, id, k);
  }
}
