/** A pending write pins its instance: no observation, pass or activation
    changes its path or its items, or removes it. */
module Pins {
  import opened Wrappers
  import opened Media
  import opened Tables
  import opened Claims
  import opened Judging
  import opened Settlement
  import opened Passes
  import opened Activations
  import opened ClaimsKeep
  import opened ObserveKeeps
  import opened SettlementKeeps
  import opened PassesKeep

  /** Every pending write is still pending, on an instance as it was, and the
      log is as it was. */
  ghost predicate PinsKept(db: Db, db1: Db) {
    && db1.intents == db.intents && db1.downloads == db.downloads
    && forall fk | fk in db.intents && fk.inst in db.instances ::
         fk.inst in db1.instances && db1.instances[fk.inst].items == db.instances[fk.inst].items
         && db1.instances[fk.inst].path == db.instances[fk.inst].path
  }

  lemma HeldTransitive(db: Db, db1: Db, db2: Db)
    requires PinsKept(db, db1) && PinsKept(db1, db2)
    ensures PinsKept(db, db2)
  {
  }

  lemma HeldSame(db: Db, db1: Db)
    requires db1.intents == db.intents && db1.instances == db.instances && db1.downloads == db.downloads
    ensures PinsKept(db, db1)
  {
  }

  lemma DetachHeld(o: Obs, id: InstId, k: Key)
    requires Detach(o, id, k).Success?
    ensures PinsKept(o.db, Detach(o, id, k).value.db)
  {
  }

  lemma ReleaseHeld(o: Obs, ref: ItemRef, was: Sighting)
    requires Release(o, ref, was).Success?
    ensures PinsKept(o.db, Release(o, ref, was).value.db)
  {
    hide Detach;
    var o1 := o.(db := o.db.(overlaps := o.db.overlaps - {ref}));
    if was.key.Some? && was.key.value in o.db.items && o.db.items[was.key.value].ref == ref && o.db.items[was.key.value].inst != 0 {
      DetachHeld(o1, o.db.items[was.key.value].inst, was.key.value);
    }
  }

  lemma AttachHeld(o: Obs, a: Activation, ref: ItemRef, k: Key, p: string)
    requires Weak(o, a)
    requires var at := InstanceAt(o.db.instances, p); at.Some? ==> !OtherOwner(o, at.value)
    requires AttachKey(o, ref, k, p, InstanceAt(o.db.instances, p)).Success?
    ensures PinsKept(o.db, AttachKey(o, ref, k, p, InstanceAt(o.db.instances, p)).value.db)
  {
    hide AttachKey, Linked, Owning, WellFormed, Named, Kept, Rows, Stamped, Current, Pinned, JoinedBy, InstanceAt;
    var at := InstanceAt(o.db.instances, p);
    AttachShape(o, ref, k, p, at);
    AttachedIntents(o, ref, k, JoinedBy(o, k, p, at));
    forall fk | fk in o.db.intents && fk.inst in o.db.instances
      ensures var after := AttachKey(o, ref, k, p, at).value.db.instances;
              fk.inst in after && after[fk.inst].items == o.db.instances[fk.inst].items && after[fk.inst].path == o.db.instances[fk.inst].path
    {
      PinnedBy(o.db.intents, fk);
      AttachUnpinned(o, ref, k, p, at, fk.inst);
    }
  }

  lemma PinnedBy(intents: map<FileKey, Intent>, fk: FileKey)
    requires fk in intents
    ensures Pinned(intents, fk.inst)
  {
  }

  lemma AttachedIntents(o: Obs, ref: ItemRef, k: Key, j: Joined)
    ensures AttachedDb(o, ref, k, j).downloads == o.db.downloads
    ensures AttachedDb(o, ref, k, j).intents == o.db.intents && AttachedDb(o, ref, k, j).instances == j.instances[j.id := j.inst]
  {
    hide RowsWithout;
    if j.dropped.Some? {
    } else {
    }
  }

  lemma ClaimHeld(o: Obs, a: Activation, ref: ItemRef, k: Key, p: string)
    requires Weak(o, a) && Claim(o, ref, k, p).Success?
    ensures PinsKept(o.db, Claim(o, ref, k, p).value.0.db)
  {
    hide Weak, AttachKey, PinsKept, NoVideo;
    if p == "" {
      BareFrame(o, ref, k);
      HeldSame(o.db, NoVideo(o, ref, k).db);
    } else {
      var at := InstanceAt(o.db.instances, p);
      var rec := RecordOf(o.db.items, k);
      var rival := Rival(o, at, rec);
      if rival.Some? {
        HeldSame(o.db, o.db.(overlaps := o.db.overlaps[ref := rival.value]));
      } else if IsHeld(rec) && rec.value.ref != ref && rec.value.ref.root.source == o.src && HeldElsewhere(o, rec.value) {
        HeldSame(o.db, o.db.(overlaps := o.db.overlaps - {ref}));
      } else {
        AttachHeld(o, a, ref, k, p);
      }
    }
  }

  lemma GiveUpHeld(o: Obs, ref: ItemRef, key: Option<Key>, p: string)
    requires GiveUp(o, ref, key, p).Success?
    ensures PinsKept(o.db, GiveUp(o, ref, key, p).value.db)
  {
    hide Release, PinsKept;
    HeldSame(o.db, o.db);
    if ref in o.db.sightings && (o.db.sightings[ref].key != key || o.db.sightings[ref].item.path != p) {
      ReleaseHeld(o, ref, o.db.sightings[ref]);
    }
  }

  lemma ObserveItemHeld(o: Obs, a: Activation, ref: ItemRef, root: Root, it: Item)
    requires Weak(o, a) && Ready(o, ref) && ObserveItem(o, ref, root, it).Success?
    ensures PinsKept(o.db, ObserveItem(o, ref, root, it).value.db)
  {
    hide Weak, Settled, GiveUp, Claim, ItemKey, PinsKept, Ready;
    var key := ItemKey(root, it);
    var o0 := Touch(o, key);
    var o1 := GiveUp(o0, ref, key, it.path).value;
    TouchKeeps(o, a, key);
    ReadyOn(o, o0, ref);
    GiveUpReady(o0, a, ref, key, it.path);
    GiveUpHeld(o0, ref, key, it.path);
    var o2 := if key.None? then o1 else Claim(o1, ref, key.value, it.path).value.0;
    if key.None? {
      HeldSame(o1.db, o1.db);
    } else {
      ClaimHeld(o1, a, ref, key.value, it.path);
    }
    HeldTransitive(o.db, o1.db, o2.db);
    HeldSame(o2.db, ObserveItem(o, ref, root, it).value.db);
    HeldTransitive(o.db, o2.db, ObserveItem(o, ref, root, it).value.db);
  }

  lemma ReadyOn(o: Obs, o1: Obs, ref: ItemRef)
    requires Ready(o, ref) && o1.src == o.src && o1.pass == o.pass && o1.db == o.db
    ensures Ready(o1, ref)
  {
  }

  lemma {:induction false} ObserveAllHeld(o: Obs, a: Activation, rr: RootRef, root: Root, items: seq<Item>)
    requires Weak(o, a) && rr.source == o.src && rr in o.db.roots && ItemRef(rr, "") in o.db.stamps && o.db.stamps[ItemRef(rr, "")] == o.pass
    requires Identified(items) && ObserveAll(o, rr, root, items).Success?
    ensures PinsKept(o.db, ObserveAll(o, rr, root, items).value.db)
  {
    hide Weak, ObserveItem, PinsKept;
    if items == [] {
      HeldSame(o.db, o.db);
    } else {
      var last := items[|items| - 1];
      var o1 := ObserveAll(o, rr, root, items[..|items| - 1]).value;
      ObserveAllKeeps(o, a, rr, root, items[..|items| - 1]);
      ObserveAllHeld(o, a, rr, root, items[..|items| - 1]);
      ObserveItemHeld(o1, a, ItemRef(rr, last.native), root, last);
      HeldTransitive(o.db, o1.db, ObserveItem(o1, ItemRef(rr, last.native), root, last).value.db);
    }
  }

  lemma DropEmptiedHeld(o: Obs)
    requires Staging(o.db.instances, o.db.intents)
    ensures PinsKept(o.db, DropEmptied(o).db)
  {
    hide EmptiedRoots, RowsWithout;
  }

  lemma SettleHeld(o: Obs, a: Activation)
    requires Weak(o, a)
    ensures Settle(o, a).Success? && PinsKept(o.db, Settle(o, a).value.db)
  {
    hide Settle, PinsKept, DropEmptied, Links, Stamped, Current;
    SettleKeeps(o, a);
    DropEmptiedHeld(o);
    DropEmptiedIntents(o);
    HeldSame(DropEmptied(o).db, Settle(o, a).value.db);
    HeldTransitive(o.db, DropEmptied(o).db, Settle(o, a).value.db);
  }

  lemma DropEmptiedIntents(o: Obs)
    ensures DropEmptied(o).db.intents == o.db.intents && DropEmptied(o).db.downloads == o.db.downloads
  {
    hide EmptiedRoots, RowsWithout;
  }

  lemma ObserveHeld(db: Db, a: Activation, src: SourceId, pass: PassId, now: Time, root: Root, items: seq<Item>)
    requires Inv(db, Some(a)) && Opened(db, src, pass) && Identified(items)
    requires Observe(Begun(db, src, pass, now), root, items).Success?
    ensures PinsKept(db, Observe(Begun(db, src, pass, now), root, items).value.db)
  {
    hide Weak, Inv, ObserveAll, StampRoot, PinsKept;
    var o := Begun(db, src, pass, now);
    var rr := RootRef(src, root.native);
    BeginWeak(db, a, src, pass, now);
    StampRootKeeps(o, a, root, Scenes(items));
    StampRootSame(o, rr, root);
    var o1 := StampRoot(o, rr, root).(scene := Scenes(items));
    StampRootHeld(o, rr, root);
    ObserveAllHeld(o1, a, rr, root, items);
    HeldTransitive(db, o1.db, ObserveAll(o1, rr, root, items).value.db);
  }

  lemma StampRootHeld(o: Obs, rr: RootRef, root: Root)
    ensures PinsKept(o.db, StampRoot(o, rr, root).db)
  {
  }

  lemma ObserveItemsHeld(db: Db, a: Activation, src: SourceId, pass: PassId, now: Time, root: Root, items: seq<Item>)
    requires Inv(db, Some(a)) && ObserveItems(db, Some(a), src, pass, now, root, items).Success?
    ensures PinsKept(db, ObserveItems(db, Some(a), src, pass, now, root, items).value.db)
  {
    hide Inv, Observe, Settle, PinsKept;
    var o := Observe(Begun(db, src, pass, now), root, items).value;
    ReportKeeps(db, a, src, pass, now, root, items);
    ObserveHeld(db, a, src, pass, now, root, items);
    SettleHeld(o, a);
    HeldTransitive(db, o.db, Settle(o, a).value.db);
  }

  /* ---------- Passes ---------- */

  lemma RetireOneHeld(o: Obs, ref: ItemRef)
    requires RetireOne(o, ref).Success?
    ensures PinsKept(o.db, RetireOne(o, ref).value.db)
  {
    hide Release, PinsKept;
    var o1 := o.(db := o.db.(stamps := o.db.stamps - {ref}));
    HeldSame(o.db, o1.db);
    if ref.item == "" {
      HeldSame(o.db, RetireOne(o, ref).value.db);
    } else if ref in o1.db.sightings {
      var o2 := Release(o1, ref, o1.db.sightings[ref]).value;
      ReleaseHeld(o1, ref, o1.db.sightings[ref]);
      HeldTransitive(o.db, o1.db, o2.db);
      HeldSame(o2.db, RetireOne(o, ref).value.db);
      HeldTransitive(o.db, o2.db, RetireOne(o, ref).value.db);
    }
  }

  lemma {:induction false} RetireAllHeld(o: Obs, refs: seq<ItemRef>)
    requires RetireAll(o, refs).Success?
    ensures PinsKept(o.db, RetireAll(o, refs).value.db)
  {
    hide RetireOne, PinsKept;
    if refs == [] {
      HeldSame(o.db, o.db);
    } else {
      var o1 := RetireAll(o, refs[..|refs| - 1]).value;
      RetireAllHeld(o, refs[..|refs| - 1]);
      RetireOneHeld(o1, refs[|refs| - 1]);
      HeldTransitive(o.db, o1.db, RetireOne(o1, refs[|refs| - 1]).value.db);
    }
  }

  lemma ExpireHeld(o: Obs)
    ensures PinsKept(o.db, ExpireAll(o, Orphans(o)).db)
  {
    hide RowsWithout, UnlinkedFrom, KeysHeld, ItemRoots;
  }

  lemma CompletePassHeld(db: Db, a: Activation, src: SourceId, p: PassRow, kept: set<NativeRef>, now: Time)
    requires Inv(db, Some(a)) && src in db.passes && db.passes[src] == p
    requires CompletePass(db.(passes := db.passes - {src}), a, src, p, kept, now).Success?
    ensures PinsKept(db, CompletePass(db.(passes := db.passes - {src}), a, src, p, kept, now).value.db)
  {
    hide Inv, Tidy, Settle, ExpireAll, RetireAll, Stamped, Retired, StaleRefs, PinsKept;
    var o := Begun(db.(passes := db.passes - {src}), src, p.id, now);
    ClosedTidy(db, a, src, p, now);
    var refs := StaleRefs(o, kept, p);
    RetireAllTidy(o, a, refs);
    RetireAllHeld(o, refs);
    var o1 := RetireAll(o, refs).value;
    RetiredStamped(o, o1.db, kept, p);
    ExpireTidy(o1, a, Orphans(o1));
    ExpireSame(o1, Orphans(o1));
    ExpireHeld(o1);
    var o2 := ExpireAll(o1, Orphans(o1));
    assert Weak(o2, a);
    SettleHeld(o2, a);
    HeldSame(db, o.db);
    HeldTransitive(db, o.db, o1.db);
    HeldTransitive(db, o1.db, o2.db);
    HeldTransitive(db, o2.db, Settle(o2, a).value.db);
  }

  /* ---------- Activations ---------- */

  lemma PurgedPins(db: Db, removed: set<SourceId>, now: Time)
    ensures PinsKept(db, Purged(db, removed, now))
  {
    hide RefsOutside, RootsOutside;
  }

  lemma AppliedHeld(db: Db, next: Activation, now: Time)
    requires Applied(db, next, now).Success?
    ensures PinsKept(db, Applied(db, next, now).value)
  {
    hide PinsKept, Purged, HandOn, Stranded;
    var removed := db.stored.sources - next.sources;
    HeldSame(db, db);
    if db.stored != StoredOf(next) && removed != {} {
      var mid := Purged(db, removed, now);
      PurgedPins(db, removed, now);
      HandOnFrame(mid, next, Stranded(mid, removed));
      HeldSame(mid, Applied(db, next, now).value);
      HeldTransitive(db, mid, Applied(db, next, now).value);
    } else {
      HeldSame(db, Applied(db, next, now).value);
    }
  }

  lemma ActivateHeld(db: Db, active: Option<Activation>, next: Activation, now: Time)
    requires Activate(db, active, next, now).Success?
    ensures PinsKept(db, Activate(db, active, next, now).value)
  {
    hide PinsKept, Recompute, Applied;
    var db1 := Applied(db, next, now).value;
    AppliedHeld(db, next, now);
    if Recomputes(db, active, next) {
      RecomputeFrame(db1, next, db1.items.Keys, false);
      HeldSame(db1, Activate(db, active, next, now).value);
      HeldTransitive(db, db1, Activate(db, active, next, now).value);
    }
  }

  lemma RecomputeFrame(db: Db, a: Activation, ks: set<Key>, inventory: bool)
    requires Recompute(db, a, ks, inventory).Success?
    ensures var db1 := Recompute(db, a, ks, inventory).value; db1 == db.(coverage := db1.coverage, locks := db1.locks)
  {
  }

  lemma HandOnFrame(db: Db, a: Activation, lost: set<Key>)
    requires HandOn(db, a, lost).Success?
    ensures var db1 := HandOn(db, a, lost).value; db1 == db.(items := db1.items, coverage := db1.coverage, locks := db1.locks)
  {
    hide Recompute, Inherited, LocksWithout;
    RecomputeFrame(Bequeathed(db, lost), a, lost - Heirless(db.sightings, lost), false);
  }
}
