/** An observing write, item by item: claims given up, keys attached or
    refused, and what is left for the end of the write to make whole. */
module Observations {
  import opened Wrappers
  import opened Media
  import opened Tables
  import opened RefKeys
  import opened Claims
  import opened Judging
  import opened Settlement
  import opened Passes
  import opened ClaimsKeep
  import opened ObserveKeeps
  import opened Transactions
  import opened Coverages
  import opened KeyLoss

  class Observation {
    const tx: Tx
    const src: SourceId
    const pass: PassId
    const now: Time
    var scene: map<string, string>
    var released: set<Key>
    var emptied: map<InstId, set<Key>>
    var touched: set<Key>
    var unidentified: bool
    var written: set<RootKey>

    function Value(): Obs
      reads this, tx
    {
      Obs(tx.db, src, pass, now, scene, released, emptied, touched, unidentified, written)
    }

    constructor (tx: Tx, src: SourceId, pass: PassId, now: Time)
      ensures this.tx == tx && Value() == Begun(tx.db, src, pass, now)
    {
      this.tx, this.src, this.pass, this.now := tx, src, pass, now;
      scene, released, emptied, touched, unidentified, written := map[], {}, map[], {}, false, {};
    }

    /* ---------- Giving up a claim ---------- */

    /** k leaves instance id's list; the end of the write deletes an instance
        that stays empty. */
    method DetachKey(id: InstId, k: Key) returns (e: Outcome<StoreError>)
      modifies this, tx
      ensures Yields(e, Value(), Detach(old(Value()), id, k))
    {
      if id !in tx.db.instances || k !in tx.db.instances[id].items {
        return Pass;
      }
      :- tx.CheckUnpinned(id);
      var inst := tx.db.instances[id];
      emptied := emptied[id := (if id in emptied then emptied[id] else {}) + {k}];
      tx.db := tx.db.(instances := tx.db.instances[id := inst.(items := Without(inst.items, k))]);
      e := Pass;
    }

    /** The claim a stored sighting holds is dropped: its overlap row, and the
        key its record names it for. */
    method ReleaseClaim(ref: ItemRef, was: Sighting) returns (e: Outcome<StoreError>)
      modifies this, tx
      ensures Yields(e, Value(), Release(old(Value()), ref, was))
    {
      hide Detach;
      tx.db := tx.db.(overlaps := tx.db.overlaps - {ref});
      if was.key.None? || was.key.value !in tx.db.items || tx.db.items[was.key.value].ref != ref {
        return Pass;
      }
      var k := was.key.value;
      var rec := tx.db.items[k];
      if rec.inst != 0 {
        :- DetachKey(rec.inst, k);
      }
      DropClaim(k, rec);
      e := Pass;
    }

    method DropClaim(k: Key, rec: Record)
      modifies this, tx
      ensures Value() == old(Value()).(released := old(released) + {k}, touched := old(touched) + {k},
                                       db := old(tx.db).(items := old(tx.db).items[k := rec.(inst := 0)]))
    {
      tx.db := tx.db.(items := tx.db.items[k := rec.(inst := 0)]);
      released, touched := released + {k}, touched + {k};
    }

    /** k's record loses its instance when that is id. */
    method UnlinkRecord(k: Key, id: InstId)
      modifies this, tx
      ensures Value() == UnlinkAll(old(Value()), [k], id)
    {
      if k !in tx.db.items || tx.db.items[k].inst != id {
        assert Unlinked(tx.db.items, [k], id) == tx.db.items && Holders(tx.db.items, [k], id) == {};
        assert tx.db.(items := tx.db.items) == tx.db;
      } else {
        UnlinkedOne(tx.db.items, k, id);
        DropClaim(k, tx.db.items[k]);
      }
    }

    method UnlinkRecords(ks: seq<Key>, id: InstId)
      requires id != 0
      modifies this, tx
      ensures Value() == UnlinkAll(old(Value()), ks, id)
    {
      hide UnlinkAll;
      UnlinkNone(Value(), id);
      for i := 0 to |ks|
        invariant Value() == UnlinkAll(old(Value()), ks[..i], id)
      {
        UnlinkMore(old(Value()), ks[..i], ks[i], id);
        assert ks[..i + 1] == ks[..i] + [ks[i]];
        UnlinkRecord(ks[i], id);
      }
      assert ks[..|ks|] == ks;
    }

    /** An ownerless instance is deleted, and the keys it listed released. */
    method ExpireOne(id: InstId)
      requires id != 0
      modifies this, tx
      ensures Value() == Expire(old(Value()), id)
    {
      hide UnlinkAll, DropInstance, RootsOf;
      var roots, was := tx.DeleteInstance(id);
      if was.Some? {
        written := written + roots;
        UnlinkRecords(was.value.items, id);
      }
    }

    /* ---------- Claiming ---------- */

    /** A key reported with no video: this sighting provides its record unless
        the record keeps its claim. */
    method RecordNoVideo(ref: ItemRef, k: Key)
      modifies this, tx
      ensures Value() == NoVideo(old(Value()), ref, k)
      ensures k in tx.db.items
      ensures tx.db.items[k] ==
              if k in old(tx.db.items) && old(tx.db.items[k]).ref != ref
                 && (old(tx.db.items[k]).inst != 0 || old(tx.db.items[k]).ref.root.source != src
                     || (old(tx.db.items[k]).ref in old(tx.db.stamps) && old(tx.db.stamps[tx.db.items[k].ref]) == pass))
              then old(tx.db.items[k]) else Record(ref, 0)
    {
      if k in tx.db.items && tx.db.items[k].ref != ref {
        var rec := tx.db.items[k];
        if rec.ref.root.source != src || (rec.ref in tx.db.stamps && tx.db.stamps[rec.ref] == pass) || rec.inst != 0 {
          return;
        }
      }
      tx.db := tx.db.(items := tx.db.items[k := Record(ref, 0)]);
    }

    method Create(k: Key, p: string) returns (id: InstId)
      modifies this, tx
      ensures (Value(), id) == NewInstance(old(Value()), k, p)
    {
      id := tx.db.lastInst + 1;
      tx.db := tx.db.(lastInst := id,
                      instances := tx.db.instances[id := Instance(p, if p in scene then scene[p] else "", Some(src), 0, [k])]);
    }

    /** Finds or makes the instance k belongs to, and lists k there. */
    method Attach(at: Option<InstId>, k: Key, p: string) returns (e: Outcome<StoreError>, id: InstId)
      requires at.Some? ==> at.value in tx.db.instances && at.value != 0
      modifies this, tx
      ensures Yields(e, (Value(), id), Join(old(Value()), at, k, p))
    {
      hide UnlinkAll, Expire, Without, NewInstance;
      id := 0;
      if at.None? {
        id := Create(k, p);
        return Pass, id;
      }
      var inst := tx.db.instances[at.value];
      if inst.owner.None? || k !in inst.items {
        var pinned := tx.CheckUnpinned(at.value);
        if pinned.Fail? {
          return pinned, 0;
        }
      }
      if inst.owner.None? && now - inst.orphaned > EXPIRE_AFTER {
        ExpireOne(at.value);
        id := Create(k, p);
        return Pass, id;
      }
      id := at.value;
      if inst.owner.None? {
        UnlinkScene(Value(), inst.items, id, p);
        UnlinkRecords(inst.items, id);
        assert [] + [k] == [k];
        inst := Instance(p, inst.scene, None, 0, []);
      }
      PutJoined(id, inst, k, p);
      e := Pass;
    }

    /** The instance row once this source owns it and it lists k. */
    method PutJoined(id: InstId, inst: Instance, k: Key, p: string)
      modifies tx
      ensures Value() == old(Value()).(db := old(tx.db).(instances := old(tx.db).instances[id :=
                inst.(owner := Some(src), scene := SceneAt(old(Value()), p), items := if k in inst.items then inst.items else inst.items + [k])]))
    {
      var items := if k in inst.items then inst.items else inst.items + [k];
      tx.db := tx.db.(instances := tx.db.instances[id := inst.(owner := Some(src), scene := if p in scene then scene[p] else "", items := items)]);
    }

    /** The claim itself: k moves to p's instance, leaving any other that
        listed it. */
    method AttachFor(ref: ItemRef, k: Key, p: string, at: Option<InstId>) returns (e: Outcome<StoreError>)
      requires at.Some? ==> at.value in tx.db.instances && at.value != 0
      modifies this, tx
      ensures Yields(e, Value(), AttachKey(old(Value()), ref, k, p, at))
    {
      hide Join, Detach;
      var rec := RecordOf(tx.db.items, k);
      var joined, id := Attach(at, k, p);
      if joined.Fail? {
        return joined;
      }
      if rec.Some? && rec.value.inst != 0 && rec.value.inst != id {
        :- DetachKey(rec.value.inst, k);
      }
      tx.db := tx.db.(overlaps := tx.db.overlaps - {ref});
      tx.db := tx.db.(items := tx.db.items[k := Record(ref, id)]);
      e := Pass;
    }

    /** Who else stands in the way of a claim: first at its path, then on its
        key. */
    method OverlapOwner(at: Option<InstId>, rec: Option<Record>) returns (r: Option<Overlap>)
      requires at.Some? ==> at.value in tx.db.instances
      ensures r == Rival(Value(), at, rec)
    {
      if at.Some? && tx.db.instances[at.value].owner.Some? && tx.db.instances[at.value].owner.value != src {
        return Some(Overlap(tx.db.instances[at.value].owner.value, false));
      }
      if rec.None? || rec.value.inst == 0 || at == Some(rec.value.inst) || rec.value.inst !in tx.db.instances {
        return None;
      }
      var owner := tx.db.instances[rec.value.inst].owner;
      r := if owner.None? || owner.value == src then None else Some(Overlap(owner.value, true));
    }

    /** An identified item with a video. Unless its key ends at that path's
        instance or with another owner, its sighting goes unkeyed. */
    method AttachOrNote(ref: ItemRef, k: Key, p: string) returns (e: Outcome<StoreError>, keyed: bool)
      requires UniquePaths(tx.db.instances) && 0 !in tx.db.instances
      modifies this, tx
      ensures Yields(e, (Value(), keyed), AttachOrOverlap(old(Value()), ref, k, p))
    {
      hide AttachKey;
      keyed := true;
      var at := tx.FindInstance(p);
      var rec := RecordOf(tx.db.items, k);
      var rival := OverlapOwner(at, rec);
      if rival.Some? {
        tx.db := tx.db.(overlaps := tx.db.overlaps[ref := rival.value]);
        return Pass, true;
      }
      if rec.Some? && rec.value.inst != 0 && rec.value.ref != ref && rec.value.ref.root.source == src
        && rec.value.ref in tx.db.stamps && tx.db.stamps[rec.value.ref] == pass {
        tx.db := tx.db.(overlaps := tx.db.overlaps - {ref});
        return Pass, at == Some(rec.value.inst);
      }
      e := AttachFor(ref, k, p, at);
    }

    /* ---------- Items ---------- */

    /** The claim ref's stored sighting holds is given up when the report
        differs from it. */
    method GiveUpStored(ref: ItemRef, key: Option<Key>, p: string) returns (e: Outcome<StoreError>)
      requires UniquePaths(tx.db.instances) && 0 !in tx.db.instances
      modifies this, tx
      ensures Yields(e, Value(), GiveUp(old(Value()), ref, key, p))
      ensures e.Pass? ==> UniquePaths(tx.db.instances) && 0 !in tx.db.instances
    {
      hide Release, UniquePaths;
      ghost var o := Value();
      var was := SightingAt(tx.db, ref);
      if was.Some? && (was.value.key != key || was.value.item.path != p) {
        :- ReleaseClaim(ref, was.value);
        ReleasePaths(o, ref, was.value);
      }
      e := Pass;
    }

    /** The rule for what is reported: with no video, or at a path. */
    method ClaimKey(ref: ItemRef, k: Key, p: string) returns (e: Outcome<StoreError>, keyed: bool)
      requires UniquePaths(tx.db.instances) && 0 !in tx.db.instances
      modifies this, tx
      ensures Yields(e, (Value(), keyed), Claim(old(Value()), ref, k, p))
    {
      hide AttachOrOverlap, NoVideo;
      if p == "" {
        RecordNoVideo(ref, k);
        return Pass, true;
      }
      e, keyed := AttachOrNote(ref, k, p);
    }

    /** One reported item: what its sighting claimed goes first, if the report
        moves it; its new claim follows. */
    method Observed(ref: ItemRef, root: Root, it: Item) returns (e: Outcome<StoreError>)
      requires UniquePaths(tx.db.instances) && 0 !in tx.db.instances
      modifies this, tx
      ensures Yields(e, Value(), ObserveItem(old(Value()), ref, root, it))
    {
      hide GiveUp, Claim, StoreSighting, ItemKey, UniquePaths;
      var key := ItemKey(root, it);
      if key.Some? {
        touched := touched + {key.value};
      }
      :- GiveUpStored(ref, key, it.path);
      var keyed := true;
      if key.Some? {
        var f: Outcome<StoreError>;
        f, keyed := ClaimKey(ref, key.value, it.path);
        if f.Fail? {
          return f;
        }
      }
      Store(ref, Sighting(if keyed then key else None, it));
      e := Pass;
    }

    method Store(ref: ItemRef, next: Sighting)
      modifies this, tx
      ensures Value() == StoreSighting(old(Value()), ref, next)
    {
      if UnidentifiedChanged(SightingAt(tx.db, ref), next) {
        unidentified := true;
      }
      tx.db := tx.db.(sightings := tx.db.sightings[ref := next]);
      tx.db := tx.db.(stamps := tx.db.stamps[ref := pass]);
    }

    /* ---------- A report ---------- */

    /** Two items at one path: the earlier one names the scene. */
    method NoteScenes(items: seq<Item>)
      modifies this
      ensures Value() == old(Value()).(scene := Scenes(items))
    {
      scene := map[];
      for i := 0 to |items|
        invariant Value() == old(Value()).(scene := Scenes(items[..i]))
      {
        assert items[..i + 1][..i] == items[..i];
        if items[i].path != "" && items[i].path !in scene {
          scene := scene[items[i].path := items[i].scene];
        }
      }
      assert items[..|items|] == items;
    }

    /** A root's record and its own stamp. */
    method PutRoot(rr: RootRef, root: Root)
      modifies tx
      ensures Value() == StampRoot(old(Value()), rr, root)
    {
      tx.db := tx.db.(roots := tx.db.roots[rr := root]);
      tx.db := tx.db.(stamps := tx.db.stamps[ItemRef(rr, "") := pass]);
    }

    /** Each item in order; the write's weak invariant holds between items. */
    method ObserveItems(rr: RootRef, root: Root, items: seq<Item>, ghost a: Activation) returns (e: Outcome<StoreError>)
      requires Weak(Value(), a) && Identified(items)
      requires rr.source == src && rr in tx.db.roots && ItemRef(rr, "") in tx.db.stamps && tx.db.stamps[ItemRef(rr, "")] == pass
      modifies this, tx
      ensures Yields(e, Value(), ObserveAll(old(Value()), rr, root, items))
      ensures e.Pass? ==> Weak(Value(), a)
    {
      hide Weak, ObserveItem, UniquePaths;
      ghost var o := Value();
      assert ObserveAll(o, rr, root, []) == Success(o);
      for i := 0 to |items|
        invariant ObserveAll(o, rr, root, items[..i]) == Success(Value())
        invariant Weak(Value(), a)
      {
        WeakPaths(Value(), a);
        assert items[..i + 1][..i] == items[..i];
        e := Observed(ItemRef(rr, items[i].native), root, items[i]);
        if e.Fail? {
          ObserveStops(o, rr, root, items, i + 1);
          return;
        }
        ObserveAllKeeps(o, a, rr, root, items[..i + 1]);
      }
      assert items[..|items|] == items;
      e := Pass;
    }

    /** What a pass saw of one root. */
    method Report(root: Root, items: seq<Item>, ghost a: Activation) returns (e: Outcome<StoreError>)
      requires Inv(tx.db, Some(a)) && Opened(tx.db, src, pass) && Identified(items) && Value() == Begun(tx.db, src, pass, now)
      modifies this, tx
      ensures Yields(e, Value(), Observe(old(Value()), root, items))
      ensures e.Pass? ==> Weak(Value(), a)
    {
      hide Inv, Weak, ObserveAll, Scenes;
      var rr := RootRef(src, root.native);
      BeginWeak(tx.db, a, src, pass, now);
      StampRootKeeps(Value(), a, root, Scenes(items));
      PutRoot(rr, root);
      NoteScenes(items);
      e := ObserveItems(rr, root, items, a);
    }

    /* ---------- Retiring what a pass did not see ---------- */

    /** The rows a scan under the source, or one of its roots, finds unstamped. */
    method ScanStale(kept: set<NativeRef>, under: Option<NativeRef>) returns (stale: seq<ItemRef>)
      ensures stale == Sorted(StaleIn(Value(), kept, under))
    {
      stale := [];
      var rest := StaleIn(Value(), kept, under);
      ghost var all := rest;
      hide Sorted, IsFirst;
      while rest != {}
        invariant rest <= all && stale + Sorted(rest) == Sorted(all)
        decreases |rest|
      {
        var ref := NextOf(rest);
        FirstIn(rest, ref);
        SortedHead(rest, ref);
        assert stale + ([ref] + Sorted(rest - {ref})) == stale + [ref] + Sorted(rest - {ref});
        stale, rest := stale + [ref], rest - {ref};
      }
      SortedNone();
    }

    /** The rows of the pass's scope it did not stamp, outside the kept roots. */
    method CollectStale(p: PassRow, kept: set<NativeRef>) returns (stale: seq<ItemRef>)
      ensures stale == StaleRefs(Value(), kept, p)
    {
      hide Sorted;
      if p.roots.None? {
        stale := ScanStale(kept, None);
        StaleWhole(Value(), kept);
        return;
      }
      var roots := p.roots.value;
      stale := [];
      for i := 0 to |roots|
        invariant stale == StaleUnder(Value(), kept, roots[..i])
      {
        var more := ScanStale(kept, Some(roots[i]));
        StaleUnderMore(Value(), kept, roots, i);
        stale := stale + more;
      }
      assert roots[..|roots|] == roots;
    }

    /** One unstamped row: a root's record, or a sighting and its claim. */
    method RetireRow(ref: ItemRef) returns (e: Outcome<StoreError>)
      modifies this, tx
      ensures Yields(e, Value(), RetireOne(old(Value()), ref))
    {
      hide Release;
      tx.db := tx.db.(stamps := tx.db.stamps - {ref});
      if ref.item == "" {
        tx.db := tx.db.(roots := tx.db.roots - {ref.root});
        return Pass;
      }
      if ref !in tx.db.sightings {
        return Pass;
      }
      var was := tx.db.sightings[ref];
      :- ReleaseClaim(ref, was);
      Forget(ref, was);
      e := Pass;
    }

    method Forget(ref: ItemRef, was: Sighting)
      modifies this, tx
      ensures Value() == old(Value()).(unidentified := old(unidentified) || was.key.None?,
                                       db := old(tx.db).(sightings := old(tx.db).sightings - {ref}))
    {
      if was.key.None? {
        unidentified := true;
      }
      tx.db := tx.db.(sightings := tx.db.sightings - {ref});
    }

    method Retire(p: PassRow, kept: set<NativeRef>) returns (e: Outcome<StoreError>)
      modifies this, tx
      ensures Yields(e, Value(), RetireAll(old(Value()), StaleRefs(old(Value()), kept, p)))
    {
      hide RetireOne, StaleRefs;
      ghost var o := Value();
      var stale := CollectStale(p, kept);
      for i := 0 to |stale|
        invariant RetireAll(o, stale[..i]) == Success(Value())
      {
        assert stale[..i + 1][..i] == stale[..i];
        e := RetireRow(stale[i]);
        if e.Fail? {
          RetireStops(o, stale, i + 1);
          return;
        }
      }
      assert stale[..|stale|] == stale;
      e := Pass;
    }

    /** The unpinned ownerless instances whose time is up. */
    method CollectOrphans() returns (ids: set<InstId>)
      ensures ids == Orphans(Value())
    {
      ids := {};
      var rest := tx.db.instances.Keys;
      ghost var met: set<InstId> := {};
      while rest != {}
        invariant met + rest == tx.db.instances.Keys
        invariant forall id :: id in ids <==> id in met && id in Orphans(Value())
        decreases |rest|
      {
        var id :| id in rest;
        var inst := tx.db.instances[id];
        if inst.owner.None? && now - inst.orphaned > EXPIRE_AFTER {
          var pinned := tx.IsPinned(id);
          if !pinned {
            ids := ids + {id};
          }
        }
        met, rest := met + {id}, rest - {id};
      }
    }

    /** Instances ownerless for more than thirty days go, but for those that a
        write waits on. */
    method ExpireOrphans()
      requires 0 !in tx.db.instances
      modifies this, tx
      ensures Value() == ExpireAll(old(Value()), Orphans(old(Value())))
      ensures forall id :: id in tx.db.instances <==>
                && id in old(tx.db.instances)
                && (|| old(tx.db.instances[id]).owner.Some? || now - old(tx.db.instances[id]).orphaned <= 30 * 24 * 3600 * 1_000_000_000
                    || exists fk :: fk in old(tx.db.intents) && fk.inst == id)
    {
      hide ExpireAll, Expire, Orphans;
      ghost var o := Value();
      var rest := CollectOrphans();
      OrphansStored(o);
      ghost var done: set<InstId> := {};
      ExpireNone(o);
      while rest != {}
        invariant done + rest == Orphans(o) && done !! rest
        invariant Value() == ExpireAll(o, done)
        decreases |rest|
      {
        var id :| id in rest;
        ExpireMore(o, done, id);
        ExpireOne(id);
        done, rest := done + {id}, rest - {id};
      }
      assert done == Orphans(o);
      OrphansGone(o);
    }

    /* ---------- The end of the write ---------- */

    /** An emptied instance that nothing refilled is deleted, touching the
        roots its keys were under. */
    method DropRow(id: InstId, ghost o: Obs, ghost gone: set<InstId>)
      requires Value() == Dropped(o, gone) && id in o.emptied && id !in gone
      modifies this, tx
      ensures Value() == Dropped(o, if id in StillEmpty(o) then gone + {id} else gone)
    {
      hide DropInstances, EmptiedRoots, StillEmpty;
      DropFrame(o, gone, id);
      if id in tx.db.instances && tx.db.instances[id].items == [] {
        DropMore(o, gone, id);
        EmptiedSame(Value(), o, id);
        written := written + EmptiedRoots(Value(), {id});
        var _, _ := tx.DeleteInstance(id);
      }
    }

    method DropEmptiedRows()
      modifies this, tx
      ensures Value() == DropEmptied(old(Value()))
    {
      hide Dropped, StillEmpty, DropEmptied;
      ghost var o := Value();
      var rest := emptied.Keys;
      ghost var gone: set<InstId> := {};
      DropNone(o);
      while rest != {}
        invariant rest <= o.emptied.Keys
        invariant forall id: InstId | id in o.emptied :: id in gone <==> id !in rest && id in StillEmpty(o)
        invariant gone <= o.emptied.Keys
        invariant Value() == Dropped(o, gone)
        decreases |rest|
      {
        var id :| id in rest;
        DropRow(id, o, gone);
        if id in StillEmpty(o) {
          gone := gone + {id};
        }
        rest := rest - {id};
      }
      assert gone == StillEmpty(o);
      DropAll(o);
    }

    /** The released keys nothing holds. */
    method CollectUnheld() returns (lost: set<Key>)
      ensures lost == Unheld(Value())
    {
      lost := {};
      var rest := released;
      ghost var met: set<Key> := {};
      while rest != {}
        invariant met + rest == released
        invariant forall k :: k in lost <==> k in met && k in Unheld(Value())
        decreases |rest|
      {
        var k :| k in rest;
        if k in tx.db.items && tx.db.items[k].inst == 0 {
          var ref := tx.db.items[k].ref;
          if ref !in tx.db.sightings || !tx.db.sightings[ref].ClaimsBare(k) {
            lost := lost + {k};
          }
        }
        met, rest := met + {k}, rest - {k};
      }
    }

    /** What the write left is made whole. */
    method Finish(a: Activation) returns (e: Outcome<StoreError>)
      modifies this, tx
      ensures Yields(e, Value(), Settle(old(Value()), a))
    {
      hide DropEmptied, Recompute, HandOn;
      DropEmptiedRows();
      var lost := CollectUnheld();
      :- HandOnKeys(tx, a, lost);
      e := RecomputeKeys(tx, a, touched - lost, false);
    }
  }

  /* ---------- Steps of the loops ---------- */

  lemma UnlinkedOne(items: map<Key, Record>, k: Key, id: InstId)
    requires k in items && items[k].inst == id
    ensures Unlinked(items, [k], id) == items[k := items[k].(inst := 0)] && Holders(items, [k], id) == {k}
  {
  }

  lemma UnlinkNone(o: Obs, id: InstId)
    ensures UnlinkAll(o, [], id) == o
  {
    assert Unlinked(o.db.items, [], id) == o.db.items && Holders(o.db.items, [], id) == {};
    assert o.db.(items := o.db.items) == o.db;
  }

  lemma UnlinkMore(o: Obs, ks: seq<Key>, k: Key, id: InstId)
    requires id != 0
    ensures UnlinkAll(UnlinkAll(o, ks, id), [k], id) == UnlinkAll(o, ks + [k], id)
  {
    var items := Unlinked(o.db.items, ks, id);
    assert Unlinked(items, [k], id) == Unlinked(o.db.items, ks + [k], id);
    assert Holders(o.db.items, ks + [k], id) == Holders(o.db.items, ks, id) + Holders(items, [k], id);
  }

  lemma UnlinkScene(o: Obs, ks: seq<Key>, id: InstId, p: string)
    ensures SceneAt(UnlinkAll(o, ks, id), p) == SceneAt(o, p) && UnlinkAll(o, ks, id).src == o.src
  {
  }

  lemma DetachPaths(o: Obs, id: InstId, k: Key)
    requires UniquePaths(o.db.instances) && 0 !in o.db.instances && Detach(o, id, k).Success?
    ensures var after := Detach(o, id, k).value.db.instances; UniquePaths(after) && 0 !in after
  {
    hide Without, Pinned;
  }

  /** Giving up a claim moves no path. */
  lemma ReleasePaths(o: Obs, ref: ItemRef, was: Sighting)
    requires UniquePaths(o.db.instances) && 0 !in o.db.instances && Release(o, ref, was).Success?
    ensures var after := Release(o, ref, was).value.db.instances; UniquePaths(after) && 0 !in after
  {
    hide Detach, UniquePaths;
    var o1 := o.(db := o.db.(overlaps := o.db.overlaps - {ref}));
    if was.key.Some? && was.key.value in o.db.items && o.db.items[was.key.value].ref == ref && o.db.items[was.key.value].inst != 0 {
      DetachPaths(o1, o.db.items[was.key.value].inst, was.key.value);
    }
  }

  lemma WeakPaths(o: Obs, a: Activation)
    requires Weak(o, a)
    ensures UniquePaths(o.db.instances) && 0 !in o.db.instances
  {
  }

  /** The first item refused stops the report. */
  lemma {:induction false} ObserveStops(o: Obs, rr: RootRef, root: Root, items: seq<Item>, n: nat)
    requires n <= |items| && ObserveAll(o, rr, root, items[..n]).Failure?
    ensures ObserveAll(o, rr, root, items) == ObserveAll(o, rr, root, items[..n])
  {
    if n < |items| {
      assert items[..|items| - 1][..n] == items[..n];
      ObserveStops(o, rr, root, items[..|items| - 1], n);
    } else {
      assert items[..n] == items;
    }
  }

  lemma {:induction false} RetireStops(o: Obs, refs: seq<ItemRef>, n: nat)
    requires n <= |refs| && RetireAll(o, refs[..n]).Failure?
    ensures RetireAll(o, refs) == RetireAll(o, refs[..n])
  {
    if n < |refs| {
      assert refs[..|refs| - 1][..n] == refs[..n];
      RetireStops(o, refs[..|refs| - 1], n);
    } else {
      assert refs[..n] == refs;
    }
  }

  lemma SortedHead(refs: set<ItemRef>, r: ItemRef)
    requires IsFirst(refs, r)
    ensures Sorted(refs) == [r] + Sorted(refs - {r})
  {
    FirstUnique(refs, Sorted(refs)[0], r) by {
      assert exists x :: IsFirst(refs, x);
    }
  }

  lemma SortedNone()
    ensures Sorted({}) == []
  {
  }

  /** What a scan under a source, or under one of its roots, finds unstamped. */
  function StaleIn(o: Obs, kept: set<NativeRef>, under: Option<NativeRef>): set<ItemRef> {
    set ref | ref in o.db.stamps && Stale(o, kept, ref) && (under.Some? ==> ref.root.root == under.value)
  }

  lemma StaleWhole(o: Obs, kept: set<NativeRef>)
    ensures StaleIn(o, kept, None) == set ref | ref in o.db.stamps && Stale(o, kept, ref)
  {
  }

  lemma StaleUnderMore(o: Obs, kept: set<NativeRef>, roots: seq<NativeRef>, i: nat)
    requires i < |roots|
    ensures StaleUnder(o, kept, roots[..i + 1]) == StaleUnder(o, kept, roots[..i]) + Sorted(StaleIn(o, kept, Some(roots[i])))
  {
    assert roots[..i + 1][..i] == roots[..i];
    assert (set ref | ref in o.db.stamps && Stale(o, kept, ref) && ref.root.root == roots[i]) == StaleIn(o, kept, Some(roots[i]));
  }

  lemma OrphansGone(o: Obs)
    ensures forall id :: id in ExpireAll(o, Orphans(o)).db.instances <==>
              && id in o.db.instances
              && (|| o.db.instances[id].owner.Some? || o.now - o.db.instances[id].orphaned <= 30 * 24 * 3600 * 1_000_000_000
                  || exists fk :: fk in o.db.intents && fk.inst == id)
  {
    hide KeysHeld, UnlinkedFrom, ItemRoots, RowsWithout;
  }

  lemma OrphansStored(o: Obs)
    ensures Orphans(o) <= o.db.instances.Keys
  {
  }

  lemma ExpireNone(o: Obs)
    ensures ExpireAll(o, {}) == o
  {
    assert KeysHeld(o.db, {}) == {} && ItemRoots(o.db, {}) == {} && UnlinkedFrom(o.db, {}) == o.db.items;
    DropNoInstances(o.db);
    assert o.db.(items := o.db.items) == o.db;
  }

  lemma DropNoInstances(db: Db)
    ensures DropInstances(db, {}) == db
  {
    assert db.instances - {} == db.instances && RowsWithout(db.files, {}) == db.files && RowsWithout(db.baselines, {}) == db.baselines;
    assert db.local - {} == db.local && db.embedded - {} == db.embedded;
    assert db.(instances := db.instances, files := db.files, baselines := db.baselines, local := db.local, embedded := db.embedded) == db;
  }

  lemma DropInstancesMore(db: Db, ids: set<InstId>, id: InstId)
    ensures DropInstance(DropInstances(db, ids), id) == DropInstances(db, ids + {id})
  {
    assert db.instances - ids - {id} == db.instances - (ids + {id});
    assert RowsWithout(RowsWithout(db.files, ids), {id}) == RowsWithout(db.files, ids + {id});
    assert RowsWithout(RowsWithout(db.baselines, ids), {id}) == RowsWithout(db.baselines, ids + {id});
    assert db.local - ids - {id} == db.local - (ids + {id});
    assert db.embedded - ids - {id} == db.embedded - (ids + {id});
  }

  /** One more instance expired, after some have. */
  lemma ExpireMore(o: Obs, done: set<InstId>, id: InstId)
    requires id !in done && id in o.db.instances && id != 0 && 0 !in o.db.instances
    ensures Expire(ExpireAll(o, done), id) == ExpireAll(o, done + {id})
  {
    hide DropInstances, ItemRoots, RootsOf;
    var o1 := ExpireAll(o, done);
    var ks := o.db.instances[id].items;
    ExpireInstances(o, done, id);
    ItemRootsMore(o.db, done, id);
    DropInstancesMore(o.db, done, id);
    UnlinkedMore(o.db, done, id);
    DropOnly(o.db, done, id);
  }

  lemma ExpireInstances(o: Obs, done: set<InstId>, id: InstId)
    requires id !in done && id in o.db.instances
    ensures id in ExpireAll(o, done).db.instances && ExpireAll(o, done).db.instances[id] == o.db.instances[id]
  {
  }

  lemma ItemRootsMore(db: Db, done: set<InstId>, id: InstId)
    requires id in db.instances
    ensures ItemRoots(db, done + {id}) == ItemRoots(db, done) + RootsOf(db.instances[id].items)
  {
  }

  lemma UnlinkedMore(db: Db, done: set<InstId>, id: InstId)
    requires id !in done && id in db.instances && id != 0
    ensures var ks := db.instances[id].items;
            && Unlinked(UnlinkedFrom(db, done), ks, id) == UnlinkedFrom(db, done + {id})
            && KeysHeld(db, done + {id}) == KeysHeld(db, done) + Holders(UnlinkedFrom(db, done), ks, id)
  {
  }

  lemma DropOnly(db: Db, done: set<InstId>, id: InstId)
    ensures DropInstances(db, done).items == db.items
    ensures forall items :: DropInstance(DropInstances(db, done).(items := items), id) == DropInstance(DropInstances(db, done), id).(items := items)
  {
  }

  /* ---------- Dropping what was emptied ---------- */

  ghost function Dropped(o: Obs, gone: set<InstId>): Obs {
    o.(db := DropInstances(o.db, gone), written := o.written + EmptiedRoots(o, gone))
  }

  lemma DropNone(o: Obs)
    ensures Dropped(o, {}) == o && StillEmpty(o) <= o.emptied.Keys
  {
    DropNoInstances(o.db);
    assert EmptiedRoots(o, {}) == {};
  }

  lemma DropAll(o: Obs)
    ensures Dropped(o, StillEmpty(o)) == DropEmptied(o)
  {
  }

  lemma DropFrame(o: Obs, gone: set<InstId>, id: InstId)
    requires id in o.emptied && id !in gone
    ensures var after := DropInstances(o.db, gone);
            id in after.instances && after.instances[id].items == [] <==> id in StillEmpty(o)
  {
  }

  lemma EmptiedSame(o: Obs, o1: Obs, id: InstId)
    requires o.emptied == o1.emptied
    ensures EmptiedRoots(o, {id}) == EmptiedRoots(o1, {id})
  {
  }

  lemma DropMore(o: Obs, gone: set<InstId>, id: InstId)
    requires id in o.emptied
    ensures DropInstance(DropInstances(o.db, gone), id) == DropInstances(o.db, gone + {id})
    ensures EmptiedRoots(o, gone + {id}) == EmptiedRoots(o, gone) + EmptiedRoots(o, {id})
  {
    DropInstancesMore(o.db, gone, id);
  }
}
