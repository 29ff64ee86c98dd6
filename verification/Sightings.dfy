/** What a report stores beside its claims: each item's sighting and overlap
    row, and the mark that unidentified sightings changed. */
module Sightings {
  import opened Wrappers
  import opened Media
  import opened Tables
  import opened Claims
  import opened Settlement
  import opened Passes
  import opened AttachKeep
  import opened ClaimsKeep
  import opened ItemSteps
  import opened ObserveKeeps
  import opened SettlementKeeps
  import opened Renumbering
  import opened Heirs
  import opened BareRecords
  import opened Retirement
  import opened Reclaims

  /* ---------- Whose a key or a path is ---------- */

  /** The other live source that owns an instance at the path, else the one
      that owns the instance holding the key. */
  ghost function RivalAt(db: Db, src: SourceId, k: Key, path: string): Option<Overlap> {
    if path == "" then None
    else if PathOwner(db.instances, src, path).Some? then Some(Overlap(PathOwner(db.instances, src, path).value, false))
    else if ForeignKey(db, src, k) then Some(Overlap(db.instances[db.items[k].inst].owner.value, true))
    else None
  }

  ghost function PathOwner(instances: map<InstId, Instance>, src: SourceId, path: string): Option<SourceId> {
    if id :| id in instances && instances[id].path == path && instances[id].owner.Some? && instances[id].owner.value != src
    then instances[id].owner else None
  }

  predicate ForeignKey(db: Db, src: SourceId, k: Key) {
    && k in db.items && db.items[k].inst != 0 && db.items[k].inst in db.instances
    && db.instances[db.items[k].inst].owner.Some? && db.instances[db.items[k].inst].owner.value != src
  }

  lemma RivalIs(o: Obs, k: Key, p: string)
    requires WellFormed(o.db.instances, o.db.lastInst) && p != ""
    ensures Rival(o, InstanceAt(o.db.instances, p), RecordOf(o.db.items, k)) == RivalAt(o.db, o.src, k, p)
  {
    var at := InstanceAt(o.db.instances, p);
    forall id | id in o.db.instances && o.db.instances[id].path == p
      ensures at == Some(id)
    {
    }
    if ForeignKey(o.db, o.src, k) {
    }
  }

  /** Whose a path or key is, another source's items do not change. */
  ghost predicate OthersKept(db: Db, db1: Db, src: SourceId) {
    && (forall id | Owned(db.instances, id) && db.instances[id].owner != Some(src) ::
          id in db1.instances && db1.instances[id].path == db.instances[id].path && db1.instances[id].owner == db.instances[id].owner)
    && (forall id | Owned(db1.instances, id) && db1.instances[id].owner != Some(src) ::
          Owned(db.instances, id) && db1.instances[id].path == db.instances[id].path && db1.instances[id].owner == db.instances[id].owner)
  }

  ghost predicate PathRival(db: Db, src: SourceId, path: string, id: InstId) {
    Owned(db.instances, id) && db.instances[id].path == path && db.instances[id].owner != Some(src)
  }

  lemma PathRivalIs(db: Db, src: SourceId, last: InstId, k: Key, path: string, id: InstId)
    requires WellFormed(db.instances, last) && PathRival(db, src, path, id)
    ensures path != "" && RivalAt(db, src, k, path) == Some(Overlap(db.instances[id].owner.value, false))
  {
  }

  lemma NoPathRival(db: Db, src: SourceId, k: Key, path: string)
    requires forall id :: !PathRival(db, src, path, id)
    ensures RivalAt(db, src, k, path) ==
            if path != "" && ForeignKey(db, src, k) then Some(Overlap(db.instances[db.items[k].inst].owner.value, true)) else None
  {
    if path != "" {
      if id :| id in db.instances && db.instances[id].path == path && db.instances[id].owner.Some? && db.instances[id].owner.value != src {
        assert PathRival(db, src, path, id);
      }
    }
  }

  lemma RivalKept(db: Db, db1: Db, src: SourceId, last: InstId, last1: InstId, k: Key, p: string)
    requires WellFormed(db.instances, last) && WellFormed(db1.instances, last1) && OthersKept(db, db1, src)
    requires ForeignKey(db, src, k) || ForeignKey(db1, src, k) ==> k in db.items && k in db1.items && db1.items[k].inst == db.items[k].inst
    ensures RivalAt(db1, src, k, p) == RivalAt(db, src, k, p)
  {
    hide WellFormed, RivalAt;
    forall id
      ensures PathRival(db1, src, p, id) <==> PathRival(db, src, p, id)
    {
    }
    if id :| PathRival(db, src, p, id) {
      PathRivalIs(db, src, last, k, p, id);
      PathRivalIs(db1, src, last1, k, p, id);
    } else {
      NoPathRival(db, src, k, p);
      NoPathRival(db1, src, k, p);
      ForeignKept(db, db1, src, k);
    }
  }

  lemma ForeignKept(db: Db, db1: Db, src: SourceId, k: Key)
    requires OthersKept(db, db1, src)
    requires ForeignKey(db, src, k) || ForeignKey(db1, src, k) ==> k in db.items && k in db1.items && db1.items[k].inst == db.items[k].inst
    ensures ForeignKey(db1, src, k) <==> ForeignKey(db, src, k)
    ensures ForeignKey(db, src, k) ==> db1.instances[db1.items[k].inst].owner == db.instances[db.items[k].inst].owner
  {
    if ForeignKey(db, src, k) {
      assert Owned(db.instances, db.items[k].inst);
    }
    if ForeignKey(db1, src, k) {
      assert Owned(db1.instances, db1.items[k].inst);
    }
  }

  /* ---------- One item's overlap row ---------- */

  /** ref's overlap row once its item is observed; no other row changes. */
  ghost function OverlapsAfter(db: Db, src: SourceId, ref: ItemRef, key: Option<Key>, path: string): map<ItemRef, Overlap> {
    if key.Some? && RivalAt(db, src, key.value, path).Some? then db.overlaps[ref := RivalAt(db, src, key.value, path).value]
    else db.overlaps - {ref}
  }

  lemma ClaimOverlaps(o: Obs, a: Activation, ref: ItemRef, k: Key, p: string)
    requires Weak(o, a) && Claim(o, ref, k, p).Success? && Unchallenged(o, ref, Some(k), p)
    ensures Claim(o, ref, k, p).value.0.db.overlaps == OverlapsAfter(o.db, o.src, ref, Some(k), p)
  {
    hide Weak, Links, AttachOrOverlap, NoVideo, OverlapsAfter;
    if p == "" {
      BareFrame(o, ref, k);
      BareNoOverlap(o, a, ref, k);
    } else {
      WeakLinks(o, a);
      VideoOverlaps(o, ref, k, p);
    }
  }

  /** The three ways a video is claimed. */
  lemma VideoCases(o: Obs, ref: ItemRef, k: Key, p: string)
    requires AttachOrOverlap(o, ref, k, p).Success?
    ensures var at, rec, r := InstanceAt(o.db.instances, p), RecordOf(o.db.items, k), AttachOrOverlap(o, ref, k, p).value;
            var rival := Rival(o, at, rec);
            if rival.Some? then r == (o.(db := o.db.(overlaps := o.db.overlaps[ref := rival.value])), true)
            else if IsHeld(rec) && rec.value.ref != ref && rec.value.ref.root.source == o.src && HeldElsewhere(o, rec.value)
            then r == (o.(db := o.db.(overlaps := o.db.overlaps - {ref})), at == Some(rec.value.inst))
            else AttachKey(o, ref, k, p, at).Success? && r == (AttachKey(o, ref, k, p, at).value, true)
  {
    hide AttachKey, Rival, HeldElsewhere, InstanceAt;
  }

  lemma VideoOverlaps(o: Obs, ref: ItemRef, k: Key, p: string)
    requires Links(o) && p != "" && AttachOrOverlap(o, ref, k, p).Success?
    ensures AttachOrOverlap(o, ref, k, p).value.0.db.overlaps == OverlapsAfter(o.db, o.src, ref, Some(k), p)
  {
    hide Linked, Owning, WellFormed, Named, Kept, EmptiesListed, AttachKey, Rival, HeldElsewhere, RivalAt, AttachOrOverlap, InstanceAt;
    VideoCases(o, ref, k, p);
    RivalIs(o, k, p);
    AttachedOverlaps(o, ref, k, p, InstanceAt(o.db.instances, p));
  }

  lemma BareNoOverlap(o: Obs, a: Activation, ref: ItemRef, k: Key)
    requires Weak(o, a) && Unchallenged(o, ref, Some(k), "")
    ensures OverlapsAfter(o.db, o.src, ref, Some(k), "") == o.db.overlaps
  {
  }

  lemma AttachedOverlaps(o: Obs, ref: ItemRef, k: Key, p: string, at: Option<InstId>)
    requires Links(o) && at == InstanceAt(o.db.instances, p)
    ensures AttachKey(o, ref, k, p, at).Success? && Rival(o, at, RecordOf(o.db.items, k)).None? ==>
              AttachKey(o, ref, k, p, at).value.db.overlaps == o.db.overlaps - {ref}
  {
    hide AttachKey, JoinedBy, Linked, Owning, WellFormed, Named, Kept, EmptiesListed;
    if AttachKey(o, ref, k, p, at).Success? && Rival(o, at, RecordOf(o.db.items, k)).None? {
      AttachShape(o, ref, k, p, at);
    }
  }

  lemma AlikeOthers(db: Db, db1: Db, src: SourceId)
    requires Alike(db, db1)
    ensures OthersKept(db, db1, src)
  {
  }

  lemma StandOthers(db: Db, db1: Db, src: SourceId, over: bool, p: string)
    requires Stand(db, db1, src, over, p)
    ensures OthersKept(db, db1, src)
  {
  }

  /** A key of another source's instance rests on none of this source's sightings. */
  lemma ForeignRef(o: Obs, k: Key)
    requires Linked(o.db.items, o.db.instances) && Owning(o.db.items, o.db.instances) && ForeignKey(o.db, o.src, k)
    ensures o.db.items[k].ref.root.source != o.src
  {
  }

  lemma GiveUpRival(o: Obs, a: Activation, ref: ItemRef, key: Option<Key>, p: string, k: Key)
    requires Weak(o, a) && Ready(o, ref) && GiveUp(Touch(o, key), ref, key, p).Success?
    ensures RivalAt(GiveUp(Touch(o, key), ref, key, p).value.db, o.src, k, p) == RivalAt(o.db, o.src, k, p)
  {
    hide Weak, Links, GiveUp, RivalAt, Alike, Attaching;
    var o0 := Touch(o, key);
    var o1 := GiveUp(o0, ref, key, p).value;
    ItemGivesUp(o, a, ref, key, p);
    GiveUpFrees(o0, ref, key, p, k);
    AlikeOthers(o.db, o1.db, o.src);
    WeakLinks(o, a);
    GiveUpKept(o, a, ref, key, p);
    if ForeignKey(o.db, o.src, k) {
      ForeignRef(o, k);
    }
    RivalKept(o.db, o1.db, o.src, o.db.lastInst, o1.db.lastInst, k, p);
  }

  lemma GiveUpKept(o: Obs, a: Activation, ref: ItemRef, key: Option<Key>, p: string)
    requires Weak(o, a) && GiveUp(Touch(o, key), ref, key, p).Success?
    ensures var o1 := GiveUp(Touch(o, key), ref, key, p).value; Weak(o1, a) && WellFormed(o1.db.instances, o1.db.lastInst)
  {
    hide Weak, GiveUp;
    TouchKeeps(o, a, key);
    GiveUpKeeps(Touch(o, key), a, ref, key, p);
    WeakLinks(GiveUp(Touch(o, key), ref, key, p).value, a);
  }

  lemma GiveUpOverlaps(o: Obs, ref: ItemRef, key: Option<Key>, p: string)
    requires GiveUp(o, ref, key, p).Success?
    ensures GiveUp(o, ref, key, p).value.db.overlaps == o.db.overlaps || GiveUp(o, ref, key, p).value.db.overlaps == o.db.overlaps - {ref}
  {
    hide Release;
    if ref in o.db.sightings && (o.db.sightings[ref].key != key || o.db.sightings[ref].item.path != p) {
      ReleaseFrame(o, ref, o.db.sightings[ref]);
    }
  }

  lemma ItemOverlaps(o: Obs, a: Activation, ref: ItemRef, root: Root, it: Item)
    requires Weak(o, a) && Ready(o, ref) && ObserveItem(o, ref, root, it).Success?
    ensures ObserveItem(o, ref, root, it).value.db.overlaps == OverlapsAfter(o.db, o.src, ref, ItemKey(root, it), it.path)
  {
    hide Weak, GiveUp, Claim, ItemKey, RivalAt, Settled, Links;
    var key := ItemKey(root, it);
    var o0 := Touch(o, key);
    var o1 := GiveUp(o0, ref, key, it.path).value;
    TouchKeeps(o, a, key);
    GiveUpReady(o0, a, ref, key, it.path);
    GiveUpOverlaps(o0, ref, key, it.path);
    assert o.db.overlaps - {ref} - {ref} == o.db.overlaps - {ref};
    if key.Some? {
      GiveUpRival(o, a, ref, key, it.path, key.value);
      ClaimOverlaps(o1, a, ref, key.value, it.path);
    } else {
      NoOverlap(o1, a, ref, it.path);
    }
  }

  /* ---------- A report's overlap rows ---------- */

  lemma ItemRival(o: Obs, a: Activation, ref: ItemRef, root: Root, it: Item, k: Key, p: string)
    requires Weak(o, a) && Ready(o, ref) && ObserveItem(o, ref, root, it).Success?
    ensures RivalAt(ObserveItem(o, ref, root, it).value.db, o.src, k, p) == RivalAt(o.db, o.src, k, p)
  {
    hide Weak, Links, ObserveItem, RivalAt, Stand, Attaching;
    var on := ObserveItem(o, ref, root, it).value;
    var key := ItemKey(root, it);
    ItemStands(o, a, ref, root, it);
    ObserveItemKeeps(o, a, ref, root, it);
    WeakLinks(o, a);
    WeakLinks(on, a);
    StandOthers(o.db, on.db, o.src, Attaching(o, ref, key, it.path), it.path);
    if ForeignKey(o.db, o.src, k) {
      ForeignRef(o, k);
      ForeignBars(o, ref, k, it.path);
    }
    if key != Some(k) {
      ItemMoves(o, a, ref, root, it, k);
    } else if !Attaching(o, ref, key, it.path) {
      ItemLeaves(o, a, ref, root, it, k);
    }
    RivalKept(o.db, on.db, o.src, o.db.lastInst, on.db.lastInst, k, p);
  }

  lemma ForeignBars(o: Obs, ref: ItemRef, k: Key, p: string)
    requires ForeignKey(o.db, o.src, k)
    ensures !Attaching(o, ref, Some(k), p)
  {
  }

  /** The overlap row of ref after n items: its item's, or as it was. */
  ghost predicate OverlapKept(o: Obs, on: Obs, p: Report, n: nat, ref: ItemRef)
    requires n <= |p.items|
  {
    && (!p.Names(n, ref) ==> OverlapAt(on.db, ref) == OverlapAt(o.db, ref))
    && forall j: nat | j < n && p.Ref(j) == ref ::
         OverlapAt(on.db, ref) == if p.KeyAt(j).Some? then RivalAt(o.db, p.src, p.KeyAt(j).value, p.items[j].path) else None
  }

  function OverlapAt(db: Db, ref: ItemRef): Option<Overlap> {
    if ref in db.overlaps then Some(db.overlaps[ref]) else None
  }

  lemma OverlapStep(o: Obs, on: Obs, on1: Obs, p: Report, n: nat, ref: ItemRef)
    requires Apart(p) && n < |p.items| && OverlapKept(o, on, p, n, ref)
    requires on1.db.overlaps == OverlapsAfter(on.db, p.src, p.Ref(n), p.KeyAt(n), p.items[n].path)
    requires p.KeyAt(n).Some? ==> RivalAt(on.db, p.src, p.KeyAt(n).value, p.items[n].path) == RivalAt(o.db, p.src, p.KeyAt(n).value, p.items[n].path)
    ensures OverlapKept(o, on1, p, n + 1, ref)
  {
    hide RivalAt;
    NamesNext(p, n, ref);
  }

  /** What n items leave of every rival and of ref's overlap row. */
  ghost predicate RivalsKept(o: Obs, on: Obs, p: Report, n: nat, ref: ItemRef)
    requires n <= |p.items|
  {
    && on.src == o.src && OverlapKept(o, on, p, n, ref)
    && forall k, path :: RivalAt(on.db, p.src, k, path) == RivalAt(o.db, p.src, k, path)
  }

  lemma RivalsStep(o: Obs, on: Obs, a: Activation, p: Report, n: nat, ref: ItemRef)
    requires Apart(p) && n < |p.items| && o.src == p.src && RivalsKept(o, on, p, n, ref)
    requires Weak(on, a) && Ready(on, p.Ref(n)) && ObserveItem(on, p.Ref(n), p.root, p.items[n]).Success?
    ensures RivalsKept(o, ObserveItem(on, p.Ref(n), p.root, p.items[n]).value, p, n + 1, ref)
  {
    hide Weak, ObserveItem, OverlapKept, RivalAt, OverlapsAfter, Ready, Apart;
    var on1 := ObserveItem(on, p.Ref(n), p.root, p.items[n]).value;
    ObserveItemKeeps(on, a, p.Ref(n), p.root, p.items[n]);
    ItemOverlaps(on, a, p.Ref(n), p.root, p.items[n]);
    if p.KeyAt(n).Some? {
      assert RivalAt(on.db, p.src, p.KeyAt(n).value, p.items[n].path) == RivalAt(o.db, p.src, p.KeyAt(n).value, p.items[n].path);
    }
    OverlapStep(o, on, on1, p, n, ref);
    forall k, path
      ensures RivalAt(on1.db, p.src, k, path) == RivalAt(o.db, p.src, k, path)
    {
      ItemRival(on, a, p.Ref(n), p.root, p.items[n], k, path);
    }
  }

  lemma RivalsZero(o: Obs, p: Report, ref: ItemRef, scene: map<string, string>)
    ensures RivalsKept(o, StampRoot(o, p.Under(), p.root).(scene := scene), p, 0, ref)
  {
    forall k, path
      ensures RivalAt(StampRoot(o, p.Under(), p.root).db, p.src, k, path) == RivalAt(o.db, p.src, k, path)
    {
      RivalOn(o.db, StampRoot(o, p.Under(), p.root).db, p.src, k, path);
    }
  }

  lemma RivalOn(db: Db, db1: Db, src: SourceId, k: Key, path: string)
    requires db1.instances == db.instances && db1.items == db.items
    ensures RivalAt(db1, src, k, path) == RivalAt(db, src, k, path)
  {
  }

  lemma {:induction false} ReportRivals(o: Obs, a: Activation, p: Report, n: nat, ref: ItemRef)
    requires Weak(o, a) && Opened(o.db, o.src, o.pass) && o.src == p.src && Apart(p) && n <= |p.items|
    requires ObserveAll(StampRoot(o, p.Under(), p.root).(scene := Scenes(p.items)), p.Under(), p.root, p.items[..n]).Success?
    ensures RivalsKept(o, ObserveAll(StampRoot(o, p.Under(), p.root).(scene := Scenes(p.items)), p.Under(), p.root, p.items[..n]).value, p, n, ref)
  {
    hide Weak, ObserveItem, StampRoot, RivalsKept, Apart;
    var o1 := StampRoot(o, p.Under(), p.root).(scene := Scenes(p.items));
    StampRootKeeps(o, a, p.root, Scenes(p.items));
    StampRootSame(o, p.Under(), p.root);
    if n == 0 {
      RivalsZero(o, p, ref, Scenes(p.items));
    } else {
      var m := n - 1;
      assert p.items[..n][..m] == p.items[..m] && p.items[..n][m] == p.items[m];
      ApartNames(p, m);
      ReportRivals(o, a, p, m, ref);
      ObserveAllKeeps(o1, a, p.Under(), p.root, p.items[..m]);
      RivalsStep(o, ObserveAll(o1, p.Under(), p.root, p.items[..m]).value, a, p, m, ref);
    }
  }

  /** A report leaves an overlap row of each of its items whose path another
      live source owns or, failing that, whose key one holds, naming that
      source; none of its other items has one, and no other row changes. */
  lemma ReportOverlaps(db: Db, a: Activation, pass: PassId, now: Time, p: Report, ref: ItemRef)
    requires Inv(db, Some(a)) && ObserveItems(db, Some(a), p.src, pass, now, p.root, p.items).Success?
    ensures var after := ObserveItems(db, Some(a), p.src, pass, now, p.root, p.items).value.db;
            && (!p.Names(|p.items|, ref) ==> OverlapAt(after, ref) == OverlapAt(db, ref))
            && forall j: nat | j < |p.items| && p.Ref(j) == ref ::
                 OverlapAt(after, ref) == if p.KeyAt(j).Some? then RivalAt(db, p.src, p.KeyAt(j).value, p.items[j].path) else None
  {
    hide Inv, Weak, Settle, ObserveAll, StampRoot, RivalAt;
    var o := Begun(db, p.src, pass, now);
    BeginWeak(db, a, p.src, pass, now);
    assert Apart(p);
    assert p.items[..|p.items|] == p.items;
    ReportRivals(o, a, p, |p.items|, ref);
    SettleRest(Observe(o, p.root, p.items).value, a);
  }

  /* ---------- The sighting stored ---------- */

  /** k is held for another sighting of the source that its pass has stamped. */
  predicate HeldForSeen(o: Obs, ref: ItemRef, k: Key) {
    && k in o.db.items && o.db.items[k].inst != 0 && o.db.items[k].ref != ref && o.db.items[k].ref.root.source == o.src
    && o.db.items[k].ref in o.db.stamps && o.db.stamps[o.db.items[k].ref] == o.pass
  }

  /** A second path for a key: its sighting is stored with no key. */
  ghost predicate SecondPath(o: Obs, ref: ItemRef, k: Key, path: string) {
    && path != "" && RivalAt(o.db, o.src, k, path).None? && HeldForSeen(o, ref, k)
    && !(o.db.items[k].inst in o.db.instances && o.db.instances[o.db.items[k].inst].path == path)
  }

  lemma ClaimKeyed(o: Obs, ref: ItemRef, k: Key, p: string)
    requires Links(o) && Claim(o, ref, k, p).Success?
    ensures Claim(o, ref, k, p).value.1 <==> !SecondPath(o, ref, k, p)
  {
    hide Linked, Owning, Named, Kept, EmptiesListed, AttachKey, Rival, RivalAt, AttachOrOverlap, NoVideo;
    if p != "" {
      VideoCases(o, ref, k, p);
      RivalIs(o, k, p);
      if at :| at in o.db.instances && o.db.instances[at].path == p {
        AtPath(o, at, p);
      }
    }
  }

  lemma AtPath(o: Obs, id: InstId, p: string)
    requires WellFormed(o.db.instances, o.db.lastInst) && id in o.db.instances && o.db.instances[id].path == p
    ensures InstanceAt(o.db.instances, p) == Some(id)
  {
  }

  lemma SecondPathAfter(o: Obs, a: Activation, ref: ItemRef, key: Option<Key>, p: string, k: Key)
    requires Weak(o, a) && Ready(o, ref) && GiveUp(Touch(o, key), ref, key, p).Success?
    ensures SecondPath(GiveUp(Touch(o, key), ref, key, p).value, ref, k, p) <==> SecondPath(o, ref, k, p)
  {
    hide Weak, Links, GiveUp, RivalAt, Attaching;
    var o0 := Touch(o, key);
    ItemGivesUp(o, a, ref, key, p);
    GiveUpFrees(o0, ref, key, p, k);
    GiveUpFrame(o0, ref, key, p);
    GiveUpRival(o, a, ref, key, p, k);
  }

  /** Each item's sighting is stored whole, with its key unless it is a second
      path for one. */
  lemma ItemStored(o: Obs, a: Activation, ref: ItemRef, root: Root, it: Item)
    requires Weak(o, a) && Ready(o, ref) && ObserveItem(o, ref, root, it).Success?
    ensures var key, sightings := ItemKey(root, it), ObserveItem(o, ref, root, it).value.db.sightings;
            && ref in sightings && sightings == o.db.sightings[ref := sightings[ref]]
            && sightings[ref] == Sighting(if key.Some? && SecondPath(o, ref, key.value, it.path) then None else key, it)
  {
    hide Weak, Links, GiveUp, Claim, ItemKey, SecondPath, Attaching, Alike;
    var key := ItemKey(root, it);
    var o0 := Touch(o, key);
    ItemGivesUp(o, a, ref, key, it.path);
    if key.Some? {
      ClaimStands(GiveUp(o0, ref, key, it.path).value, ref, key.value, it.path);
      ClaimKeyed(GiveUp(o0, ref, key, it.path).value, ref, key.value, it.path);
      SecondPathAfter(o, a, ref, key, it.path, key.value);
    }
  }

  /* ---------- The mark of unidentified sightings ---------- */

  function NamelessAt(db: Db, ref: ItemRef): Option<Sighting> {
    if ref in db.sightings && db.sightings[ref].key.None? then Some(db.sightings[ref]) else None
  }

  lemma DetachMark(o: Obs, id: InstId, k: Key)
    ensures Detach(o, id, k).Success? ==> Detach(o, id, k).value.unidentified == o.unidentified
  {
  }

  lemma GiveUpMark(o: Obs, ref: ItemRef, key: Option<Key>, p: string)
    requires GiveUp(o, ref, key, p).Success?
    ensures GiveUp(o, ref, key, p).value.unidentified == o.unidentified
  {
    hide Release;
    if ref in o.db.sightings && (o.db.sightings[ref].key != key || o.db.sightings[ref].item.path != p) {
      ReleaseMark(o, ref, o.db.sightings[ref]);
    }
  }

  lemma JoinMark(o: Obs, at: Option<InstId>, k: Key, p: string)
    requires at.Some? ==> at.value in o.db.instances
    requires Join(o, at, k, p).Success?
    ensures Join(o, at, k, p).value.0.unidentified == o.unidentified
  {
    hide DropInstance, Unlinked;
  }

  lemma AttachMark(o: Obs, ref: ItemRef, k: Key, p: string, at: Option<InstId>)
    requires at.Some? ==> at.value in o.db.instances
    requires AttachKey(o, ref, k, p, at).Success?
    ensures AttachKey(o, ref, k, p, at).value.unidentified == o.unidentified
  {
    hide Join, Detach;
    JoinMark(o, at, k, p);
    if k in o.db.items {
      DetachMark(Join(o, at, k, p).value.0, o.db.items[k].inst, k);
    }
  }

  lemma ClaimMark(o: Obs, ref: ItemRef, k: Key, p: string)
    requires Claim(o, ref, k, p).Success?
    ensures Claim(o, ref, k, p).value.0.unidentified == o.unidentified
  {
    hide AttachKey, Rival, AttachOrOverlap, InstanceAt, NoVideo;
    if p == "" {
      BareFrame(o, ref, k);
    } else {
      VideoCases(o, ref, k, p);
      if AttachKey(o, ref, k, p, InstanceAt(o.db.instances, p)).Success? {
        AttachMark(o, ref, k, p, InstanceAt(o.db.instances, p));
      }
    }
  }

  /** An item sets the mark exactly when its unidentified sighting appears,
      changes or goes. */
  lemma ItemMark(o: Obs, a: Activation, ref: ItemRef, root: Root, it: Item)
    requires Weak(o, a) && Ready(o, ref) && ObserveItem(o, ref, root, it).Success?
    ensures var on := ObserveItem(o, ref, root, it).value;
            on.unidentified <==> o.unidentified || NamelessAt(on.db, ref) != NamelessAt(o.db, ref)
  {
    hide Weak, Links, GiveUp, Claim, ItemKey, Attaching, Alike;
    var key := ItemKey(root, it);
    var o0 := Touch(o, key);
    var o1 := GiveUp(o0, ref, key, it.path).value;
    ItemGivesUp(o, a, ref, key, it.path);
    GiveUpMark(o0, ref, key, it.path);
    if key.Some? {
      ClaimStands(o1, ref, key.value, it.path);
      ClaimMark(o1, ref, key.value, it.path);
    }
  }

  /** The mark after n items, no two of one sighting. */
  ghost predicate Marked(o: Obs, on: Obs, p: Report, n: nat)
    requires n <= |p.items|
  {
    && (forall ref | !p.Names(n, ref) :: SightingAt(on.db, ref) == SightingAt(o.db, ref))
    && (on.unidentified <==> o.unidentified || exists j: nat :: j < n && NamelessAt(on.db, p.Ref(j)) != NamelessAt(o.db, p.Ref(j)))
  }

  lemma MarkedStep(o: Obs, on: Obs, on1: Obs, p: Report, n: nat)
    requires Apart(p) && n < |p.items| && Marked(o, on, p, n)
    requires p.Ref(n) in on1.db.sightings && on1.db.sightings == on.db.sightings[p.Ref(n) := on1.db.sightings[p.Ref(n)]]
    requires on1.unidentified <==> on.unidentified || NamelessAt(on1.db, p.Ref(n)) != NamelessAt(on.db, p.Ref(n))
    ensures Marked(o, on1, p, n + 1)
  {
    forall ref | !p.Names(n + 1, ref)
      ensures SightingAt(on1.db, ref) == SightingAt(o.db, ref)
    {
      NamesNext(p, n, ref);
    }
    assert !p.Names(n, p.Ref(n));
    assert SightingAt(on.db, p.Ref(n)) == SightingAt(o.db, p.Ref(n));
    forall j: nat | j < n
      ensures NamelessAt(on1.db, p.Ref(j)) == NamelessAt(on.db, p.Ref(j))
    {
    }
  }

  lemma {:induction false} ReportMarked(o: Obs, a: Activation, p: Report, n: nat)
    requires Weak(o, a) && Opened(o.db, o.src, o.pass) && o.src == p.src && Apart(p) && n <= |p.items|
    requires ObserveAll(StampRoot(o, p.Under(), p.root).(scene := Scenes(p.items)), p.Under(), p.root, p.items[..n]).Success?
    ensures Marked(o, ObserveAll(StampRoot(o, p.Under(), p.root).(scene := Scenes(p.items)), p.Under(), p.root, p.items[..n]).value, p, n)
  {
    hide Weak, ObserveItem, StampRoot, Marked, Apart, NamelessAt;
    var o1 := StampRoot(o, p.Under(), p.root).(scene := Scenes(p.items));
    StampRootKeeps(o, a, p.root, Scenes(p.items));
    StampRootSame(o, p.Under(), p.root);
    if n == 0 {
      MarkedZero(o, p, Scenes(p.items));
    } else {
      var m := n - 1;
      assert p.items[..n][..m] == p.items[..m] && p.items[..n][m] == p.items[m];
      ApartNames(p, m);
      ReportMarked(o, a, p, m);
      ObserveAllKeeps(o1, a, p.Under(), p.root, p.items[..m]);
      var on := ObserveAll(o1, p.Under(), p.root, p.items[..m]).value;
      ItemStands(on, a, p.Ref(m), p.root, p.items[m]);
      ItemMark(on, a, p.Ref(m), p.root, p.items[m]);
      MarkedStep(o, on, ObserveItem(on, p.Ref(m), p.root, p.items[m]).value, p, m);
    }
  }

  lemma MarkedZero(o: Obs, p: Report, scene: map<string, string>)
    ensures Marked(o, StampRoot(o, p.Under(), p.root).(scene := scene), p, 0)
  {
  }

  /** A report marks the unidentified sightings exactly when they have changed. */
  lemma ReportMarks(db: Db, a: Activation, pass: PassId, now: Time, p: Report)
    requires Inv(db, Some(a)) && ObserveItems(db, Some(a), p.src, pass, now, p.root, p.items).Success?
    ensures var r := ObserveItems(db, Some(a), p.src, pass, now, p.root, p.items).value;
            r.unidentified <==> exists ref :: NamelessAt(r.db, ref) != NamelessAt(db, ref)
  {
    hide Inv, Weak, Settle, ObserveAll, StampRoot;
    var o := Begun(db, p.src, pass, now);
    BeginWeak(db, a, p.src, pass, now);
    assert Apart(p);
    assert p.items[..|p.items|] == p.items;
    ReportMarked(o, a, p, |p.items|);
    var on := Observe(o, p.root, p.items).value;
    ReportKeeps(db, a, p.src, pass, now, p.root, p.items);
    SettleRest(on, a);
    SettleKeeps(on, a);
    if ref :| NamelessAt(on.db, ref) != NamelessAt(db, ref) {
      assert SightingAt(on.db, ref) != SightingAt(db, ref);
    }
  }

  /** So does a pass that is closed. */
  lemma PassMarks(db: Db, a: Activation, src: SourceId, pass: PassId, complete: bool, keep: Option<seq<NativeRef>>, now: Time)
    requires Inv(db, Some(a)) && FinishPass(db, Some(a), src, pass, complete, keep, now).Success?
    ensures var r := FinishPass(db, Some(a), src, pass, complete, keep, now).value;
            r.unidentified <==> exists ref :: NamelessAt(r.db, ref) != NamelessAt(db, ref)
  {
    hide Inv, CompletePass, UnseenRefs, KeyLeft, FilesLeft, InstanceLeft;
    var r := FinishPass(db, Some(a), src, pass, complete, keep, now).value;
    if complete {
      PassLeaves(db, a, src, pass, keep, now);
      var refs := UnseenRefs(db, src, db.passes[src], KeptRoots(keep));
      if ref :| ref in refs && ref in db.sightings && db.sightings[ref].key.None? {
        assert NamelessAt(r.db, ref) != NamelessAt(db, ref);
      }
    }
  }

  /* ---------- Scenes ---------- */

  /** A path's scene is that of the first item reported at it. */
  lemma {:induction false} FirstScene(items: seq<Item>, i: nat)
    requires i < |items| && items[i].path != "" && forall j | 0 <= j < i :: items[j].path != items[i].path
    ensures items[i].path in Scenes(items) && Scenes(items)[items[i].path] == items[i].scene
  {
    var n := |items| - 1;
    if i < n {
      FirstScene(items[..n], i);
    } else {
      NoScene(items[..n], items[i].path);
    }
  }

  lemma {:induction false} NoScene(items: seq<Item>, path: string)
    requires forall j | 0 <= j < |items| :: items[j].path != path
    ensures path !in Scenes(items)
  {
    if items != [] {
      NoScene(items[..|items| - 1], path);
    }
  }

  /** The scene of an instance after a key is attached at p. */
  ghost predicate SceneStep(o: Obs, after: Db, over: bool, p: string, id: InstId) {
    id in after.instances ==>
      if over && after.instances[id].path == p then after.instances[id].scene == SceneAt(o, p)
      else id in o.db.instances && after.instances[id].scene == o.db.instances[id].scene && after.instances[id].path == o.db.instances[id].path
  }

  lemma AttachScene(o: Obs, ref: ItemRef, k: Key, p: string, at: Option<InstId>, id: InstId)
    requires WellFormed(o.db.instances, o.db.lastInst) && at == InstanceAt(o.db.instances, p)
    ensures SceneStep(o, AttachedDb(o, ref, k, JoinedBy(o, k, p, at)), true, p, id)
  {
    hide SceneAt;
    var after := AttachedDb(o, ref, k, JoinedBy(o, k, p, at));
    JoinedScene(o, k, p, at);
    if id in o.db.instances && o.db.instances[id].path != p {
      AttachElsewhere(o, ref, k, p, at, id);
    } else if id in o.db.instances {
      AtPathOnly(o, id, p);
      AttachAt(o, ref, k, p, id);
    } else if id in after.instances {
      AttachAnew(o, ref, k, p, at, id);
    }
  }

  lemma JoinedScene(o: Obs, k: Key, p: string, at: Option<InstId>)
    requires at.Some? ==> at.value in o.db.instances && o.db.instances[at.value].path == p
    ensures JoinedBy(o, k, p, at).inst.scene == SceneAt(o, p) && JoinedBy(o, k, p, at).inst.path == p
  {
    hide SceneAt, FreedInstances, Unlinked;
  }

  lemma AtPathOnly(o: Obs, id: InstId, p: string)
    requires WellFormed(o.db.instances, o.db.lastInst) && id in o.db.instances && o.db.instances[id].path == p
    ensures InstanceAt(o.db.instances, p) == Some(id)
  {
  }

  lemma AttachAt(o: Obs, ref: ItemRef, k: Key, p: string, id: InstId)
    requires id in o.db.instances && o.db.instances[id].path == p && WellFormed(o.db.instances, o.db.lastInst)
    ensures SceneStep(o, AttachedDb(o, ref, k, JoinedBy(o, k, p, Some(id))), true, p, id)
  {
    hide SceneAt, Unlinked;
  }

  lemma AttachAnew(o: Obs, ref: ItemRef, k: Key, p: string, at: Option<InstId>, id: InstId)
    requires at.Some? ==> at.value in o.db.instances
    requires id !in o.db.instances && id in AttachedDb(o, ref, k, JoinedBy(o, k, p, at)).instances
    ensures AttachedDb(o, ref, k, JoinedBy(o, k, p, at)).instances[id] == JoinedBy(o, k, p, at).inst
  {
    hide SceneAt, Unlinked, RowsWithout;
  }

  lemma SceneSame(o: Obs, db1: Db, p: string, id: InstId)
    requires ListsOnly(o.db, db1)
    ensures SceneStep(o, db1, false, p, id)
  {
  }

  lemma SceneAfter(o: Obs, o1: Obs, db2: Db, over: bool, p: string, id: InstId)
    requires ListsOnly(o.db, o1.db) && o1.scene == o.scene && SceneStep(o1, db2, over, p, id)
    ensures SceneStep(o, db2, over, p, id)
  {
  }

  lemma SceneOn(o: Obs, db1: Db, db2: Db, over: bool, p: string, id: InstId)
    requires SceneStep(o, db1, over, p, id) && db2.instances == db1.instances
    ensures SceneStep(o, db2, over, p, id)
  {
  }

  lemma ClaimScene(o: Obs, ref: ItemRef, k: Key, p: string, id: InstId)
    requires Links(o) && Claim(o, ref, k, p).Success?
    ensures SceneStep(o, Claim(o, ref, k, p).value.0.db, Attaching(o, ref, Some(k), p), p, id)
  {
    hide AttachKey, JoinedBy, Foreign, AttachedDb, SceneStep, Taken, Rival, Linked, Owning, Named, Kept, EmptiesListed;
    ListsSame(o.db);
    SceneSame(o, o.db, p, id);
    if p != "" && Attaching(o, ref, Some(k), p) {
      var at := ClaimsAt(o, ref, k, p);
      AttachScene(o, ref, k, p, at, id);
    } else {
      ClaimLeaves(o, ref, k, p);
      SceneOn(o, o.db, Claim(o, ref, k, p).value.0.db, false, p, id);
    }
  }

  lemma ItemScene(on: Obs, a: Activation, ref: ItemRef, root: Root, it: Item, id: InstId)
    requires Weak(on, a) && Ready(on, ref) && ObserveItem(on, ref, root, it).Success?
    ensures SceneStep(on, ObserveItem(on, ref, root, it).value.db, Attaching(on, ref, ItemKey(root, it), it.path), it.path, id)
  {
    hide Weak, Links, GiveUp, Claim, ItemKey, Attaching, Alike, SceneStep, ListsOnly;
    var key := ItemKey(root, it);
    var o0 := Touch(on, key);
    var o1 := GiveUp(o0, ref, key, it.path).value;
    ItemGivesUp(on, a, ref, key, it.path);
    GiveUpFrame(o0, ref, key, it.path);
    GiveUpLists(o0, ref, key, it.path);
    if key.Some? {
      var o2 := Claim(o1, ref, key.value, it.path).value.0;
      ClaimScene(o1, ref, key.value, it.path, id);
      SceneAfter(on, o1, o2.db, Attaching(on, ref, key, it.path), it.path, id);
      SceneOn(on, o2.db, ObserveItem(on, ref, root, it).value.db, Attaching(on, ref, key, it.path), it.path, id);
    } else {
      NoneAttaching(on, ref, it.path);
      SceneSame(on, o1.db, it.path, id);
      SceneOn(on, o1.db, ObserveItem(on, ref, root, it).value.db, false, it.path, id);
    }
  }

  /** Each instance some of n items attached at has its path's scene. */
  ghost predicate ScenesSet(o: Obs, on: Obs, p: Report, n: nat)
    requires n <= |p.items|
  {
    && on.scene == Scenes(p.items)
    && forall id, j: nat | id in on.db.instances && j < n && p.items[j].path == on.db.instances[id].path && Attaches(o, p, j) ::
         on.db.instances[id].scene == SceneAt(on, p.items[j].path)
  }

  lemma ScenesStep(o: Obs, on: Obs, on1: Obs, p: Report, n: nat)
    requires n < |p.items| && ScenesSet(o, on, p, n) && on1.scene == on.scene
    requires forall id :: SceneStep(on, on1.db, Attaches(o, p, n), p.items[n].path, id)
    ensures ScenesSet(o, on1, p, n + 1)
  {
    hide Attaches;
    forall id, j: nat | id in on1.db.instances && j < n + 1 && p.items[j].path == on1.db.instances[id].path && Attaches(o, p, j)
      ensures on1.db.instances[id].scene == SceneAt(on1, p.items[j].path)
    {
      assert SceneStep(on, on1.db, Attaches(o, p, n), p.items[n].path, id);
    }
  }

  lemma {:induction false} ReportScenes(o: Obs, a: Activation, p: Report, n: nat)
    requires Weak(o, a) && Opened(o.db, o.src, o.pass) && o.src == p.src && p.Distinct() && n <= |p.items|
    requires ObserveAll(StampRoot(o, p.Under(), p.root).(scene := Scenes(p.items)), p.Under(), p.root, p.items[..n]).Success?
    ensures ScenesSet(o, ObserveAll(StampRoot(o, p.Under(), p.root).(scene := Scenes(p.items)), p.Under(), p.root, p.items[..n]).value, p, n)
  {
    hide Weak, Links, ObserveItem, StampRoot, Tracked, ScenesSet, SceneStep, Attaching, Attaches;
    var o1 := StampRoot(o, p.Under(), p.root).(scene := Scenes(p.items));
    StampRootKeeps(o, a, p.root, Scenes(p.items));
    StampRootSame(o, p.Under(), p.root);
    if n == 0 {
      NoneSet(o, o1, p);
    } else {
      var m := n - 1;
      assert p.items[..n][..m] == p.items[..m] && p.items[..n][m] == p.items[m];
      ReportScenes(o, a, p, m);
      ReportTracked(o, a, p, m);
      ObserveAllKeeps(o1, a, p.Under(), p.root, p.items[..m]);
      var on := ObserveAll(o1, p.Under(), p.root, p.items[..m]).value;
      var on1 := ObserveItem(on, p.Ref(m), p.root, p.items[m]).value;
      WeakLinks(o, a);
      NextAttaches(o, on, p, m);
      ObserveItemKeeps(on, a, p.Ref(m), p.root, p.items[m]);
      forall id
        ensures SceneStep(on, on1.db, Attaches(o, p, m), p.items[m].path, id)
      {
        ItemScene(on, a, p.Ref(m), p.root, p.items[m], id);
      }
      ScenesStep(o, on, on1, p, m);
    }
  }

  lemma NoneSet(o: Obs, o1: Obs, p: Report)
    requires o1.scene == Scenes(p.items)
    ensures ScenesSet(o, o1, p, 0)
  {
  }

  /** The instance an item attaches at has the scene of the first item reported
      at its path. */
  lemma ReportScene(db: Db, a: Activation, pass: PassId, now: Time, p: Report, i: nat, j: nat)
    requires Inv(db, Some(a)) && Opened(db, p.src, pass) && p.Distinct()
    requires ObserveItems(db, Some(a), p.src, pass, now, p.root, p.items).Success?
    requires j <= i < |p.items| && Attaches(Begun(db, p.src, pass, now), p, i)
    requires p.items[j].path == p.items[i].path && forall x: nat | x < j :: p.items[x].path != p.items[j].path
    ensures var after := ObserveItems(db, Some(a), p.src, pass, now, p.root, p.items).value.db;
            && p.KeyAt(i).Some? && Joins(after, p.src, p.Ref(i), p.KeyAt(i).value, p.items[i].path)
            && after.instances[after.items[p.KeyAt(i).value].inst].scene == p.items[j].scene
  {
    hide Inv, Links, Weak, Settle, ObserveAll, StampRoot, TrackedInstances, TrackedSources, Attaches;
    var o := Begun(db, p.src, pass, now);
    BeginWeak(db, a, p.src, pass, now);
    var on := Reported(db, a, pass, now, p);
    AttachesVideo(o, p, i);
    var k := p.KeyAt(i).value;
    assert ItemSteps.Joins(on.db, o.src, p.Ref(i), k, p.items[i].path);
    JoinedSettles(on, a, p.Ref(i), k, p.items[i].path);
    SettledRecord(on, a, k);
    SettledItems(on, a);
    assert p.items[..|p.items|] == p.items;
    ReportScenes(o, a, p, |p.items|);
    FirstScene(p.items, j);
    DropScene(on, on.db.items[k].inst);
  }

  lemma AttachesVideo(o: Obs, p: Report, i: nat)
    requires i < |p.items| && Attaches(o, p, i)
    ensures p.KeyAt(i).Some? && p.items[i].path != ""
  {
    hide Blocked, Foreign;
  }

  lemma DropScene(o: Obs, id: InstId)
    ensures id in DropEmptied(o).db.instances ==> id in o.db.instances && DropEmptied(o).db.instances[id] == o.db.instances[id]
  {
    hide EmptiedRoots, RowsWithout;
  }

  /* ---------- Keys ---------- */

  /** An item's own id, where its source gives one, else its root's; one past
      the range is none. */
  predicate HasId(own: nat, roots: nat, id: nat) {
    (if own == 0 then roots else own) == id && 0 < id < 9_007_199_254_740_992
  }

  /** A movie's key is its TMDB id, else its IMDb id, its own before its root's. */
  lemma MovieKeyed(root: Root, it: Item, id: nat)
    requires root.native.kind == Movie
    ensures HasId(it.external.tmdb, root.external.tmdb, id) ==> ItemKey(root, it) == Some(Key(RootKey(Movie, TMDB, id), 0, 0))
    ensures (forall x :: !HasId(it.external.tmdb, root.external.tmdb, x)) && HasId(it.external.imdb, root.external.imdb, id)
        ==> ItemKey(root, it) == Some(Key(RootKey(Movie, IMDb, id), 0, 0))
    ensures (forall x :: !HasId(it.external.tmdb, root.external.tmdb, x)) && (forall x :: !HasId(it.external.imdb, root.external.imdb, x))
        ==> ItemKey(root, it).None?
  {
    var tmdb := if it.external.tmdb == 0 then root.external.tmdb else it.external.tmdb;
    var imdb := if it.external.imdb == 0 then root.external.imdb else it.external.imdb;
    assert HasId(it.external.tmdb, root.external.tmdb, tmdb) <==> 0 < tmdb < 9_007_199_254_740_992;
    assert HasId(it.external.imdb, root.external.imdb, imdb) <==> 0 < imdb < 9_007_199_254_740_992;
  }

  /** A show's id by a scheme. */
  function SchemeId(ids: ExternalIds, s: Scheme): nat {
    match s case TVDB => ids.tvdb case TMDB => ids.tmdb case IMDb => ids.imdb case NoScheme => 0
  }

  /** An episode's key is its show's id by the scheme it is numbered by, with
      numbers of two bytes; without either it has none. */
  lemma EpisodeKeyed(root: Root, it: Item)
    requires root.native.kind == Episode
    ensures var n, id := it.numbering, SchemeId(root.external, it.numbering.scheme);
            if 0 < id < 9_007_199_254_740_992 && 0 <= n.season < 65536 && 0 <= n.episode < 65536
            then ItemKey(root, it) == Some(Key(RootKey(Episode, n.scheme, id), n.season, n.episode))
            else ItemKey(root, it).None?
  {
    match it.numbering.scheme
    case NoScheme =>
    case TVDB =>
    case TMDB =>
    case IMDb =>
  }
}
