/** Which reports are refused for a pending write: those with an item that
    would move a key or a claim of an instance it waits on. */
module ReportRefusals {
  import opened Wrappers
  import opened Media
  import opened Tables
  import opened Claims
  import opened Settlement
  import opened Passes
  import opened ClaimsKeep
  import opened ItemSteps
  import opened ObserveKeeps
  import opened SettlementKeeps
  import opened Renumbering
  import opened Runs
  import opened Refusals
  import Pins

  /* ---------- One item ---------- */

  ghost predicate Awaited(db: Db, id: InstId) {
    id in db.instances && exists fk :: fk in db.intents && fk.inst == id
  }

  /** Attaching k at the path would claim instance id, put k on its list or
      take k off it. */
  predicate Crosses(db: Db, src: SourceId, k: Key, path: string, id: InstId) {
    && id in db.instances
    && if db.instances[id].path == path then !(db.instances[id].owner == Some(src) && k in db.instances[id].items)
       else HeldAt(db, k).Some? && HeldAt(db, k).value.inst == id
  }

  /** The item is reported under another key, or at another path, than its
      sighting, whose key an awaited instance holds. */
  ghost predicate Leaves(db: Db, ref: ItemRef, key: Option<Key>, path: string) {
    ref in db.sightings && (db.sightings[ref].key != key || db.sightings[ref].item.path != path) && HeldUp(db, ref)
  }

  /** What an item meets of the writes that are pending. */
  ghost predicate Meets(o: Obs, ref: ItemRef, key: Option<Key>, path: string) {
    || Leaves(o.db, ref, key, path)
    || (Attaching(o, ref, key, path) && exists id :: Awaited(o.db, id) && Crosses(o.db, o.src, key.value, path, id))
  }

  lemma GiveUpRefused(o: Obs, ref: ItemRef, key: Option<Key>, path: string)
    requires 0 !in o.db.instances
    ensures GiveUp(o, ref, key, path).Failure? <==> Leaves(o.db, ref, key, path)
  {
    hide Release, HeldUp;
    if ref in o.db.sightings {
      ReleaseRefused(o, ref);
    }
  }

  lemma JoinRefused(o: Obs, k: Key, path: string)
    requires WellFormed(o.db.instances, o.db.lastInst) && !Foreign(o, k, path)
    ensures var at := InstanceAt(o.db.instances, path);
            Join(o, at, k, path).Failure? <==> at.Some? && Awaited(o.db, at.value) && Crosses(o.db, o.src, k, path, at.value)
  {
    hide NewInstance, Expire, UnlinkAll, SceneAt;
    var at := InstanceAt(o.db.instances, path);
    if at.Some? {
      assert o.db.instances[at.value].path == path && !OtherOwner(o, at.value);
    }
  }

  lemma JoinedAt(o: Obs, at: Option<InstId>, k: Key, path: string)
    requires at.Some? ==> at.value in o.db.instances
    requires Join(o, at, k, path).Success?
    ensures var (o1, id) := Join(o, at, k, path).value;
            && id in o1.db.instances && (at == Some(id) || id == o.db.lastInst + 1)
            && o1.db.instances == (if at.Some? && id != at.value then o.db.instances - {at.value} else o.db.instances)[id := o1.db.instances[id]]
  {
    hide SceneAt, UnlinkAll, Expire, Pinned;
    UnlinkedInstances(o, at);
  }

  /** Where joining leaves an instance at another path, or one it replaces. */
  lemma JoinLeaves(o: Obs, k: Key, path: string, id: InstId)
    requires WellFormed(o.db.instances, o.db.lastInst) && id in o.db.instances
    requires Join(o, InstanceAt(o.db.instances, path), k, path).Success?
    ensures var (o1, at) := Join(o, InstanceAt(o.db.instances, path), k, path).value;
            && o1.db.intents == o.db.intents
            && if o.db.instances[id].path != path then id != at && id in o1.db.instances && o1.db.instances[id] == o.db.instances[id]
               else id == at || id !in o1.db.instances
  {
    hide Join;
    var at := InstanceAt(o.db.instances, path);
    JoinIntents(o, k, path, at);
    JoinedAt(o, at, k, path);
  }

  lemma UnlinkedInstances(o: Obs, at: Option<InstId>)
    ensures at.Some? && at.value in o.db.instances ==>
              && UnlinkAll(o, o.db.instances[at.value].items, at.value).db.instances == o.db.instances
              && Expire(o, at.value).db.instances == o.db.instances - {at.value} && Expire(o, at.value).db.lastInst == o.db.lastInst
  {
  }

  /** A key attaches unless an awaited instance stands in the way. */
  lemma AttachRefused(o: Obs, ref: ItemRef, k: Key, path: string)
    requires Links(o) && !Foreign(o, k, path)
    ensures AttachKey(o, ref, k, path, InstanceAt(o.db.instances, path)).Failure? <==>
            exists id :: Awaited(o.db, id) && Crosses(o.db, o.src, k, path, id)
  {
    hide Owning, Named, Kept, EmptiesListed, Detach, Join, Foreign;
    var at := InstanceAt(o.db.instances, path);
    JoinRefused(o, k, path);
    if Join(o, at, k, path).Success? {
      var j := Join(o, at, k, path).value;
      if HeldAt(o.db, k).Some? {
        var id := o.db.items[k].inst;
        JoinLeaves(o, k, path, id);
        DetachRefused(j.0, id, k);
        assert AttachKey(o, ref, k, path, at).Failure? <==> id != j.1 && Detach(j.0, id, k).Failure?;
        assert AttachKey(o, ref, k, path, at).Failure? <==> o.db.instances[id].path != path && Awaited(o.db, id);
      }
      forall id | Awaited(o.db, id) && Crosses(o.db, o.src, k, path, id)
        ensures HeldAt(o.db, k).Some? && o.db.items[k].inst == id && o.db.instances[id].path != path
      {
        if o.db.instances[id].path == path {
          PathHeld(o, path, id);
        }
      }
    }
  }

  lemma PathHeld(o: Obs, path: string, id: InstId)
    requires WellFormed(o.db.instances, o.db.lastInst) && id in o.db.instances && o.db.instances[id].path == path
    ensures InstanceAt(o.db.instances, path) == Some(id)
  {
  }

  lemma ClaimRefused(o: Obs, ref: ItemRef, k: Key, path: string)
    requires Links(o)
    ensures Claim(o, ref, k, path).Failure? <==>
            Attaching(o, ref, Some(k), path) && exists id :: Awaited(o.db, id) && Crosses(o.db, o.src, k, path, id)
  {
    hide Linked, Owning, Named, Kept, EmptiesListed, AttachKey, Awaited, Crosses, Foreign, HeldElsewhere;
    if path != "" {
      RivalForeign(o, k, path);
      if !Foreign(o, k, path) {
        AttachRefused(o, ref, k, path);
      }
    }
  }

  /** An item that gives up its claim leaves awaited instances as they were. */
  lemma CrossesAfter(o: Obs, ref: ItemRef, key: Option<Key>, path: string, k: Key, id: InstId)
    requires Links(o) && GiveUp(o, ref, key, path).Success?
    ensures var o1 := GiveUp(o, ref, key, path).value;
            Awaited(o1.db, id) && Crosses(o1.db, o.src, k, path, id) <==> Awaited(o.db, id) && Crosses(o.db, o.src, k, path, id)
  {
    hide Owning, Named, Kept, EmptiesListed, GiveUp;
    Pins.GiveUpHeld(o, ref, key, path);
    GiveUpAlike(o, ref, key, path);
    GiveUpFrees(o, ref, key, path, k);
    GiveUpRefused(o, ref, key, path);
  }

  /** An item is refused exactly when it meets a pending write. */
  lemma ItemRefused(o: Obs, a: Activation, ref: ItemRef, root: Root, it: Item)
    requires Weak(o, a) && Ready(o, ref)
    ensures ObserveItem(o, ref, root, it).Failure? <==> Meets(o, ref, ItemKey(root, it), it.path)
  {
    hide Weak, Links, GiveUp, Claim, ItemKey, Attaching, Awaited, Crosses, Leaves, Alike;
    var key := ItemKey(root, it);
    var o0 := Touch(o, key);
    WeakLinks(o, a);
    NoZero(o);
    TouchKeeps(o, a, key);
    WeakLinks(o0, a);
    GiveUpRefused(o0, ref, key, it.path);
    TouchDb(o, key);
    if GiveUp(o0, ref, key, it.path).Success? {
      var o1 := GiveUp(o0, ref, key, it.path).value;
      ItemGivesUp(o, a, ref, key, it.path);
      if key.Some? {
        ClaimRefused(o1, ref, key.value, it.path);
        forall id
          ensures Awaited(o1.db, id) && Crosses(o1.db, o.src, key.value, it.path, id) <==> Awaited(o.db, id) && Crosses(o.db, o.src, key.value, it.path, id)
        {
          CrossesAfter(o0, ref, key, it.path, key.value, id);
        }
      } else {
        NoneAttaching(o, ref, it.path);
      }
    }
  }

  lemma NoZero(o: Obs)
    requires Links(o)
    ensures 0 !in o.db.instances
  {
    hide Linked, Owning, Named, Kept, EmptiesListed;
  }

  lemma TouchDb(o: Obs, key: Option<Key>)
    ensures Touch(o, key).db == o.db && Touch(o, key).src == o.src
  {
  }

  lemma NoneAttaching(o: Obs, ref: ItemRef, path: string)
    ensures !Attaching(o, ref, None, path)
  {
  }

  /* ---------- The items before it ---------- */

  /** What the i-th item meets, by the tables before the report. */
  ghost predicate Meeting(o: Obs, p: Report, i: nat)
    requires i < |p.items|
  {
    || (Leaves(o.db, p.Ref(i), p.KeyAt(i), p.items[i].path) && !Attached(o, p, i, o.db.sightings[p.Ref(i)].key.value))
    || (Attaches(o, p, i) && exists id :: Awaited(o.db, id) && Crosses(o.db, o.src, p.KeyAt(i).value, p.items[i].path, id))
  }

  ghost predicate NoneMeets(o: Obs, p: Report, n: nat)
    requires n <= |p.items|
  {
    forall i: nat | i < n :: !Meeting(o, p, i)
  }

  /** An awaited instance holds its keys until their sightings are reported. */
  ghost predicate Holding(o: Obs, on: Obs, p: Report, n: nat)
    requires n <= |p.items|
  {
    forall x | HeldAt(o.db, x).Some? && Awaited(o.db, HeldAt(o.db, x).value.inst)
               && !p.Names(n, HeldAt(o.db, x).value.ref) && !Attached(o, p, n, x) :: HeldAt(on.db, x) == HeldAt(o.db, x)
  }

  /** An ownerless instance a write waits on is not taken over. */
  lemma NotTaken(o: Obs, p: Report, n: nat, id: InstId)
    requires n <= |p.items| && NoneMeets(o, p, n) && Awaited(o.db, id)
    ensures !TakenOver(o, p, n, id)
  {
    hide Attaches, Awaited, Meeting;
    if TakenOver(o, p, n, id) {
      var j: nat :| j < n && AdriftAt(o.db.instances, id, p.items[j].path) && Attaches(o, p, j);
      AttachesKey(o, p, j);
      CrossingMeets(o, p, j, id);
    }
  }

  lemma CrossingMeets(o: Obs, p: Report, j: nat, id: InstId)
    requires j < |p.items| && Attaches(o, p, j) && Awaited(o.db, id)
    requires p.KeyAt(j).Some? && Crosses(o.db, o.src, p.KeyAt(j).value, p.items[j].path, id)
    ensures Meeting(o, p, j)
  {
    hide Attaches, Awaited, Crosses;
  }

  lemma LeavingMeets(o: Obs, p: Report, j: nat, x: Key)
    requires j < |p.items| && Gives(o.db, p.Ref(j), x) && p.KeyAt(j) != Some(x) && HeldUp(o.db, p.Ref(j)) && !Attached(o, p, j, x)
    ensures Meeting(o, p, j)
  {
    hide HeldUp, Attaches;
  }

  lemma AttachesKey(o: Obs, p: Report, j: nat)
    requires j < |p.items| && Attaches(o, p, j)
    ensures p.KeyAt(j).Some? && p.items[j].path != "" && !Foreign(o, p.KeyAt(j).value, p.items[j].path)
  {
  }

  /** A key an awaited instance holds is not given up by items under others. */
  lemma NotGivenUp(o: Obs, p: Report, n: nat, x: Key)
    requires Linked(o.db.items, o.db.instances) && n <= |p.items| && NoneMeets(o, p, n) && !p.Keys(n, x)
    requires HeldAt(o.db, x).Some? && Awaited(o.db, HeldAt(o.db, x).value.inst)
    ensures Waiting(o, p, n, x) == HeldAt(o.db, x)
  {
    hide Attaches, TakenOver, Meeting, Leaves;
    NotTaken(o, p, n, HeldAt(o.db, x).value.inst);
    if GaveUp(o, p, n, x) {
      var j: nat :| j < n && Gives(o.db, p.Ref(j), x);
      assert p.KeyAt(j) != Some(x) && !Attached(o, p, j, x);
      LeavingMeets(o, p, j, x);
    }
  }

  /** An awaited instance stands as it did before the report. */
  lemma AwaitedStill(o: Obs, on: Obs, p: Report, n: nat, id: InstId)
    requires n <= |p.items| && Tracked(o, on, p, n) && NoneMeets(o, p, n) && Pins.PinsKept(o.db, on.db) && Staging(o.db.instances, o.db.intents)
    ensures Awaited(on.db, id) <==> Awaited(o.db, id)
    ensures Awaited(o.db, id) ==>
              && on.db.instances[id].path == o.db.instances[id].path && on.db.instances[id].owner == o.db.instances[id].owner
              && on.db.instances[id].items == o.db.instances[id].items
  {
    hide TrackedKeys, TrackedSources, TakenOver, NoneMeets, Staged;
    if Awaited(o.db, id) {
      NotTaken(o, p, n, id);
    }
  }

  lemma CrossesStill(o: Obs, on: Obs, p: Report, n: nat, id: InstId)
    requires n < |p.items| && Tracked(o, on, p, n) && NoneMeets(o, p, n) && Pins.PinsKept(o.db, on.db) && Staging(o.db.instances, o.db.intents)
    requires Linked(o.db.items, o.db.instances) && p.Distinct() && p.KeyAt(n).Some? && on.src == o.src
    ensures var k, path := p.KeyAt(n).value, p.items[n].path;
            Awaited(on.db, id) && Crosses(on.db, o.src, k, path, id) <==> Awaited(o.db, id) && Crosses(o.db, o.src, k, path, id)
  {
    hide TrackedInstances, TrackedSources, NoneMeets, Awaited, Waiting, Staging, Attaches, Linked;
    var k := p.KeyAt(n).value;
    AwaitedStill(o, on, p, n, id);
    assert !p.Keys(n, k);
    assert HeldAt(on.db, k) == Waiting(o, p, n, k);
    WaitingHeld(o, p, n, k);
    if HeldAt(o.db, k).Some? && Awaited(o.db, HeldAt(o.db, k).value.inst) {
      NotGivenUp(o, p, n, k);
    }
    AwaitedThere(o.db, id);
    AwaitedThere(on.db, id);
  }

  lemma WaitingHeld(o: Obs, p: Report, n: nat, x: Key)
    requires n <= |p.items|
    ensures Waiting(o, p, n, x).Some? ==> Waiting(o, p, n, x) == HeldAt(o.db, x)
  {
    hide GaveUp, TakenOver;
  }

  lemma AwaitedThere(db: Db, id: InstId)
    ensures Awaited(db, id) ==> id in db.instances
  {
  }

  lemma HeldUpHeld(db: Db, ref: ItemRef)
    requires 0 !in db.instances && HeldUp(db, ref)
    ensures var x := db.sightings[ref].key.value; HeldAt(db, x).Some? && HeldAt(db, x).value.ref == ref && Awaited(db, HeldAt(db, x).value.inst)
  {
  }

  lemma HeldHeldUp(db: Db, ref: ItemRef, x: Key)
    requires Linked(db.items, db.instances) && ref in db.sightings && db.sightings[ref].key == Some(x)
    requires HeldAt(db, x).Some? && HeldAt(db, x).value.ref == ref && Awaited(db, HeldAt(db, x).value.inst)
    ensures HeldUp(db, ref)
  {
  }

  /** Whether an awaited instance holds an item's key for it, by the tables
      before the report. */
  lemma HeldUpThen(o: Obs, on: Obs, p: Report, n: nat)
    requires n < |p.items| && Tracked(o, on, p, n) && NoneMeets(o, p, n) && Pins.PinsKept(o.db, on.db) && Staging(o.db.instances, o.db.intents)
    requires Links(o) && Links(on) && p.Distinct() && Holding(o, on, p, n)
    ensures HeldUp(on.db, p.Ref(n)) <==> HeldUp(o.db, p.Ref(n)) && !Attached(o, p, n, o.db.sightings[p.Ref(n)].key.value)
  {
    hide TrackedInstances, NoneMeets, Awaited, Waiting, Staging, Attaches, HeldUp, Linked, Owning, WellFormed, Named, Kept, EmptiesListed, Pins.PinsKept;
    var ref := p.Ref(n);
    NoZero(o);
    NoZero(on);
    assert SightingAt(on.db, ref) == SightingAt(o.db, ref);
    if HeldUp(on.db, ref) {
      HeldUpSighted(on.db, ref);
      HeldUpHeld(on.db, ref);
      var x := on.db.sightings[ref].key.value;
      AwaitedStill(o, on, p, n, on.db.items[x].inst);
      HeldBefore(o, on, p, n, x);
      HeldHeldUp(o.db, ref, x);
    }
    if HeldUp(o.db, ref) {
      HeldUpSighted(o.db, ref);
      HeldUpHeld(o.db, ref);
      var x := o.db.sightings[ref].key.value;
      if !Attached(o, p, n, x) {
        assert !p.Names(n, ref);
        AwaitedStill(o, on, p, n, o.db.items[x].inst);
        HeldHeldUp(on.db, ref, x);
      }
    }
  }

  /** A key held for an item not yet reported was held for it before. */
  lemma HeldBefore(o: Obs, on: Obs, p: Report, n: nat, x: Key)
    requires n < |p.items| && Tracked(o, on, p, n) && p.Distinct()
    requires HeldAt(on.db, x).Some? && HeldAt(on.db, x).value.ref == p.Ref(n)
    ensures HeldAt(o.db, x) == HeldAt(on.db, x) && !Attached(o, p, n, x)
  {
    hide TrackedInstances, TrackedSources, Waiting, Attaches;
    WaitingHeld(o, p, n, x);
    if p.Keys(n, x) {
      var j: nat :| j < n && p.KeyAt(j) == Some(x);
      if !Attaches(o, p, j) {
        assert Skipped(o, on, p, n, p.KeyAt(j).value);
      }
    } else {
      assert HeldAt(on.db, x) == Waiting(o, p, n, x);
    }
  }

  /** What the next item meets was settled before the report. */
  lemma NextMeets(o: Obs, on: Obs, p: Report, n: nat)
    requires n < |p.items| && Tracked(o, on, p, n) && NoneMeets(o, p, n) && Pins.PinsKept(o.db, on.db) && Staging(o.db.instances, o.db.intents)
    requires Links(o) && Links(on) && p.Distinct() && o.src == p.src && Holding(o, on, p, n)
    ensures Meets(on, p.Ref(n), p.KeyAt(n), p.items[n].path) <==> Meeting(o, p, n)
  {
    hide Links, TrackedInstances, TrackedKeys, TrackedSources, NoneMeets, Awaited, Staging, Attaches, Attaching, HeldUp, Crosses, Holding, Pins.PinsKept, Attached;
    NextAttaches(o, on, p, n);
    HeldUpThen(o, on, p, n);
    SightingStill(o, on, p, n);
    if Attaches(o, p, n) {
      AttachesKey(o, p, n);
      LinksLinked(o);
      forall id
        ensures var k, path := p.KeyAt(n).value, p.items[n].path;
                Awaited(on.db, id) && Crosses(on.db, o.src, k, path, id) <==> Awaited(o.db, id) && Crosses(o.db, o.src, k, path, id)
      {
        CrossesStill(o, on, p, n, id);
      }
    }
  }

  lemma SightingStill(o: Obs, on: Obs, p: Report, n: nat)
    requires n < |p.items| && Tracked(o, on, p, n)
    ensures SightingAt(on.db, p.Ref(n)) == SightingAt(o.db, p.Ref(n)) && on.src == o.src
  {
    hide TrackedInstances, TrackedKeys;
  }

  lemma HoldingZero(o: Obs, p: Report, scene: map<string, string>)
    ensures Holding(o, StampRoot(o, p.Under(), p.root).(scene := scene), p, 0)
  {
    hide Attaches;
  }

  /** An item that meets no pending write leaves awaited instances their keys. */
  lemma HoldingStep(o: Obs, on: Obs, a: Activation, p: Report, n: nat)
    requires n < |p.items| && Tracked(o, on, p, n) && NoneMeets(o, p, n) && Pins.PinsKept(o.db, on.db) && Staging(o.db.instances, o.db.intents)
    requires Links(o) && p.Distinct() && o.src == p.src && Holding(o, on, p, n) && !Meeting(o, p, n)
    requires Weak(on, a) && Ready(on, p.Ref(n)) && ObserveItem(on, p.Ref(n), p.root, p.items[n]).Success?
    ensures Holding(o, ObserveItem(on, p.Ref(n), p.root, p.items[n]).value, p, n + 1)
  {
    hide Links, Weak, ObserveItem, TrackedInstances, TrackedKeys, TrackedSources, NoneMeets, Awaited, Staging, Attaches, Attaching, Pins.PinsKept, Meeting;
    var ref, path := p.Ref(n), p.items[n].path;
    var on1 := ObserveItem(on, ref, p.root, p.items[n]).value;
    NextAttaches(o, on, p, n);
    forall x | HeldAt(o.db, x).Some? && Awaited(o.db, HeldAt(o.db, x).value.inst)
               && !p.Names(n + 1, HeldAt(o.db, x).value.ref) && !Attached(o, p, n + 1, x)
      ensures HeldAt(on1.db, x) == HeldAt(o.db, x)
    {
      var id := HeldAt(o.db, x).value.inst;
      NamesNext(p, n, HeldAt(o.db, x).value.ref);
      AttachedLess(o, p, n, x);
      assert HeldAt(on.db, x) == HeldAt(o.db, x);
      if p.KeyAt(n) == Some(x) {
        ItemLeaves(on, a, ref, p.root, p.items[n], x);
      } else {
        ItemMoves(on, a, ref, p.root, p.items[n], x);
        AwaitedStill(o, on, p, n, id);
        AwaitedThere(o.db, id);
        if Attaches(o, p, n) && AdriftAt(on.db.instances, id, path) {
          AttachesKey(o, p, n);
          CrossingMeets(o, p, n, id);
        }
      }
    }
  }

  lemma AttachedLess(o: Obs, p: Report, n: nat, x: Key)
    requires n < |p.items|
    ensures Attached(o, p, n + 1, x) <==> Attached(o, p, n, x) || (p.KeyAt(n) == Some(x) && Attaches(o, p, n))
  {
    hide Attaches;
  }

  /** A report stops at the first of its items that meets a pending write. */
  lemma {:induction false} ItemsRefused(o: Obs, a: Activation, p: Report, n: nat)
    requires Weak(o, a) && Opened(o.db, o.src, o.pass) && o.src == p.src && p.Distinct() && n <= |p.items|
    ensures var r := ObserveAll(StampRoot(o, p.Under(), p.root).(scene := Scenes(p.items)), p.Under(), p.root, p.items[..n]);
            && (r.Success? <==> NoneMeets(o, p, n))
            && (r.Success? ==> Holding(o, r.value, p, n) && Pins.PinsKept(o.db, r.value.db))
  {
    hide Weak, ObserveItem, StampRoot, Tracked, Holding, Pins.PinsKept, Meeting, Meets;
    var o1 := StampRoot(o, p.Under(), p.root).(scene := Scenes(p.items));
    StampRootKeeps(o, a, p.root, Scenes(p.items));
    StampRootSame(o, p.Under(), p.root);
    Pins.StampRootHeld(o, p.Under(), p.root);
    if n == 0 {
      HoldingZero(o, p, Scenes(p.items));
    } else {
      var m := n - 1;
      assert p.items[..n][..m] == p.items[..m] && p.items[..n][m] == p.items[m];
      ItemsRefused(o, a, p, m);
      if NoneMeets(o, p, m) {
        var on := ObserveAll(o1, p.Under(), p.root, p.items[..m]).value;
        ReportTracked(o, a, p, m);
        ObserveAllKeeps(o1, a, p.Under(), p.root, p.items[..m]);
        WeakStaging(o, a);
        WeakLinks(o, a);
        WeakLinks(on, a);
        ItemRefused(on, a, p.Ref(m), p.root, p.items[m]);
        NextMeets(o, on, p, m);
        if !Meeting(o, p, m) {
          HoldingStep(o, on, a, p, m);
          Pins.ObserveItemHeld(on, a, p.Ref(m), p.root, p.items[m]);
          Pins.HeldTransitive(o.db, on.db, ObserveItem(on, p.Ref(m), p.root, p.items[m]).value.db);
        }
      }
    }
  }

  lemma WeakStaging(o: Obs, a: Activation)
    requires Weak(o, a)
    ensures Staging(o.db.instances, o.db.intents)
  {
    hide Links, Sourced, Overlapping, Held, Staging;
  }

  /* ---------- A whole report ---------- */

  /** No two identified items share a key. */
  predicate KeysApart(p: Report) {
    forall i: nat, j: nat | i < j < |p.items| :: p.KeyAt(i).None? || p.KeyAt(i) != p.KeyAt(j)
  }

  lemma ApartDistinct(p: Report)
    requires KeysApart(p) && !Malformed(p.root, p.items)
    ensures p.Distinct()
  {
  }

  /** A well-formed report of an open pass is refused exactly when an item of it
      meets a pending write: it is no longer reported under the key, or at the
      path, at which an awaited instance holds its key, no item before it
      having attached that key; or it attaches at the path of an awaited
      instance it does not already hold, or takes its key from one. */
  lemma ReportRefused(s: State, p: Report, pass: PassId, now: Time)
    requires Inv(s.db, s.active) && KeysApart(p)
    ensures Effect(s, Call.Report(p.src, pass, p.root, p.items), now).Failure? <==>
              || Malformed(p.root, p.items) || !InForce(s, p.src) || !IsOpen(s, p.src, pass)
              || exists i: nat :: i < |p.items| && Meeting(Begun(s.db, p.src, pass, now), p, i)
  {
    hide Inv, Weak, Settle, ObserveAll, Meeting, StampRoot, Malformed;
    ReportValid(p.root, p.items);
    if !Malformed(p.root, p.items) && OpenPass(s.db, s.active, p.src, pass).Success? {
      var o := Begun(s.db, p.src, pass, now);
      assert Inv(s.db, Some(s.active.value));
      BeginWeak(s.db, s.active.value, p.src, pass, now);
      ApartDistinct(p);
      ItemsRefused(o, s.active.value, p, |p.items|);
      assert p.items[..|p.items|] == p.items;
      if Observe(o, p.root, p.items).Success? {
        ReportKeeps(s.db, s.active.value, p.src, pass, now, p.root, p.items);
        SettleKeeps(Observe(o, p.root, p.items).value, s.active.value);
      }
    }
  }
}
