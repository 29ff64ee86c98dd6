/** What one report does to the instances its source owns: exactly which of
    them stay, with their file records, and so which files a renumbering keeps. */
module Renumbering {
  import opened Wrappers
  import opened Media
  import opened Tables
  import opened Claims
  import opened Settlement
  import opened Passes
  import opened AttachKeep
  import opened ClaimsKeep
  import opened ItemSteps
  import opened ObserveKeeps
  import opened SettlementKeeps

  /* ---------- A report ---------- */

  /** One root's report of a source, its items in order. */
  datatype Report = Report(src: SourceId, root: Root, items: seq<Item>) {
    function Under(): RootRef {
      RootRef(src, root.native)
    }

    function Ref(i: nat): ItemRef
      requires i < |items|
    {
      ItemRef(Under(), items[i].native)
    }

    function KeyAt(i: nat): Option<Key>
      requires i < |items|
    {
      ItemKey(root, items[i])
    }

    /** No two items share an id or a key. */
    ghost predicate Distinct() {
      && (forall i | 0 <= i < |items| :: items[i].native != "")
      && (forall i: nat, j: nat | i < j < |items| :: Ref(i) != Ref(j))
      && (forall i: nat, j: nat | i < j < |items| :: KeyAt(i).None? || KeyAt(i) != KeyAt(j))
    }

    /** One of the first n items is ref's. */
    predicate Names(n: nat, ref: ItemRef)
      requires n <= |items|
    {
      exists j: nat :: j < n && Ref(j) == ref
    }

    /** One of the first n items is reported under x. */
    predicate Keys(n: nat, x: Key)
      requires n <= |items|
    {
      exists j: nat :: j < n && KeyAt(j) == Some(x)
    }
  }

  /* ---------- What the tables say before it ---------- */

  /** Before the n-th item, ref is reported in this pass: earlier, as the
      report's root, or as one of its items. */
  predicate Seen(o: Obs, p: Report, n: nat, ref: ItemRef)
    requires n <= |p.items|
  {
    (ref in o.db.stamps && o.db.stamps[ref] == o.pass) || ref == ItemRef(p.Under(), "") || p.Names(n, ref)
  }

  /** One of the first n items was stored under x and still had its record. */
  predicate GaveUp(o: Obs, p: Report, n: nat, x: Key)
    requires n <= |p.items|
  {
    exists j: nat :: j < n && Gives(o.db, p.Ref(j), x)
  }

  /** One of the first n items attaches at an ownerless instance's path. */
  ghost predicate TakenOver(o: Obs, p: Report, n: nat, id: InstId)
    requires n <= |p.items|
    decreases n, 0
  {
    exists j: nat :: j < n && AdriftAt(o.db.instances, id, p.items[j].path) && Attaches(o, p, j)
  }

  /** The record that holds x when n items are reported, none of them under x. */
  ghost function Waiting(o: Obs, p: Report, n: nat, x: Key): Option<Record>
    requires n <= |p.items|
    decreases n, 1
  {
    if HeldAt(o.db, x).None? || GaveUp(o, p, n, x) || TakenOver(o, p, n, HeldAt(o.db, x).value.inst) then None else HeldAt(o.db, x)
  }

  /** The i-th item's key is by then still held for another sighting of this
      source that the pass has already seen. */
  ghost predicate Blocked(o: Obs, p: Report, i: nat)
    requires i < |p.items|
    decreases i, 2
  {
    && p.KeyAt(i).Some?
    && var rec := Waiting(o, p, i, p.KeyAt(i).value);
       rec.Some? && rec.value.ref != p.Ref(i) && rec.value.ref.root.source == o.src && Seen(o, p, i, rec.value.ref)
  }

  /** The i-th item has a video and a key, both free of other live sources, and
      is not blocked: its key joins the instance at its path. */
  ghost predicate Attaches(o: Obs, p: Report, i: nat)
    requires i < |p.items|
    decreases i, 3
  {
    p.KeyAt(i).Some? && p.items[i].path != "" && !Foreign(o, p.KeyAt(i).value, p.items[i].path) && !Blocked(o, p, i)
  }

  /** One of the first n items attaches x. */
  ghost predicate Attached(o: Obs, p: Report, n: nat, x: Key)
    requires n <= |p.items|
  {
    exists j: nat :: j < n && p.KeyAt(j) == Some(x) && Attaches(o, p, j)
  }

  /** The report leaves instance id a key: an item attaches at its path, or a
      key it holds is neither attached by the report nor of a sighting in it. */
  ghost predicate Survives(o: Obs, p: Report, id: InstId)
    requires id in o.db.instances
  {
    || (exists j: nat :: j < |p.items| && p.items[j].path == o.db.instances[id].path && Attaches(o, p, j))
    || (exists x :: HeldAt(o.db, x).Some? && HeldAt(o.db, x).value.inst == id
                    && !Attached(o, p, |p.items|, x) && !p.Names(|p.items|, HeldAt(o.db, x).value.ref))
  }

  /* ---------- Where the tables stand midway ---------- */

  /** Every instance src or another owns stands, with its files, and an
      ownerless one has an owner only once taken over. */
  ghost predicate TrackedInstances(o: Obs, on: Obs, p: Report, n: nat)
    requires n <= |p.items|
  {
    && (forall id | Owned(o.db.instances, id) ::
          id in on.db.instances && on.db.instances[id].path == o.db.instances[id].path && on.db.instances[id].owner == o.db.instances[id].owner)
    && (forall id | id in o.db.instances && o.db.instances[id].owner.None? && !TakenOver(o, p, n, id) ::
          AdriftAt(on.db.instances, id, o.db.instances[id].path))
    && (forall id | id in on.db.instances && on.db.instances[id].owner.None? ::
          AdriftAt(o.db.instances, id, on.db.instances[id].path) && !TakenOver(o, p, n, id))
    && (forall id | Owned(on.db.instances, id) && on.db.instances[id].owner != Some(o.src) ::
          Owned(o.db.instances, id) && on.db.instances[id].path == o.db.instances[id].path && on.db.instances[id].owner == o.db.instances[id].owner)
    && (forall fk: FileKey | Owned(o.db.instances, fk.inst) ::
          (fk in on.db.files <==> fk in o.db.files) && (fk in o.db.files ==> on.db.files[fk] == o.db.files[fk]))
  }

  /** A key reported but not attached is held by an instance that had an owner
      exactly when it was, for a sighting not yet reported. */
  ghost predicate Skipped(o: Obs, on: Obs, p: Report, n: nat, x: Key)
    requires n <= |p.items|
  {
    && (HeldAt(on.db, x).Some? ==> HeldAt(on.db, x) == HeldAt(o.db, x))
    && (HeldAt(o.db, x).Some? && Owned(o.db.instances, HeldAt(o.db, x).value.inst) ==>
          (HeldAt(on.db, x).Some? <==> !p.Names(n, HeldAt(o.db, x).value.ref)))
  }

  /** Where each key is held: n items are reported. */
  ghost predicate TrackedKeys(o: Obs, on: Obs, p: Report, n: nat)
    requires n <= |p.items|
  {
    && (forall x | !p.Keys(n, x) :: HeldAt(on.db, x) == Waiting(o, p, n, x))
    && (forall j: nat | j < n && Attaches(o, p, j) :: Joins(on.db, o.src, p.Ref(j), p.KeyAt(j).value, p.items[j].path))
    && (forall j: nat | j < n && p.KeyAt(j).Some? && !Attaches(o, p, j) :: Skipped(o, on, p, n, p.KeyAt(j).value))
  }

  ghost predicate TrackedSources(o: Obs, on: Obs, p: Report, n: nat)
    requires n <= |p.items|
  {
    && (forall i: nat | n <= i < |p.items| :: SightingAt(on.db, p.Ref(i)) == SightingAt(o.db, p.Ref(i)))
    && (forall ref :: (ref in on.db.stamps && on.db.stamps[ref] == o.pass) <==> Seen(o, p, n, ref))
  }

  ghost predicate Tracked(o: Obs, on: Obs, p: Report, n: nat)
    requires n <= |p.items|
  {
    && on.src == o.src && on.pass == o.pass
    && TrackedInstances(o, on, p, n) && TrackedKeys(o, on, p, n) && TrackedSources(o, on, p, n)
  }

  /* ---------- One more item ---------- */

  /** Whether the next item attaches was settled before the report. */
  lemma NextAttaches(o: Obs, on: Obs, p: Report, n: nat)
    requires Links(o) && p.Distinct() && o.src == p.src && n < |p.items| && Tracked(o, on, p, n)
    ensures Attaching(on, p.Ref(n), p.KeyAt(n), p.items[n].path) <==> Attaches(o, p, n)
  {
    if p.KeyAt(n).Some? {
      var x := p.KeyAt(n).value;
      assert !p.Keys(n, x);
      NextForeign(o, on, p, n, x, p.items[n].path);
      NextTaken(o, on, p, n, x);
    }
  }

  lemma NextTaken(o: Obs, on: Obs, p: Report, n: nat, x: Key)
    requires n < |p.items| && Tracked(o, on, p, n) && p.KeyAt(n) == Some(x) && !p.Keys(n, x)
    ensures Taken(on, p.Ref(n), x) <==> Blocked(o, p, n)
  {
    hide TrackedInstances, Waiting;
    assert HeldAt(on.db, x) == Waiting(o, p, n, x);
  }

  lemma NextForeign(o: Obs, on: Obs, p: Report, n: nat, x: Key, path: string)
    requires Links(o) && o.src == p.src && n <= |p.items| && Tracked(o, on, p, n) && !p.Keys(n, x)
    ensures Foreign(on, x, path) <==> Foreign(o, x, path)
  {
    hide Links, TrackedSources;
    assert HeldAt(on.db, x) == Waiting(o, p, n, x);
    if HeldAt(o.db, x).Some? && OtherOwner(o, HeldAt(o.db, x).value.inst) {
      OthersWait(o, p, n, x);
    }
  }

  /** A key another source's instance holds is never given up by the report. */
  lemma OthersWait(o: Obs, p: Report, n: nat, x: Key)
    requires Links(o) && o.src == p.src && n <= |p.items| && HeldAt(o.db, x).Some? && OtherOwner(o, HeldAt(o.db, x).value.inst)
    ensures Waiting(o, p, n, x) == HeldAt(o.db, x)
  {
    hide Links;
    var ref := HeldAt(o.db, x).value.ref;
    OwnedNamed(o, x);
    OwnedWaits(o, p, n, x);
    NamesOwn(p, n, ref);
  }

  lemma NamesOwn(p: Report, n: nat, ref: ItemRef)
    requires n <= |p.items|
    ensures p.Names(n, ref) ==> ref.root.source == p.src
  {
  }

  /** What an item changes of where the instances stand, tracked. */
  lemma InstancesStep(o: Obs, on: Obs, on1: Obs, p: Report, n: nat)
    requires n < |p.items| && on.src == o.src && TrackedInstances(o, on, p, n)
    requires Stand(on.db, on1.db, o.src, Attaches(o, p, n), p.items[n].path)
    ensures TrackedInstances(o, on1, p, n + 1)
  {
    forall id
      ensures TakenOver(o, p, n + 1, id) <==> TakenOver(o, p, n, id) || (AdriftAt(o.db.instances, id, p.items[n].path) && Attaches(o, p, n))
    {
      TakenOverNext(o, p, n, id);
    }
    hide Attaches, TakenOver;
  }

  lemma TakenOverNext(o: Obs, p: Report, n: nat, id: InstId)
    requires n < |p.items|
    ensures TakenOver(o, p, n + 1, id) <==> TakenOver(o, p, n, id) || (AdriftAt(o.db.instances, id, p.items[n].path) && Attaches(o, p, n))
  {
    hide Attaches;
  }

  lemma GaveUpNext(o: Obs, p: Report, n: nat, x: Key)
    requires n < |p.items|
    ensures GaveUp(o, p, n + 1, x) <==> GaveUp(o, p, n, x) || Gives(o.db, p.Ref(n), x)
  {
    hide Gives;
  }

  lemma NamesNext(p: Report, n: nat, ref: ItemRef)
    requires n < |p.items|
    ensures p.Names(n + 1, ref) <==> p.Names(n, ref) || ref == p.Ref(n)
  {
  }

  /** A key not yet reported waits on. */
  lemma WaitingStep(o: Obs, on: Obs, on1: Obs, p: Report, n: nat, x: Key)
    requires n < |p.items| && TrackedInstances(o, on, p, n) && HeldAt(on.db, x) == Waiting(o, p, n, x)
    requires SightingAt(on.db, p.Ref(n)) == SightingAt(o.db, p.Ref(n))
    requires Moved(on, on1, p.Ref(n), p.items[n].path, Attaches(o, p, n), x)
    ensures HeldAt(on1.db, x) == Waiting(o, p, n + 1, x)
  {
    GaveUpNext(o, p, n, x);
    if HeldAt(o.db, x).Some? {
      TakenOverNext(o, p, n, HeldAt(o.db, x).value.inst);
    }
    hide Attaches, TakenOver, GaveUp;
  }

  /** A key attached stays at its instance. */
  lemma JoinsStep(on: Obs, on1: Obs, src: SourceId, ref: ItemRef, x: Key, path: string, next: ItemRef, at: string, over: bool)
    requires Joins(on.db, src, ref, x, path) && ref != next
    requires Moved(on, on1, next, at, over, x) && Stand(on.db, on1.db, src, over, at)
    ensures Joins(on1.db, src, ref, x, path)
  {
  }

  /** A key reported and not attached stays where it is, until the item whose
      sighting it is held for is reported. */
  lemma SkippedStep(o: Obs, on: Obs, on1: Obs, p: Report, n: nat, x: Key, over: bool)
    requires Links(o) && n < |p.items| && TrackedInstances(o, on, p, n) && Skipped(o, on, p, n, x)
    requires SightingAt(on.db, p.Ref(n)) == SightingAt(o.db, p.Ref(n))
    requires Moved(on, on1, p.Ref(n), p.items[n].path, over, x)
    ensures Skipped(o, on1, p, n + 1, x)
  {
    hide Links;
    if HeldAt(o.db, x).Some? && Owned(o.db.instances, HeldAt(o.db, x).value.inst) {
      OwnedNamed(o, x);
      NamesNext(p, n, HeldAt(o.db, x).value.ref);
    }
  }

  /** A key its own item does not attach. */
  lemma SkippedNow(o: Obs, on: Obs, on1: Obs, p: Report, n: nat, x: Key)
    requires Links(o) && n < |p.items| && TrackedInstances(o, on, p, n) && HeldAt(on.db, x) == Waiting(o, p, n, x)
    requires Left(on, on1, p.Ref(n), x)
    ensures Skipped(o, on1, p, n + 1, x)
  {
    hide Links;
    if HeldAt(o.db, x).Some? && Owned(o.db.instances, HeldAt(o.db, x).value.inst) {
      var ref := HeldAt(o.db, x).value.ref;
      OwnedNamed(o, x);
      NamesNext(p, n, ref);
      OwnedWaits(o, p, n, x);
    }
  }

  /** A key an owned instance holds waits until its sighting is reported. */
  lemma OwnedWaits(o: Obs, p: Report, n: nat, x: Key)
    requires Links(o) && n <= |p.items|
    requires HeldAt(o.db, x).Some? && Owned(o.db.instances, HeldAt(o.db, x).value.inst)
    ensures Waiting(o, p, n, x) == if p.Names(n, HeldAt(o.db, x).value.ref) then None else HeldAt(o.db, x)
  {
    OwnedNamed(o, x);
    hide Links;
    var ref := HeldAt(o.db, x).value.ref;
    if p.Names(n, ref) {
      var j: nat :| j < n && p.Ref(j) == ref;
      assert Gives(o.db, p.Ref(j), x);
    }
  }

  lemma KeysStep(o: Obs, on: Obs, on1: Obs, p: Report, n: nat)
    requires Links(o) && p.Distinct() && n < |p.items| && on.src == o.src
    requires TrackedInstances(o, on, p, n) && TrackedKeys(o, on, p, n) && TrackedSources(o, on, p, n)
    requires Stand(on.db, on1.db, o.src, Attaches(o, p, n), p.items[n].path)
    requires forall x | p.KeyAt(n) != Some(x) :: Moved(on, on1, p.Ref(n), p.items[n].path, Attaches(o, p, n), x)
    requires Attaches(o, p, n) ==> Joins(on1.db, o.src, p.Ref(n), p.KeyAt(n).value, p.items[n].path)
    requires p.KeyAt(n).Some? && !Attaches(o, p, n) ==> Left(on, on1, p.Ref(n), p.KeyAt(n).value)
    ensures TrackedKeys(o, on1, p, n + 1)
  {
    hide Links, Stand, Moved, Joins, Left, Skipped, TrackedInstances, Waiting;
    assert SightingAt(on.db, p.Ref(n)) == SightingAt(o.db, p.Ref(n));
    forall x | !p.Keys(n + 1, x)
      ensures HeldAt(on1.db, x) == Waiting(o, p, n + 1, x)
    {
      assert p.KeyAt(n) != Some(x) && !p.Keys(n, x);
      WaitingStep(o, on, on1, p, n, x);
    }
    forall j: nat | j < n + 1 && Attaches(o, p, j)
      ensures Joins(on1.db, o.src, p.Ref(j), p.KeyAt(j).value, p.items[j].path)
    {
      if j < n {
        JoinsStep(on, on1, o.src, p.Ref(j), p.KeyAt(j).value, p.items[j].path, p.Ref(n), p.items[n].path, Attaches(o, p, n));
      }
    }
    forall j: nat | j < n + 1 && p.KeyAt(j).Some? && !Attaches(o, p, j)
      ensures Skipped(o, on1, p, n + 1, p.KeyAt(j).value)
    {
      if j < n {
        SkippedStep(o, on, on1, p, n, p.KeyAt(j).value, Attaches(o, p, n));
      } else {
        assert !p.Keys(n, p.KeyAt(n).value);
        SkippedNow(o, on, on1, p, n, p.KeyAt(n).value);
      }
    }
  }

  lemma SourcesStep(o: Obs, on: Obs, on1: Obs, p: Report, n: nat, next: Sighting)
    requires p.Distinct() && n < |p.items| && TrackedSources(o, on, p, n)
    requires on1.db.sightings == on.db.sightings[p.Ref(n) := next] && on1.db.stamps == on.db.stamps[p.Ref(n) := o.pass]
    ensures TrackedSources(o, on1, p, n + 1)
  {
    forall i: nat | n + 1 <= i < |p.items|
      ensures SightingAt(on1.db, p.Ref(i)) == SightingAt(o.db, p.Ref(i))
    {
      assert p.Ref(i) != p.Ref(n);
      assert SightingAt(on.db, p.Ref(i)) == SightingAt(o.db, p.Ref(i));
    }
    forall ref
      ensures (ref in on1.db.stamps && on1.db.stamps[ref] == o.pass) <==> Seen(o, p, n + 1, ref)
    {
      NamesNext(p, n, ref);
    }
  }

  lemma TrackedStep(o: Obs, on: Obs, a: Activation, p: Report, n: nat)
    requires Links(o) && p.Distinct() && o.src == p.src && n < |p.items| && Tracked(o, on, p, n)
    requires Weak(on, a) && Ready(on, p.Ref(n)) && ObserveItem(on, p.Ref(n), p.root, p.items[n]).Success?
    ensures Tracked(o, ObserveItem(on, p.Ref(n), p.root, p.items[n]).value, p, n + 1)
  {
    hide Links, Weak, ObserveItem, TrackedInstances, TrackedKeys, TrackedSources, Attaching, Attaches, Stand, Moved, Joins, Left;
    var ref, it := p.Ref(n), p.items[n];
    var on1 := ObserveItem(on, ref, p.root, it).value;
    NextAttaches(o, on, p, n);
    ItemStands(on, a, ref, p.root, it);
    ObserveItemKeeps(on, a, ref, p.root, it);
    forall x | p.KeyAt(n) != Some(x)
      ensures Moved(on, on1, ref, it.path, Attaches(o, p, n), x)
    {
      ItemMoves(on, a, ref, p.root, it, x);
    }
    if p.KeyAt(n).Some? && !Attaches(o, p, n) {
      ItemLeaves(on, a, ref, p.root, it, p.KeyAt(n).value);
    }
    InstancesStep(o, on, on1, p, n);
    KeysStep(o, on, on1, p, n);
    SourcesStep(o, on, on1, p, n, on1.db.sightings[ref]);
  }

  /* ---------- The whole report ---------- */

  lemma NoneTakenOver(o: Obs, p: Report, id: InstId)
    ensures !TakenOver(o, p, 0, id)
  {
    hide Attaches;
  }

  lemma WaitingZero(o: Obs, p: Report, x: Key)
    ensures Waiting(o, p, 0, x) == HeldAt(o.db, x)
  {
    hide TakenOver, Gives;
    if HeldAt(o.db, x).Some? {
      NoneTakenOver(o, p, HeldAt(o.db, x).value.inst);
    }
  }

  /** Stamping the root moves nothing. */
  lemma TrackedZero(o: Obs, p: Report, scene: map<string, string>)
    requires p.src == o.src
    ensures Tracked(o, StampRoot(o, p.Under(), p.root).(scene := scene), p, 0)
  {
    hide TrackedInstances, TrackedKeys, TrackedSources;
    var on := StampRoot(o, p.Under(), p.root).(scene := scene);
    InstancesZero(o, on, p);
    KeysZero(o, on, p);
    SourcesZero(o, p, scene);
  }

  lemma InstancesZero(o: Obs, on: Obs, p: Report)
    requires on.db.instances == o.db.instances && on.db.files == o.db.files
    ensures TrackedInstances(o, on, p, 0)
  {
    hide TakenOver;
    forall id
      ensures !TakenOver(o, p, 0, id)
    {
      NoneTakenOver(o, p, id);
    }
  }

  lemma KeysZero(o: Obs, on: Obs, p: Report)
    requires on.db.items == o.db.items
    ensures TrackedKeys(o, on, p, 0)
  {
    hide Attaches, Waiting;
    forall x
      ensures HeldAt(on.db, x) == Waiting(o, p, 0, x)
    {
      WaitingZero(o, p, x);
    }
  }

  lemma SourcesZero(o: Obs, p: Report, scene: map<string, string>)
    ensures TrackedSources(o, StampRoot(o, p.Under(), p.root).(scene := scene), p, 0)
  {
  }

  lemma {:induction false} ReportTracked(o: Obs, a: Activation, p: Report, n: nat)
    requires Weak(o, a) && Opened(o.db, o.src, o.pass) && o.src == p.src && p.Distinct() && n <= |p.items|
    requires ObserveAll(StampRoot(o, p.Under(), p.root).(scene := Scenes(p.items)), p.Under(), p.root, p.items[..n]).Success?
    ensures Tracked(o, ObserveAll(StampRoot(o, p.Under(), p.root).(scene := Scenes(p.items)), p.Under(), p.root, p.items[..n]).value, p, n)
  {
    hide Weak, Links, ObserveItem, StampRoot, TrackedInstances, TrackedKeys, TrackedSources;
    var o1 := StampRoot(o, p.Under(), p.root).(scene := Scenes(p.items));
    StampRootKeeps(o, a, p.root, Scenes(p.items));
    StampRootSame(o, p.Under(), p.root);
    if n == 0 {
      TrackedZero(o, p, Scenes(p.items));
    } else {
      var m := n - 1;
      assert p.items[..n][..m] == p.items[..m] && p.items[..n][m] == p.items[m];
      ReportTracked(o, a, p, m);
      ObserveAllKeeps(o1, a, p.Under(), p.root, p.items[..m]);
      WeakLinks(o, a);
      TrackedStep(o, ObserveAll(o1, p.Under(), p.root, p.items[..m]).value, a, p, m);
    }
  }

  /** A key is at its owned instance at the end exactly when the report
      attached it there, or left it there. */
  lemma HeldAtEnd(o: Obs, on: Obs, p: Report, id: InstId, x: Key)
    requires Links(o) && p.Distinct() && Tracked(o, on, p, |p.items|)
    requires Owned(o.db.instances, id) && HeldAt(on.db, x).Some? && HeldAt(on.db, x).value.inst == id
    ensures Survives(o, p, id)
  {
    hide Links, Attaches, TrackedSources;
    var n := |p.items|;
    if p.Keys(n, x) {
      var j: nat :| j < n && p.KeyAt(j) == Some(x);
      if !Attaches(o, p, j) {
        assert Skipped(o, on, p, n, p.KeyAt(j).value);
        assert !Attached(o, p, n, x);
      }
    } else {
      assert HeldAt(on.db, x) == Waiting(o, p, n, x);
      OwnedWaits(o, p, n, x);
    }
  }

  /** A key attached at an owned instance's path is held there at the end. */
  lemma AttachedHeld(o: Obs, on: Obs, p: Report, id: InstId, j: nat)
    requires Links(on) && Tracked(o, on, p, |p.items|)
    requires Owned(o.db.instances, id) && j < |p.items| && p.items[j].path == o.db.instances[id].path && Attaches(o, p, j)
    ensures HeldAt(on.db, p.KeyAt(j).value) == Some(Record(p.Ref(j), id))
  {
    assert Joins(on.db, o.src, p.Ref(j), p.KeyAt(j).value, p.items[j].path);
    hide Links, Attaches, TrackedSources, TrackedKeys;
    PathsApart(on, id, HeldAt(on.db, p.KeyAt(j).value).value.inst);
  }

  /** So is one the report neither attaches nor reports the sighting of. */
  lemma UntouchedHeld(o: Obs, on: Obs, p: Report, x: Key)
    requires Links(o) && Tracked(o, on, p, |p.items|)
    requires HeldAt(o.db, x).Some? && Owned(o.db.instances, HeldAt(o.db, x).value.inst)
    requires !Attached(o, p, |p.items|, x) && !p.Names(|p.items|, HeldAt(o.db, x).value.ref)
    ensures HeldAt(on.db, x) == HeldAt(o.db, x)
  {
    hide Links, Attaches, TrackedSources, TrackedInstances;
    var n := |p.items|;
    if p.Keys(n, x) {
      var j: nat :| j < n && p.KeyAt(j) == Some(x);
      assert Skipped(o, on, p, n, p.KeyAt(j).value);
    } else {
      OwnedWaits(o, p, n, x);
    }
  }

  /** An instance the report leaves a key is held by one at the end. */
  lemma SurvivesHeld(o: Obs, on: Obs, p: Report, id: InstId)
    requires Links(o) && Links(on) && Tracked(o, on, p, |p.items|)
    requires Owned(o.db.instances, id) && Survives(o, p, id)
    ensures exists x :: HeldAt(on.db, x).Some? && HeldAt(on.db, x).value.inst == id
  {
    hide Links, Attaches, Attached, Tracked;
    if j: nat :| j < |p.items| && p.items[j].path == o.db.instances[id].path && Attaches(o, p, j) {
      AttachedHeld(o, on, p, id, j);
    } else {
      var x :| HeldAt(o.db, x).Some? && HeldAt(o.db, x).value.inst == id
               && !Attached(o, p, |p.items|, x) && !p.Names(|p.items|, HeldAt(o.db, x).value.ref);
      UntouchedHeld(o, on, p, x);
    }
  }

  lemma PathsApart(o: Obs, a: InstId, b: InstId)
    requires Links(o) && a in o.db.instances && b in o.db.instances && o.db.instances[a].path == o.db.instances[b].path
    ensures a == b
  {
  }

  /** A source's instance is listed by a key exactly when a record names it. */
  lemma ListedHeld(o: Obs, id: InstId)
    requires Links(o) && Owned(o.db.instances, id)
    ensures o.db.instances[id].items != [] <==> exists x :: HeldAt(o.db, x).Some? && HeldAt(o.db, x).value.inst == id
  {
    if o.db.instances[id].items != [] {
      assert HeldAt(o.db, o.db.instances[id].items[0]).Some?;
    }
  }

  lemma Emptied(on: Obs, id: InstId)
    requires Links(on) && id in on.db.instances
    ensures var after := DropEmptied(on).db;
            && (id in after.instances <==> on.db.instances[id].items != [])
            && (id in after.instances ==> after.instances[id] == on.db.instances[id])
            && forall fk: FileKey | fk.inst == id ::
                 (fk in after.files <==> fk in on.db.files && id in after.instances) && (fk in after.files ==> after.files[fk] == on.db.files[fk])
  {
    hide Linked, Owning, WellFormed, Named, Kept, EmptiedRoots;
  }

  /** Instance id stands as it did, with its file records. */
  ghost predicate FilesKept(db: Db, after: Db, id: InstId)
    requires id in db.instances
  {
    && id in after.instances && after.instances[id].path == db.instances[id].path && after.instances[id].owner == db.instances[id].owner
    && forall fk: FileKey | fk.inst == id :: (fk in after.files <==> fk in db.files) && (fk in db.files ==> after.files[fk] == db.files[fk])
  }

  /** It does, and the i-th item's key is among its own. */
  ghost predicate Stands(db: Db, after: Db, p: Report, i: nat, id: InstId)
    requires id in db.instances && i < |p.items|
  {
    FilesKept(db, after, id) && p.KeyAt(i).Some? && p.KeyAt(i).value in after.instances[id].items
  }

  /** What settling leaves of an instance src owned before the report. */
  lemma TrackedSettles(o: Obs, on: Obs, a: Activation, p: Report, id: InstId)
    requires Links(o) && Weak(on, a) && p.Distinct() && Tracked(o, on, p, |p.items|) && Owned(o.db.instances, id)
    ensures Settle(on, a).Success?
    ensures var after := Settle(on, a).value.db;
            if Survives(o, p, id) then FilesKept(o.db, after, id) && after.instances[id] == on.db.instances[id]
            else id !in after.instances && forall fk: FileKey | fk.inst == id :: fk !in after.files
  {
    hide Links, Weak, Settle, Survives, DropEmptied, TrackedKeys, TrackedSources;
    WeakLinks(on, a);
    ListedHeld(on, id);
    if Survives(o, p, id) {
      SurvivesHeld(o, on, p, id);
    } else if x :| HeldAt(on.db, x).Some? && HeldAt(on.db, x).value.inst == id {
      HeldAtEnd(o, on, p, id, x);
    }
    SettleKeeps(on, a);
    Emptied(on, id);
  }

  /** The tables a successful report settles. */
  lemma Reported(db: Db, a: Activation, pass: PassId, now: Time, p: Report) returns (on: Obs)
    requires Inv(db, Some(a)) && Opened(db, p.src, pass) && p.Distinct()
    requires ObserveItems(db, Some(a), p.src, pass, now, p.root, p.items).Success?
    ensures Links(Begun(db, p.src, pass, now)) && Weak(on, a) && Tracked(Begun(db, p.src, pass, now), on, p, |p.items|)
    ensures Observe(Begun(db, p.src, pass, now), p.root, p.items) == Success(on)
    ensures Settle(on, a) == ObserveItems(db, Some(a), p.src, pass, now, p.root, p.items)
  {
    hide Inv, Weak, Links, Settle, ObserveAll, StampRoot, Tracked;
    var o := Begun(db, p.src, pass, now);
    on := Observe(o, p.root, p.items).value;
    BeginWeak(db, a, p.src, pass, now);
    WeakLinks(o, a);
    assert p.items[..|p.items|] == p.items;
    ReportTracked(o, a, p, |p.items|);
    ReportKeeps(db, a, p.src, pass, now, p.root, p.items);
  }

  /** Whatever a report of distinct keys holds, an instance its source owns
      stays, with its file records, exactly when the report leaves it a key;
      otherwise it goes with them. */
  lemma ReportKeepsFiles(db: Db, a: Activation, pass: PassId, now: Time, p: Report, id: InstId)
    requires Inv(db, Some(a)) && Opened(db, p.src, pass) && p.Distinct()
    requires ObserveItems(db, Some(a), p.src, pass, now, p.root, p.items).Success?
    requires id in db.instances && db.instances[id].owner == Some(p.src)
    ensures var after := ObserveItems(db, Some(a), p.src, pass, now, p.root, p.items).value.db;
            if Survives(Begun(db, p.src, pass, now), p, id) then FilesKept(db, after, id)
            else id !in after.instances && forall fk: FileKey | fk.inst == id :: fk !in after.files
  {
    hide Inv, Links, Weak, Settle, Survives, Tracked, ObserveItems, FilesKept;
    var on := Reported(db, a, pass, now, p);
    TrackedSettles(Begun(db, p.src, pass, now), on, a, p, id);
  }

  /* ---------- Renumbering ---------- */

  /** The i-th item is reported where its stored sighting is, at an instance
      its source owns, under a key no other live source holds. */
  ghost predicate Renumbers(o: Obs, p: Report, i: nat, id: InstId)
    requires i < |p.items|
  {
    && p.KeyAt(i).Some? && p.items[i].path != ""
    && p.Ref(i) in o.db.sightings && o.db.sightings[p.Ref(i)].item.path == p.items[i].path
    && id in o.db.instances && o.db.instances[id].path == p.items[i].path && o.db.instances[id].owner == Some(o.src)
    && !(HeldAt(o.db, p.KeyAt(i).value).Some? && OtherOwner(o, HeldAt(o.db, p.KeyAt(i).value).value.inst))
  }

  lemma RenumbersAttaches(o: Obs, p: Report, i: nat, id: InstId)
    requires Links(o) && i < |p.items| && Renumbers(o, p, i, id)
    ensures Attaches(o, p, i) <==> !Blocked(o, p, i)
  {
    hide Blocked;
    forall x | x in o.db.instances && o.db.instances[x].path == p.items[i].path
      ensures x == id
    {
      PathsApart(o, id, x);
    }
  }

  /** Among whatever else a report holds, and in any order, an item that keeps
      its path and takes a new key keeps its file's instance, with its file
      records, and its new key joins it: unless it is blocked. */
  lemma RenumberingKeepsFiles(db: Db, a: Activation, pass: PassId, now: Time, p: Report, i: nat, id: InstId)
    requires Inv(db, Some(a)) && Opened(db, p.src, pass) && p.Distinct()
    requires ObserveItems(db, Some(a), p.src, pass, now, p.root, p.items).Success?
    requires i < |p.items| && Renumbers(Begun(db, p.src, pass, now), p, i, id) && !Blocked(Begun(db, p.src, pass, now), p, i)
    ensures Stands(db, ObserveItems(db, Some(a), p.src, pass, now, p.root, p.items).value.db, p, i, id)
  {
    hide Inv, Links, Weak, Settle, Tracked, ObserveItems, FilesKept, Blocked, Attaches;
    var o := Begun(db, p.src, pass, now);
    var on := Reported(db, a, pass, now, p);
    RenumbersAttaches(o, p, i, id);
    TrackedSettles(o, on, a, p, id);
    WeakLinks(on, a);
    AttachedHeld(o, on, p, id, i);
  }

  /** What blocks an item: its new key's record names an ownerless instance,
      or a sighting the pass had seen before the report. */
  lemma BlockedOwnerless(db: Db, a: Activation, pass: PassId, now: Time, p: Report, i: nat)
    requires Inv(db, Some(a)) && Opened(db, p.src, pass) && i < |p.items| && Blocked(Begun(db, p.src, pass, now), p, i)
    ensures HeldAt(db, p.KeyAt(i).value).Some?
    ensures var rec := HeldAt(db, p.KeyAt(i).value).value;
            && rec.inst in db.instances
            && (db.instances[rec.inst].owner.None? || (rec.ref in db.stamps && db.stamps[rec.ref] == pass))
  {
    hide Weak, Inv;
    var o, x := Begun(db, p.src, pass, now), p.KeyAt(i).value;
    BeginWeak(db, a, p.src, pass, now);
    WeakLinks(o, a);
    LinkedKey(db.items, db.instances, x);
    if Owned(db.instances, db.items[x].inst) {
      OwnedNamed(o, x);
      OwnedWaits(o, p, i, x);
      RootUnsighted(o, a, p.Under());
    }
  }

  lemma RootUnsighted(o: Obs, a: Activation, rr: RootRef)
    requires Weak(o, a)
    ensures ItemRef(rr, "") !in o.db.sightings
  {
  }
}
