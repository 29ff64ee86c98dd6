/** What one report leaves of a key that no instance holds: which sighting its
    record names, which instance it joins, or that it is gone. */
module BareRecords {
  import opened Wrappers
  import opened Media
  import opened Tables
  import opened RefKeys
  import opened Claims
  import opened Settlement
  import opened Passes
  import opened AttachKeep
  import opened ClaimsKeep
  import opened ObserveKeeps
  import opened ItemSteps
  import opened Renumbering
  import opened Heirs

  /* ---------- What the report says ---------- */

  /** Another live source owns an instance at the path. */
  predicate Others(instances: map<InstId, Instance>, src: SourceId, path: string) {
    exists id :: id in instances && instances[id].path == path && instances[id].owner.Some? && instances[id].owner.value != src
  }

  /** The i-th item reports k with no video. */
  predicate Bare(p: Report, i: nat, k: Key)
    requires i < |p.items|
  {
    p.KeyAt(i) == Some(k) && p.items[i].path == ""
  }

  /** The i-th item reports k at a path no other live source owns. */
  predicate Free(db: Db, p: Report, i: nat, k: Key)
    requires i < |p.items|
  {
    p.KeyAt(i) == Some(k) && p.items[i].path != "" && !Others(db.instances, p.src, p.items[i].path)
  }

  predicate FirstBare(p: Report, i: nat, k: Key)
    requires i < |p.items|
  {
    Bare(p, i, k) && forall j: nat | j < i :: !Bare(p, j, k)
  }

  predicate FirstFree(db: Db, p: Report, i: nat, k: Key)
    requires i < |p.items|
  {
    Free(db, p, i, k) && forall j: nat | j < i :: !Free(db, p, j, k)
  }

  /** The pass has seen ref before the report's i-th item. */
  predicate SeenBefore(db: Db, pass: PassId, p: Report, i: nat, ref: ItemRef)
    requires i <= |p.items|
  {
    (ref in db.stamps && db.stamps[ref] == pass) || exists j: nat :: j < i && p.Ref(j) == ref
  }

  /** The first item to report k bare takes its record: one there was not, or
      one of a sighting of this source the pass has not yet seen. */
  predicate TakesOver(db: Db, pass: PassId, p: Report, i: nat, rec: Option<Record>)
    requires i <= |p.items|
  {
    rec.Some? ==> rec.value.ref.root.source == p.src && !SeenBefore(db, pass, p, i, rec.value.ref)
  }

  /** ref reports k with no video once the report is stored. */
  predicate ClaimsAfter(db: Db, p: Report, ref: ItemRef, k: Key) {
    if p.Names(|p.items|, ref) then exists j: nat :: j < |p.items| && p.Ref(j) == ref && Bare(p, j, k)
    else BareAt(db.sightings, ref, k)
  }

  /* ---------- One item ---------- */

  /** k's record after an item that does not attach it, none holding it. */
  function RecordStep(o: Obs, ref: ItemRef, key: Option<Key>, path: string, k: Key): Option<Record> {
    var rec := RecordOf(o.db.items, k);
    if key == Some(k) && path == ""
       && (rec.Some? ==> rec.value.ref.root.source == o.src && !(rec.value.ref in o.db.stamps && o.db.stamps[rec.value.ref] == o.pass))
    then Some(Record(ref, 0)) else rec
  }

  lemma NoVideoRecord(o: Obs, ref: ItemRef, k: Key, x: Key)
    requires HeldAt(o.db, x).None? && ref.root.source == o.src
    ensures RecordOf(NoVideo(o, ref, k).db.items, x) == RecordStep(o, ref, Some(k), "", x)
  {
  }

  /** Attaching one key leaves the records of keys nothing holds. */
  lemma AttachRecord(o: Obs, ref: ItemRef, k: Key, p: string, at: Option<InstId>, x: Key)
    requires at.Some? ==> at.value in o.db.instances
    requires HeldAt(o.db, x).None? && x != k && 0 !in o.db.instances
    ensures RecordOf(AttachedDb(o, ref, k, JoinedBy(o, k, p, at)).items, x) == RecordOf(o.db.items, x)
  {
  }

  lemma ClaimRecord(o: Obs, ref: ItemRef, k: Key, p: string, x: Key)
    requires Links(o) && ref.root.source == o.src && Claim(o, ref, k, p).Success? && HeldAt(o.db, x).None?
    requires x == k ==> !Attaching(o, ref, Some(k), p)
    ensures RecordOf(Claim(o, ref, k, p).value.0.db.items, x) == RecordStep(o, ref, Some(k), p, x)
  {
    hide Linked, Owning, WellFormed, AttachKey, JoinedBy, Foreign, AttachedDb, NoVideo;
    ClaimStands(o, ref, k, p);
    if p == "" {
      NoVideoRecord(o, ref, k, x);
    } else if Attaching(o, ref, Some(k), p) {
      var at := InstanceAt(o.db.instances, p);
      NoZero(o.db.instances, o.db.lastInst);
      RivalForeign(o, k, p);
      AttachShape(o, ref, k, p, at);
      AttachRecord(o, ref, k, p, at, x);
    }
  }

  lemma ItemRecord(o: Obs, a: Activation, ref: ItemRef, root: Root, it: Item, x: Key)
    requires Weak(o, a) && Ready(o, ref) && ObserveItem(o, ref, root, it).Success? && HeldAt(o.db, x).None?
    requires ItemKey(root, it) == Some(x) ==> !Attaching(o, ref, Some(x), it.path)
    ensures RecordOf(ObserveItem(o, ref, root, it).value.db.items, x) == RecordStep(o, ref, ItemKey(root, it), it.path, x)
  {
    hide Weak, Links, GiveUp, Claim, ItemKey, Foreign, Taken, Attaching, Alike;
    var key := ItemKey(root, it);
    var o0 := Touch(o, key);
    var o1 := GiveUp(o0, ref, key, it.path).value;
    ItemGivesUp(o, a, ref, key, it.path);
    GiveUpFrees(o0, ref, key, it.path, x);
    GiveUpFrame(o0, ref, key, it.path);
    if key.Some? {
      ClaimRecord(o1, ref, key.value, it.path, x);
    }
  }

  /** The sighting stored reports a key bare exactly when the item does. */
  lemma ItemSighted(o: Obs, ref: ItemRef, root: Root, it: Item, k: Key)
    requires ObserveItem(o, ref, root, it).Success?
    ensures var sightings := ObserveItem(o, ref, root, it).value.db.sightings;
            ref in sightings && (sightings[ref].ClaimsBare(k) <==> ItemKey(root, it) == Some(k) && it.path == "")
  {
    hide GiveUp, ItemKey, NoVideo, AttachOrOverlap;
  }

  /* ---------- Item after item ---------- */

  /** Where k stands when n items are reported. */
  ghost predicate KeyStands(o: Obs, on: Obs, p: Report, n: nat, k: Key)
    requires n <= |p.items|
  {
    && (forall j: nat | j < n && FirstFree(o.db, p, j, k) :: Joins(on.db, o.src, p.Ref(j), k, p.items[j].path))
    && ((forall j: nat | j < n :: !Free(o.db, p, j, k)) ==>
          && HeldAt(on.db, k).None?
          && ((forall j: nat | j < n :: !Bare(p, j, k)) ==> RecordOf(on.db.items, k) == RecordOf(o.db.items, k))
          && (forall j: nat | j < n && FirstBare(p, j, k) ::
                RecordOf(on.db.items, k) ==
                  if TakesOver(o.db, o.pass, p, j, RecordOf(o.db.items, k)) then Some(Record(p.Ref(j), 0)) else RecordOf(o.db.items, k)))
  }

  /** What the pass has seen, what the sightings claim, and whose the paths are. */
  ghost predicate Watched(o: Obs, on: Obs, p: Report, n: nat, k: Key)
    requires n <= |p.items|
  {
    && on.src == o.src && on.pass == o.pass
    && (forall ref: ItemRef | ref.item != "" :: (ref in on.db.stamps && on.db.stamps[ref] == o.pass) <==> SeenBefore(o.db, o.pass, p, n, ref))
    && (forall path :: Others(on.db.instances, o.src, path) <==> Others(o.db.instances, o.src, path))
    && (forall j: nat | j < n :: p.Ref(j) in on.db.sightings && (on.db.sightings[p.Ref(j)].ClaimsBare(k) <==> Bare(p, j, k)))
    && (forall ref | !p.Names(n, ref) :: SightingAt(on.db, ref) == SightingAt(o.db, ref))
  }

  /** No two items share an id. */
  ghost predicate Apart(p: Report) {
    && (forall i | 0 <= i < |p.items| :: p.items[i].native != "")
    && (forall i: nat, j: nat | i < j < |p.items| :: p.Ref(i) != p.Ref(j))
  }

  lemma OthersStand(db: Db, db1: Db, src: SourceId, over: bool, p: string, path: string)
    requires Stand(db, db1, src, over, p)
    ensures Others(db1.instances, src, path) <==> Others(db.instances, src, path)
  {
    if id :| id in db.instances && db.instances[id].path == path && db.instances[id].owner.Some? && db.instances[id].owner.value != src {
      assert Owned(db.instances, id);
    }
    if id :| id in db1.instances && db1.instances[id].path == path && db1.instances[id].owner.Some? && db1.instances[id].owner.value != src {
      assert Owned(db1.instances, id);
    }
  }

  lemma SeenNext(db: Db, pass: PassId, p: Report, n: nat, ref: ItemRef)
    requires n < |p.items|
    ensures SeenBefore(db, pass, p, n + 1, ref) <==> SeenBefore(db, pass, p, n, ref) || ref == p.Ref(n)
  {
  }

  lemma WatchedStep(o: Obs, on: Obs, on1: Obs, p: Report, n: nat, k: Key, over: bool, at: string)
    requires Apart(p) && n < |p.items| && Watched(o, on, p, n, k) && Stand(on.db, on1.db, o.src, over, at)
    requires on1.src == o.src && on1.pass == o.pass && on1.db.stamps == on.db.stamps[p.Ref(n) := o.pass]
    requires p.Ref(n) in on1.db.sightings && on1.db.sightings == on.db.sightings[p.Ref(n) := on1.db.sightings[p.Ref(n)]]
    requires on1.db.sightings[p.Ref(n)].ClaimsBare(k) <==> Bare(p, n, k)
    ensures Watched(o, on1, p, n + 1, k)
  {
    hide Stand, Others, Bare, SeenBefore;
    forall ref: ItemRef | ref.item != ""
      ensures (ref in on1.db.stamps && on1.db.stamps[ref] == o.pass) <==> SeenBefore(o.db, o.pass, p, n + 1, ref)
    {
      SeenNext(o.db, o.pass, p, n, ref);
    }
    forall path
      ensures Others(on1.db.instances, o.src, path) <==> Others(o.db.instances, o.src, path)
    {
      OthersStand(on.db, on1.db, o.src, over, at, path);
    }
    forall ref | !p.Names(n + 1, ref)
      ensures SightingAt(on1.db, ref) == SightingAt(o.db, ref)
    {
      NamesNext(p, n, ref);
    }
  }

  /** Whether the next item attaches k, which nothing holds. */
  lemma NextFree(o: Obs, on: Obs, p: Report, n: nat, k: Key)
    requires n < |p.items| && Watched(o, on, p, n, k) && o.src == p.src && HeldAt(on.db, k).None? && p.KeyAt(n) == Some(k)
    ensures Attaching(on, p.Ref(n), Some(k), p.items[n].path) <==> Free(o.db, p, n, k)
  {
    assert Others(on.db.instances, o.src, p.items[n].path) <==> Others(o.db.instances, o.src, p.items[n].path);
  }

  /** What one item does to k, as seen from outside. */
  ghost predicate Stepped(on: Obs, on1: Obs, ref: ItemRef, key: Option<Key>, path: string, k: Key) {
    && Stand(on.db, on1.db, on.src, Attaching(on, ref, key, path), path)
    && (key != Some(k) ==> Moved(on, on1, ref, path, Attaching(on, ref, key, path), k))
    && (key == Some(k) && Attaching(on, ref, key, path) ==> Joins(on1.db, on.src, ref, k, path))
    && (key == Some(k) && !Attaching(on, ref, key, path) ==> Left(on, on1, ref, k))
    && (HeldAt(on.db, k).None? && !(key == Some(k) && Attaching(on, ref, key, path)) ==>
          HeldAt(on1.db, k).None? && RecordOf(on1.db.items, k) == RecordStep(on, ref, key, path, k))
  }

  lemma ItemStepped(on: Obs, a: Activation, ref: ItemRef, root: Root, it: Item, k: Key)
    requires Weak(on, a) && Ready(on, ref) && ObserveItem(on, ref, root, it).Success?
    ensures Stepped(on, ObserveItem(on, ref, root, it).value, ref, ItemKey(root, it), it.path, k)
  {
    hide Weak, Links, ObserveItem, Attaching, Stand, Moved, Joins, Left;
    var key := ItemKey(root, it);
    ItemStands(on, a, ref, root, it);
    if key != Some(k) {
      ItemMoves(on, a, ref, root, it, k);
    } else if !Attaching(on, ref, key, it.path) {
      ItemLeaves(on, a, ref, root, it, k);
    }
    if HeldAt(on.db, k).None? && !(key == Some(k) && Attaching(on, ref, key, it.path)) {
      ItemRecord(on, a, ref, root, it, k);
    }
  }

  /** A key once attached stays so. */
  lemma JoinedStep(o: Obs, on: Obs, on1: Obs, p: Report, n: nat, k: Key, j: nat)
    requires Apart(p) && j < n < |p.items| && Watched(o, on, p, n, k) && o.src == p.src
    requires Joins(on.db, o.src, p.Ref(j), k, p.items[j].path)
    requires Stepped(on, on1, p.Ref(n), p.KeyAt(n), p.items[n].path, k)
    ensures Joins(on1.db, o.src, p.Ref(j), k, p.items[j].path)
  {
    assert p.Ref(j) != p.Ref(n) && SeenBefore(o.db, o.pass, p, n, p.Ref(j)) && p.Ref(j).item != "";
    if p.KeyAt(n) == Some(k) {
      assert Taken(on, p.Ref(n), k);
    } else {
      JoinsStep(on, on1, o.src, p.Ref(j), k, p.items[j].path, p.Ref(n), p.items[n].path, Attaching(on, p.Ref(n), p.KeyAt(n), p.items[n].path));
    }
  }

  /** The first item to report k bare takes its record or leaves it, and no
      later one changes it. */
  lemma RecordNext(o: Obs, on: Obs, p: Report, n: nat, k: Key)
    requires Apart(p) && n < |p.items| && o.src == p.src && Watched(o, on, p, n, k)
    requires (forall j: nat | j < n :: !Bare(p, j, k)) ==> RecordOf(on.db.items, k) == RecordOf(o.db.items, k)
    requires forall j: nat | j < n && FirstBare(p, j, k) ::
               RecordOf(on.db.items, k) ==
                 if TakesOver(o.db, o.pass, p, j, RecordOf(o.db.items, k)) then Some(Record(p.Ref(j), 0)) else RecordOf(o.db.items, k)
    requires RecordOf(o.db.items, k).Some? ==> RecordOf(o.db.items, k).value.ref.item != ""
    ensures var rec := RecordStep(on, p.Ref(n), p.KeyAt(n), p.items[n].path, k);
            && ((forall j: nat | j < n + 1 :: !Bare(p, j, k)) ==> rec == RecordOf(o.db.items, k))
            && (forall j: nat | j < n + 1 && FirstBare(p, j, k) ::
                  rec == if TakesOver(o.db, o.pass, p, j, RecordOf(o.db.items, k)) then Some(Record(p.Ref(j), 0)) else RecordOf(o.db.items, k))
  {
    if Bare(p, n, k) && !FirstBare(p, n, k) {
      var i := EarlierBare(p, n, k);
      assert SeenBefore(o.db, o.pass, p, n, p.Ref(i));
    }
  }

  /** Of the items before the n-th that report k bare, the first. */
  lemma {:induction false} EarlierBare(p: Report, n: nat, k: Key) returns (i: nat)
    requires n < |p.items| && Bare(p, n, k) && !FirstBare(p, n, k)
    ensures i < n && FirstBare(p, i, k)
  {
    var j: nat :| j < n && Bare(p, j, k);
    if FirstBare(p, j, k) {
      i := j;
    } else {
      i := EarlierBare(p, j, k);
    }
  }

  lemma {:induction false} EarlierFree(db: Db, p: Report, n: nat, k: Key) returns (i: nat)
    requires n < |p.items| && Free(db, p, n, k)
    ensures i <= n && FirstFree(db, p, i, k)
  {
    if FirstFree(db, p, n, k) {
      i := n;
    } else {
      var j: nat :| j < n && Free(db, p, j, k);
      i := EarlierFree(db, p, j, k);
    }
  }

  lemma KeyStandsStep(o: Obs, on: Obs, on1: Obs, p: Report, n: nat, k: Key)
    requires Apart(p) && n < |p.items| && o.src == p.src && Watched(o, on, p, n, k) && KeyStands(o, on, p, n, k)
    requires RecordOf(o.db.items, k).Some? ==> RecordOf(o.db.items, k).value.ref.item != ""
    requires Stepped(on, on1, p.Ref(n), p.KeyAt(n), p.items[n].path, k)
    ensures KeyStands(o, on1, p, n + 1, k)
  {
    hide Stand, Moved, Left, Joins, Watched, Others, Attaching, TakesOver, Apart;
    forall j: nat | j < n + 1 && FirstFree(o.db, p, j, k)
      ensures Joins(on1.db, o.src, p.Ref(j), k, p.items[j].path)
    {
      WatchedSource(o, on, p, n, k);
      if j < n {
        JoinedStep(o, on, on1, p, n, k, j);
      } else {
        NextFree(o, on, p, n, k);
      }
    }
    if forall j: nat | j < n + 1 :: !Free(o.db, p, j, k) {
      if p.KeyAt(n) == Some(k) {
        NextFree(o, on, p, n, k);
      }
      RecordNext(o, on, p, n, k);
    }
  }

  lemma WatchedSource(o: Obs, on: Obs, p: Report, n: nat, k: Key)
    requires n <= |p.items| && Watched(o, on, p, n, k)
    ensures on.src == o.src && on.pass == o.pass
  {
  }

  lemma WatchedZero(o: Obs, p: Report, k: Key, scene: map<string, string>)
    ensures Watched(o, StampRoot(o, p.Under(), p.root).(scene := scene), p, 0, k)
  {
  }

  lemma KeyStandsZero(o: Obs, p: Report, k: Key, scene: map<string, string>)
    requires HeldAt(o.db, k).None?
    ensures KeyStands(o, StampRoot(o, p.Under(), p.root).(scene := scene), p, 0, k)
  {
    hide Free, Bare, TakesOver;
  }

  lemma {:induction false} ReportWatched(o: Obs, a: Activation, p: Report, n: nat, k: Key)
    requires Weak(o, a) && Opened(o.db, o.src, o.pass) && o.src == p.src && Apart(p) && n <= |p.items| && HeldAt(o.db, k).None?
    requires RecordOf(o.db.items, k).Some? ==> RecordOf(o.db.items, k).value.ref.item != ""
    requires ObserveAll(StampRoot(o, p.Under(), p.root).(scene := Scenes(p.items)), p.Under(), p.root, p.items[..n]).Success?
    ensures var on := ObserveAll(StampRoot(o, p.Under(), p.root).(scene := Scenes(p.items)), p.Under(), p.root, p.items[..n]).value;
            Weak(on, a) && Watched(o, on, p, n, k) && KeyStands(o, on, p, n, k)
  {
    hide Weak, ObserveItem, StampRoot, Watched, KeyStands, Stepped, Apart;
    var o1 := StampRoot(o, p.Under(), p.root).(scene := Scenes(p.items));
    StampRootKeeps(o, a, p.root, Scenes(p.items));
    StampRootSame(o, p.Under(), p.root);
    if n == 0 {
      WatchedZero(o, p, k, Scenes(p.items));
      KeyStandsZero(o, p, k, Scenes(p.items));
    } else {
      var m := n - 1;
      assert p.items[..n][..m] == p.items[..m] && p.items[..n][m] == p.items[m];
      ReportWatched(o, a, p, m, k);
      var on := ObserveAll(o1, p.Under(), p.root, p.items[..m]).value;
      ApartNames(p, m);
      ObserveAllKeeps(o1, a, p.Under(), p.root, p.items[..m]);
      WatchedSource(o, on, p, m, k);
      assert Ready(on, p.Ref(m));
      ItemWatched(o, on, a, p, m, k);
    }
  }

  lemma ApartNames(p: Report, m: nat)
    requires Apart(p) && m < |p.items|
    ensures p.items[m].native != "" && Identified(p.items[..m])
  {
  }

  lemma ItemWatched(o: Obs, on: Obs, a: Activation, p: Report, m: nat, k: Key)
    requires Apart(p) && m < |p.items| && o.src == p.src && Watched(o, on, p, m, k) && KeyStands(o, on, p, m, k)
    requires RecordOf(o.db.items, k).Some? ==> RecordOf(o.db.items, k).value.ref.item != ""
    requires Weak(on, a) && Ready(on, p.Ref(m)) && ObserveItem(on, p.Ref(m), p.root, p.items[m]).Success?
    ensures var on1 := ObserveItem(on, p.Ref(m), p.root, p.items[m]).value;
            Weak(on1, a) && Watched(o, on1, p, m + 1, k) && KeyStands(o, on1, p, m + 1, k)
  {
    hide Weak, ObserveItem, Watched, KeyStands, Stepped, Apart, Ready, Attaching, Joins, Stand;
    var ref, it := p.Ref(m), p.items[m];
    var on1 := ObserveItem(on, ref, p.root, it).value;
    ObserveItemKeeps(on, a, ref, p.root, it);
    ItemStands(on, a, ref, p.root, it);
    ItemSighted(on, ref, p.root, it, k);
    ItemStepped(on, a, ref, p.root, it, k);
    WatchedSource(o, on, p, m, k);
    WatchedStep(o, on, on1, p, m, k, Attaching(on, ref, p.KeyAt(m), it.path), it.path);
    KeyStandsStep(o, on, on1, p, m, k);
  }

  /* ---------- The whole report ---------- */

  /** Of the sightings that report k bare once the report is stored, the one a
      scan meets first has its record; without any, k is forgotten. */
  ghost predicate HandedOn(db: Db, p: Report, items: map<Key, Record>, k: Key) {
    if exists ref :: ClaimsAfter(db, p, ref, k)
    then
      && k in items && items[k].inst == 0 && ClaimsAfter(db, p, items[k].ref, k)
      && forall ref | ClaimsAfter(db, p, ref, k) :: ref == items[k].ref || Before(items[k].ref, ref)
    else k !in items
  }

  /** The record k is left with, provided its sighting still reports it bare:
      the first bare item's, if that takes it over, or the one there was. */
  ghost predicate Offered(db: Db, pass: PassId, p: Report, k: Key, rec: Option<Record>) {
    if exists i: nat :: i < |p.items| && FirstBare(p, i, k)
    then
      exists i: nat :: i < |p.items| && FirstBare(p, i, k)
                       && rec == if TakesOver(db, pass, p, i, RecordOf(db.items, k)) then Some(Record(p.Ref(i), 0)) else RecordOf(db.items, k)
    else rec == RecordOf(db.items, k)
  }

  /** What a report leaves of a key no instance held: it joins the first item
      that reports it at a path free of other live sources; else it keeps the
      record offered, or is handed on when that record's own item stopped
      reporting it bare. */
  ghost predicate Outcome(db: Db, after: Db, pass: PassId, p: Report, k: Key) {
    if exists i: nat :: i < |p.items| && FirstFree(db, p, i, k)
    then forall i: nat | i < |p.items| && FirstFree(db, p, i, k) :: ItemSteps.Joins(after, p.src, p.Ref(i), k, p.items[i].path)
    else
      exists rec :: Offered(db, pass, p, k, rec)
                    && if rec.Some? && !ClaimsAfter(db, p, rec.value.ref, k) then HandedOn(db, p, after.items, k)
                       else RecordOf(after.items, k) == rec
  }

  lemma ClaimsWatched(o: Obs, on: Obs, p: Report, k: Key, ref: ItemRef)
    requires Watched(o, on, p, |p.items|, k)
    ensures BareAt(on.db.sightings, ref, k) <==> ClaimsAfter(o.db, p, ref, k)
  {
    hide Others, SeenBefore;
    if p.Names(|p.items|, ref) {
      var j: nat :| j < |p.items| && p.Ref(j) == ref;
      assert on.db.sightings[p.Ref(j)].ClaimsBare(k) <==> Bare(p, j, k);
    } else {
      assert SightingAt(on.db, ref) == SightingAt(o.db, ref);
    }
  }

  lemma HandedFirst(o: Obs, on: Obs, p: Report, k: Key, items: map<Key, Record>)
    requires Watched(o, on, p, |p.items|, k)
    requires Inherits(on.db.sightings, items, k)
    ensures HandedOn(o.db, p, items, k)
  {
    hide Watched, ClaimsAfter, BareAt;
    forall ref
      ensures BareAt(on.db.sightings, ref, k) <==> ClaimsAfter(o.db, p, ref, k)
    {
      ClaimsWatched(o, on, p, k, ref);
    }
  }

  lemma OfferedAt(o: Obs, on: Obs, p: Report, k: Key)
    requires KeyStands(o, on, p, |p.items|, k) && forall i: nat | i < |p.items| :: !Free(o.db, p, i, k)
    ensures Offered(o.db, o.pass, p, k, RecordOf(on.db.items, k)) && HeldAt(on.db, k).None?
  {
    hide Free, TakesOver;
    if i: nat :| i < |p.items| && FirstBare(p, i, k) {
    } else {
      forall j: nat | j < |p.items|
        ensures !Bare(p, j, k)
      {
        if Bare(p, j, k) {
          var i := EarlierBare(p, j, k);
        }
      }
    }
  }

  lemma UnheldSettles(o: Obs, on: Obs, a: Activation, p: Report, k: Key)
    requires Weak(on, a) && Watched(o, on, p, |p.items|, k) && KeyStands(o, on, p, |p.items|, k) && o.src == p.src
    ensures Settle(on, a).Success? && Outcome(o.db, Settle(on, a).value.db, o.pass, p, k)
  {
    hide Weak, Watched, Settle, Free, ClaimsAfter, Offered, HandedOn, FirstBare, TakesOver, SeenBefore;
    WatchedSource(o, on, p, |p.items|, k);
    SettledRecord(on, a, k);
    if exists i: nat :: i < |p.items| && FirstFree(o.db, p, i, k) {
      forall i: nat | i < |p.items| && FirstFree(o.db, p, i, k)
        ensures ItemSteps.Joins(Settle(on, a).value.db, p.src, p.Ref(i), k, p.items[i].path)
      {
        JoinedSettles(on, a, p.Ref(i), k, p.items[i].path);
      }
    } else {
      forall i: nat | i < |p.items|
        ensures !Free(o.db, p, i, k)
      {
        if Free(o.db, p, i, k) {
          var j := EarlierFree(o.db, p, i, k);
        }
      }
      OfferedAt(o, on, p, k);
      var rec := RecordOf(on.db.items, k);
      if rec.Some? {
        ClaimsWatched(o, on, p, k, rec.value.ref);
        if !ClaimsAfter(o.db, p, rec.value.ref, k) {
          HandedFirst(o, on, p, k, Settle(on, a).value.db.items);
        }
      }
    }
  }

  lemma ReportUnheld(db: Db, a: Activation, pass: PassId, now: Time, p: Report, k: Key)
    requires Inv(db, Some(a)) && ObserveItems(db, Some(a), p.src, pass, now, p.root, p.items).Success?
    requires HeldAt(db, k).None?
    ensures Outcome(db, ObserveItems(db, Some(a), p.src, pass, now, p.root, p.items).value.db, pass, p, k)
  {
    hide Inv, Weak, Settle, ObserveAll, StampRoot, Watched, KeyStands, Outcome;
    var o := Begun(db, p.src, pass, now);
    BeginWeak(db, a, p.src, pass, now);
    RecordSighted(o, a, k);
    assert Apart(p);
    assert p.items[..|p.items|] == p.items;
    ReportWatched(o, a, p, |p.items|, k);
    UnheldSettles(o, Observe(o, p.root, p.items).value, a, p, k);
  }

  lemma RecordSighted(o: Obs, a: Activation, k: Key)
    requires Weak(o, a) && HeldAt(o.db, k).None? && o.released == {}
    ensures RecordOf(o.db.items, k).Some? ==>
              var ref := RecordOf(o.db.items, k).value.ref; ref.item != "" && ref in o.db.sightings && o.db.sightings[ref].ClaimsBare(k)
  {
    hide Linked, Owning, WellFormed, Kept, Rows, Current;
    if k in o.db.items {
      NamedKey(o, k);
    }
  }

  /* ---------- Whose record a bare key keeps ---------- */

  /** A report never moves another source's bare record: the key keeps it, or
      joins an instance of the reporting source. */
  lemma OtherSourceKeeps(db: Db, a: Activation, pass: PassId, now: Time, p: Report, k: Key)
    requires Inv(db, Some(a)) && ObserveItems(db, Some(a), p.src, pass, now, p.root, p.items).Success?
    requires k in db.items && db.items[k].inst == 0 && db.items[k].ref.root.source != p.src
    ensures var after := ObserveItems(db, Some(a), p.src, pass, now, p.root, p.items).value.db;
            && k in after.items
            && (after.items[k] == db.items[k]
                || (after.items[k].inst in after.instances && after.instances[after.items[k].inst].owner == Some(p.src)
                    && exists i: nat :: i < |p.items| && Free(db, p, i, k)))
  {
    hide Inv, ObserveItems, Free, SeenBefore, FirstBare, HandedOn;
    ReportUnheld(db, a, pass, now, p, k);
    NamesOwn(p, |p.items|, db.items[k].ref);
    BareSighted(db, a, k);
  }

  lemma BareSighted(db: Db, a: Activation, k: Key)
    requires Inv(db, Some(a)) && k in db.items && db.items[k].inst == 0
    ensures db.items[k].ref in db.sightings && db.sightings[db.items[k].ref].ClaimsBare(k)
  {
    hide Linked, Owning, WellFormed, Kept, Stamped, Sourced, Overlapping, Held, Staging, NonEmpty, NoStray, Current;
  }

  /** Only one item is the first. */
  lemma FirstBareOnce(p: Report, i: nat, j: nat, k: Key)
    requires i < |p.items| && j < |p.items| && FirstBare(p, i, k) && FirstBare(p, j, k)
    ensures i == j
  {
    hide Bare;
  }

  /** Within a source, the first item to report the key bare takes the record
      of a sighting its pass has not seen, and one it has seen keeps it; a key
      not recorded is recorded for that item. */
  lemma OwnSourceMoves(db: Db, a: Activation, pass: PassId, now: Time, p: Report, i: nat, k: Key)
    requires Inv(db, Some(a)) && ObserveItems(db, Some(a), p.src, pass, now, p.root, p.items).Success?
    requires HeldAt(db, k).None? && (forall j: nat | j < |p.items| :: !Free(db, p, j, k))
    requires i < |p.items| && FirstBare(p, i, k)
    ensures var after := ObserveItems(db, Some(a), p.src, pass, now, p.root, p.items).value.db;
            if k !in db.items then RecordOf(after.items, k) == Some(Record(p.Ref(i), 0))
            else
              var ref := db.items[k].ref;
              ref.root.source == p.src ==>
                && (!SeenBefore(db, pass, p, i, ref) ==> RecordOf(after.items, k) == Some(Record(p.Ref(i), 0)))
                && (SeenBefore(db, pass, p, i, ref) && !p.Names(|p.items|, ref) ==> RecordOf(after.items, k) == Some(db.items[k]))
  {
    hide Inv, ObserveItems, Free, SeenBefore, FirstBare, HandedOn;
    ReportUnheld(db, a, pass, now, p, k);
    forall j: nat | j < |p.items| && FirstBare(p, j, k)
      ensures j == i
    {
      FirstBareOnce(p, i, j, k);
    }
    assert p.Names(|p.items|, p.Ref(i)) && Bare(p, i, k) by { FirstIsBare(p, i, k); }
    assert ClaimsAfter(db, p, p.Ref(i), k);
    if k in db.items {
      BareSighted(db, a, k);
    }
  }

  lemma FirstIsBare(p: Report, i: nat, k: Key)
    requires i < |p.items| && FirstBare(p, i, k)
    ensures Bare(p, i, k) && p.Names(|p.items|, p.Ref(i))
  {
  }
}
