/** What a complete pass leaves: which sightings, instances, files and records. */
module Retirement {
  import opened Wrappers
  import opened Media
  import opened Tables
  import opened Claims
  import opened Judging
  import opened Settlement
  import opened Passes
  import opened AttachKeep
  import opened ClaimsKeep
  import opened SettlementKeeps
  import opened PassesKeep
  import opened Heirs
  import opened Removals
  import Pins

  /** Thirty days. */
  const ORPHAN_LIFE: Time := 2_592_000_000_000_000

  /* ---------- What the tables say before it ---------- */

  /** The pass did not stamp ref, which is of its source and scope and under no
      root it keeps. */
  predicate Unseen(db: Db, src: SourceId, p: PassRow, kept: set<NativeRef>, ref: ItemRef) {
    && ref in db.stamps && ref.root.source == src && db.stamps[ref] != p.id
    && ref.root.root !in kept && (p.roots.Some? ==> ref.root.root in p.roots.value)
  }

  /** k's record names a sighting of k among refs. */
  predicate Rests(db: Db, refs: set<ItemRef>, k: Key) {
    k in db.items && db.items[k].ref in refs && db.items[k].ref in db.sightings && db.sightings[db.items[k].ref].key == Some(k)
  }

  /** An ownerless instance no write pins, orphaned more than thirty days ago. */
  ghost predicate Overdue(db: Db, now: Time, id: InstId) {
    && id in db.instances && db.instances[id].owner.None? && now > db.instances[id].orphaned + ORPHAN_LIFE
    && forall fk | fk in db.intents :: fk.inst != id
  }

  /* ---------- Retiring one sighting after another ---------- */

  /** An instance, its list without the keys given up. */
  ghost predicate InstanceGiven(db: Db, on: Db, refs: set<ItemRef>, id: InstId)
    requires id in db.instances && id in on.instances
  {
    && on.instances[id] == db.instances[id].(items := on.instances[id].items)
    && forall x :: x in on.instances[id].items <==> x in db.instances[id].items && !(Rests(db, refs, x) && db.items[x].inst == id)
  }

  /** A key given up is recorded with no video. */
  predicate RecordGiven(db: Db, on: Db, refs: set<ItemRef>, x: Key) {
    RecordOf(on.items, x) == if Rests(db, refs, x) then Some(db.items[x].(inst := 0)) else RecordOf(db.items, x)
  }

  ghost predicate KeysGiven(db: Db, on: Db, refs: set<ItemRef>) {
    && on.instances.Keys == db.instances.Keys
    && (forall id | id in db.instances :: InstanceGiven(db, on, refs, id))
    && (forall x :: RecordGiven(db, on, refs, x))
  }

  predicate Unkeyed(db: Db, refs: set<ItemRef>) {
    exists ref :: ref in refs && ref in db.sightings && db.sightings[ref].key.None?
  }

  lemma KeysGivenNone(db: Db)
    ensures KeysGiven(db, db, {})
  {
  }

  /** A sighting with no claim on its key's record gives up nothing. */
  lemma NothingGiven(db: Db, on: Db, on1: Db, refs: set<ItemRef>, ref: ItemRef)
    requires KeysGiven(db, on, refs) && on1.items == on.items && on1.instances == on.instances
    requires forall x | x in db.items && db.items[x].ref == ref && ref !in refs :: !(ref in db.sightings && db.sightings[ref].key == Some(x))
    ensures KeysGiven(db, on1, refs + {ref})
  {
    forall x
      ensures Rests(db, refs + {ref}, x) <==> Rests(db, refs, x)
    {
    }
    forall x
      ensures RecordGiven(db, on1, refs + {ref}, x)
    {
      assert RecordGiven(db, on, refs, x);
    }
    forall id | id in db.instances
      ensures InstanceGiven(db, on1, refs + {ref}, id)
    {
      assert InstanceGiven(db, on, refs, id);
    }
  }

  lemma RestsMore(db: Db, refs: set<ItemRef>, ref: ItemRef, k: Key, x: Key)
    requires k in db.items && db.items[k].ref == ref && ref in db.sightings && db.sightings[ref].key == Some(k)
    ensures Rests(db, refs + {ref}, x) <==> Rests(db, refs, x) || x == k
  {
  }

  lemma RecordOne(db: Db, on: Db, on1: Db, refs: set<ItemRef>, ref: ItemRef, k: Key, x: Key)
    requires RecordGiven(db, on, refs, x)
    requires k in db.items && db.items[k].ref == ref && ref in db.sightings && db.sightings[ref].key == Some(k)
    requires k in on.items && on.items[k] == db.items[k] && on1.items == on.items[k := db.items[k].(inst := 0)]
    ensures RecordGiven(db, on1, refs + {ref}, x)
  {
    RestsMore(db, refs, ref, k, x);
  }

  lemma InstanceOne(db: Db, on: Db, on1: Db, refs: set<ItemRef>, ref: ItemRef, k: Key, id: InstId)
    requires id in db.instances && id in on.instances && InstanceGiven(db, on, refs, id) && 0 !in db.instances
    requires k in db.items && db.items[k].ref == ref && ref in db.sightings && db.sightings[ref].key == Some(k)
    requires on1.instances == if db.items[k].inst == 0 then on.instances else Shrunk(on.instances, db.items[k].inst, k)
    ensures InstanceGiven(db, on1, refs + {ref}, id)
  {
    forall x
      ensures Rests(db, refs + {ref}, x) <==> Rests(db, refs, x) || x == k
    {
      RestsMore(db, refs, ref, k, x);
    }
  }

  lemma OneGiven(db: Db, on: Db, on1: Db, refs: set<ItemRef>, ref: ItemRef, k: Key)
    requires KeysGiven(db, on, refs) && 0 !in db.instances
    requires k in db.items && db.items[k].ref == ref && ref in db.sightings && db.sightings[ref].key == Some(k)
    requires k in on.items && on.items[k] == db.items[k] && on1.items == on.items[k := db.items[k].(inst := 0)]
    requires on1.instances == if db.items[k].inst == 0 then on.instances else Shrunk(on.instances, db.items[k].inst, k)
    ensures KeysGiven(db, on1, refs + {ref})
  {
    hide RecordGiven, InstanceGiven;
    assert on1.instances.Keys == on.instances.Keys;
    forall x
      ensures RecordGiven(db, on1, refs + {ref}, x)
    {
      RecordOne(db, on, on1, refs, ref, k, x);
    }
    forall id | id in db.instances
      ensures InstanceGiven(db, on1, refs + {ref}, id)
    {
      InstanceOne(db, on, on1, refs, ref, k, id);
    }
  }

  /** The key whose record a sighting has. */
  function Claimed(db: Db, ref: ItemRef): Option<Key> {
    if ref in db.sightings && db.sightings[ref].key.Some? && db.sightings[ref].key.value in db.items
       && db.items[db.sightings[ref].key.value].ref == ref
    then db.sightings[ref].key else None
  }

  function ItemsGiven(db: Db, k: Option<Key>): map<Key, Record> {
    if k.Some? && k.value in db.items then db.items[k.value := db.items[k.value].(inst := 0)] else db.items
  }

  function InstancesGiven(db: Db, k: Option<Key>): map<InstId, Instance> {
    if k.Some? && k.value in db.items && db.items[k.value].inst != 0 then Shrunk(db.instances, db.items[k.value].inst, k.value) else db.instances
  }

  lemma RetireUnsighted(on: Obs, ref: ItemRef)
    requires ref.item == "" || ref !in on.db.sightings
    ensures RetireOne(on, ref) ==
            Success(on.(db := on.db.(stamps := on.db.stamps - {ref}, roots := if ref.item == "" then on.db.roots - {ref.root} else on.db.roots)))
  {
    hide Release;
    assert on.db.(roots := on.db.roots) == on.db;
  }

  /** ref's stamp gone: where its release starts. */
  function Unstamped(on: Obs, ref: ItemRef): Obs {
    on.(db := on.db.(stamps := on.db.stamps - {ref}))
  }

  lemma RetireReleases(on: Obs, ref: ItemRef)
    requires RetireOne(on, ref).Success? && ref.item != "" && ref in on.db.sightings
    ensures Release(Unstamped(on, ref), ref, on.db.sightings[ref]).Success?
    ensures var o1, on1 := Release(Unstamped(on, ref), ref, on.db.sightings[ref]).value, RetireOne(on, ref).value;
            on1.db == o1.db.(sightings := o1.db.sightings - {ref}) && (on1.unidentified <==> on.unidentified || on.db.sightings[ref].key.None?)
  {
    hide Release;
    ReleaseMark(Unstamped(on, ref), ref, on.db.sightings[ref]);
  }

  lemma RetireSighted(on: Obs, a: Activation, ref: ItemRef)
    requires Tidy(on, a) && RetireOne(on, ref).Success? && ref.item != "" && ref in on.db.sightings
    ensures var on1, k := RetireOne(on, ref).value, Claimed(on.db, ref);
            && on1.db == on.db.(stamps := on.db.stamps - {ref}, sightings := on.db.sightings - {ref}, overlaps := on.db.overlaps - {ref},
                                items := ItemsGiven(on.db, k), instances := InstancesGiven(on.db, k))
            && (on1.unidentified <==> on.unidentified || on.db.sightings[ref].key.None?)
  {
    hide Tidy, Links, Release, RetireOne, ItemsGiven, InstancesGiven;
    var on0 := Unstamped(on, ref);
    var was := on.db.sightings[ref];
    TidyOn(on, on0, a);
    TidyLinks(on0, a);
    RetireReleases(on, ref);
    ReleasedAs(on0, ref, was);
    GivenOn(on.db, on0.db, ref);
  }

  lemma GivenOn(db: Db, db1: Db, ref: ItemRef)
    requires db1.items == db.items && db1.instances == db.instances && db1.sightings == db.sightings
    ensures Claimed(db1, ref) == Claimed(db, ref)
    ensures ItemsGiven(db1, Claimed(db, ref)) == ItemsGiven(db, Claimed(db, ref)) && InstancesGiven(db1, Claimed(db, ref)) == InstancesGiven(db, Claimed(db, ref))
  {
  }

  lemma ReleasedAs(o: Obs, ref: ItemRef, was: Sighting)
    requires Links(o) && ref in o.db.sightings && was == o.db.sightings[ref] && Release(o, ref, was).Success?
    ensures Release(o, ref, was).value.db ==
            o.db.(overlaps := o.db.overlaps - {ref}, items := ItemsGiven(o.db, Claimed(o.db, ref)), instances := InstancesGiven(o.db, Claimed(o.db, ref)))
  {
    hide Links, Release, Shrunk, ItemsGiven, InstancesGiven, Claimed;
    ReleaseShape(o, ref, was);
    ReleasedTables(o, Release(o, ref, was).value, ref);
  }

  lemma ReleasedTables(o: Obs, o1: Obs, ref: ItemRef)
    requires ref in o.db.sightings
    requires var was := o.db.sightings[ref];
             var db0 := o.db.(overlaps := o.db.overlaps - {ref});
             if was.key.None? || was.key.value !in o.db.items || o.db.items[was.key.value].ref != ref then o1 == o.(db := db0)
             else
               var k := was.key.value;
               var rec := o.db.items[k];
               var items := o.db.items[k := rec.(inst := 0)];
               if rec.inst == 0 then o1.db == db0.(items := items) else o1.db == db0.(items := items, instances := Shrunk(o.db.instances, rec.inst, k))
    ensures o1.db == o.db.(overlaps := o.db.overlaps - {ref}, items := ItemsGiven(o.db, Claimed(o.db, ref)), instances := InstancesGiven(o.db, Claimed(o.db, ref)))
  {
    hide Shrunk;
  }

  lemma ReleaseMark(o: Obs, ref: ItemRef, was: Sighting)
    requires Release(o, ref, was).Success?
    ensures Release(o, ref, was).value.unidentified == o.unidentified
  {
  }

  /** Records not yet given up are as they were, and none changes its sighting. */
  lemma GivenRecord(db: Db, on: Db, refs: set<ItemRef>, ref: ItemRef)
    requires KeysGiven(db, on, refs)
    ensures on.items.Keys == db.items.Keys
    ensures forall x | x in db.items :: on.items[x].ref == db.items[x].ref
    ensures ref !in refs ==> forall x | x in db.items && db.items[x].ref == ref :: on.items[x] == db.items[x]
  {
    forall x
      ensures x in on.items <==> x in db.items
      ensures x in db.items ==> on.items[x].ref == db.items[x].ref
      ensures x in db.items && db.items[x].ref == ref && ref !in refs ==> on.items[x] == db.items[x]
    {
      assert RecordGiven(db, on, refs, x);
    }
  }

  /** The rows that refer to the sightings of refs are gone, and nothing else
      but records and lists has changed. */
  ghost predicate Retiring(o: Obs, on: Obs, refs: set<ItemRef>) {
    && KeysGiven(o.db, on.db, refs)
    && on.db.sightings == o.db.sightings - refs && on.db.overlaps == o.db.overlaps - refs
    && on.db == o.db.(sightings := on.db.sightings, stamps := on.db.stamps, overlaps := on.db.overlaps, roots := on.db.roots,
                      items := on.db.items, instances := on.db.instances)
    && (on.unidentified <==> o.unidentified || Unkeyed(o.db, refs))
  }

  /** Every sighting is of an item, and every overlap of a sighting. */
  predicate Sighted(db: Db) {
    && (forall ref | ref in db.sightings :: ref.item != "")
    && (forall ref | ref in db.overlaps :: ref in db.sightings)
  }

  lemma RetiringNone(o: Obs)
    ensures Retiring(o, o, {})
  {
    KeysGivenNone(o.db);
  }

  lemma UnkeyedMore(db: Db, refs: set<ItemRef>, ref: ItemRef)
    ensures Unkeyed(db, refs + {ref}) <==> Unkeyed(db, refs) || (ref in db.sightings && db.sightings[ref].key.None?)
  {
  }

  lemma KeysRetire(o: Obs, on: Obs, on1: Obs, refs: set<ItemRef>, ref: ItemRef)
    requires KeysGiven(o.db, on.db, refs) && 0 !in o.db.instances && on.db.sightings == o.db.sightings - refs
    requires on1.db.items == ItemsGiven(on.db, Claimed(on.db, ref)) && on1.db.instances == InstancesGiven(on.db, Claimed(on.db, ref))
    ensures KeysGiven(o.db, on1.db, refs + {ref})
  {
    hide KeysGiven, Shrunk;
    GivenRecord(o.db, on.db, refs, ref);
    if Claimed(on.db, ref).Some? {
      OneGiven(o.db, on.db, on1.db, refs, ref, Claimed(on.db, ref).value);
    } else {
      NothingGiven(o.db, on.db, on1.db, refs, ref);
    }
  }

  lemma RetiringOn(o: Obs, on: Obs, on1: Obs, refs: set<ItemRef>, ref: ItemRef)
    requires Retiring(o, on, refs) && KeysGiven(o.db, on1.db, refs + {ref})
    requires on1.db == on.db.(sightings := on.db.sightings - {ref}, stamps := on1.db.stamps, overlaps := on.db.overlaps - {ref}, roots := on1.db.roots,
                              items := on1.db.items, instances := on1.db.instances)
    requires on1.unidentified <==> on.unidentified || (ref in on.db.sightings && on.db.sightings[ref].key.None?)
    ensures Retiring(o, on1, refs + {ref})
  {
    hide KeysGiven, Unkeyed;
    UnkeyedMore(o.db, refs, ref);
    UnkeyedAt(o.db, refs, ref);
    assert o.db.sightings - (refs + {ref}) == o.db.sightings - refs - {ref};
    assert o.db.overlaps - (refs + {ref}) == o.db.overlaps - refs - {ref};
  }

  lemma UnkeyedAt(db: Db, refs: set<ItemRef>, ref: ItemRef)
    ensures ref in refs && ref in db.sightings && db.sightings[ref].key.None? ==> Unkeyed(db, refs)
  {
  }

  lemma RetiringUnsighted(o: Obs, on: Obs, refs: set<ItemRef>, ref: ItemRef)
    requires Sighted(o.db) && Retiring(o, on, refs) && (ref.item == "" || ref !in on.db.sightings)
    ensures RetireOne(on, ref).Success? && Retiring(o, RetireOne(on, ref).value, refs + {ref})
  {
    hide RetireOne, KeysGiven, Unkeyed;
    RetireUnsighted(on, ref);
    var on1 := RetireOne(on, ref).value;
    KeysRetireNone(o, on, on1, refs, ref);
    assert on.db.sightings - {ref} == on.db.sightings && on.db.overlaps - {ref} == on.db.overlaps;
    RetiringOn(o, on, on1, refs, ref);
  }

  lemma RetiringStep(o: Obs, on: Obs, a: Activation, refs: set<ItemRef>, ref: ItemRef)
    requires Sighted(o.db) && 0 !in o.db.instances && Retiring(o, on, refs) && Tidy(on, a) && RetireOne(on, ref).Success?
    ensures Retiring(o, RetireOne(on, ref).value, refs + {ref})
  {
    hide Tidy, RetireOne, KeysGiven, ItemsGiven, InstancesGiven, Unkeyed, Claimed, Sighted;
    if ref.item == "" || ref !in on.db.sightings {
      RetiringUnsighted(o, on, refs, ref);
    } else {
      RetireSighted(on, a, ref);
      KeysRetire(o, on, RetireOne(on, ref).value, refs, ref);
      RetiringOn(o, on, RetireOne(on, ref).value, refs, ref);
    }
  }

  lemma KeysRetireNone(o: Obs, on: Obs, on1: Obs, refs: set<ItemRef>, ref: ItemRef)
    requires KeysGiven(o.db, on.db, refs) && on1.db.items == on.db.items && on1.db.instances == on.db.instances
    requires ref !in o.db.sightings || ref in refs
    ensures KeysGiven(o.db, on1.db, refs + {ref})
  {
    NothingGiven(o.db, on.db, on1.db, refs, ref);
  }

  lemma {:induction false} AllRetiring(o: Obs, a: Activation, refs: seq<ItemRef>)
    requires Sighted(o.db) && 0 !in o.db.instances && Tidy(o, a) && RetireAll(o, refs).Success?
    ensures Tidy(RetireAll(o, refs).value, a) && Retiring(o, RetireAll(o, refs).value, set r | r in refs)
  {
    hide Tidy, RetireOne, Retiring, Sighted;
    if refs == [] {
      RetiringNone(o);
      assert (set r | r in refs) == {};
    } else {
      var init, last := refs[..|refs| - 1], refs[|refs| - 1];
      AllRetiring(o, a, init);
      var on := RetireAll(o, init).value;
      RetireOneTidy(on, a, last);
      RetiringStep(o, on, a, (set r | r in init), last);
      assert (set r | r in refs) == (set r | r in init) + {last} by { assert refs == init + [last]; }
    }
  }

  /* ---------- Expiring and settling ---------- */

  /** Every key x listed by id is given up. */
  ghost predicate AllGiven(db: Db, refs: set<ItemRef>, id: InstId)
    requires id in db.instances
  {
    forall x | x in db.instances[id].items :: Rests(db, refs, x) && db.items[x].inst == id
  }

  /** An instance goes when it is overdue, or its keys are all given up; any
      other stays, its list without the keys given up. */
  ghost predicate InstanceLeft(db: Db, after: Db, refs: set<ItemRef>, now: Time, id: InstId)
    requires id in db.instances
  {
    if Overdue(db, now, id) || AllGiven(db, refs, id) then id !in after.instances
    else id in after.instances && InstanceGiven(db, after, refs, id)
  }

  /** k's record once what retired or expired has let go of it. */
  ghost function LetGo(db: Db, refs: set<ItemRef>, now: Time, k: Key): Record
    requires k in db.items
  {
    if Rests(db, refs, k) || Overdue(db, now, db.items[k].inst) then db.items[k].(inst := 0) else db.items[k]
  }

  /** A key let go by its sighting, or by its instance, is handed on, and no
      other record changes. */
  ghost predicate KeyLeft(db: Db, after: Db, refs: set<ItemRef>, now: Time, k: Key) {
    if k !in db.items then k !in after.items
    else
      var rec := LetGo(db, refs, now, k);
      if rec.inst == 0 && !BareAt(after.sightings, rec.ref, k) then Inherits(after.sightings, after.items, k)
      else k in after.items && after.items[k] == rec
  }

  /** Of rows of instances' files, those of the instances left. */
  ghost predicate FilesLeft<V>(rows: map<FileKey, V>, after: map<FileKey, V>, instances: map<InstId, Instance>) {
    forall fk: FileKey :: if fk.inst in instances then SameRow(rows, after, fk) else fk !in after
  }

  lemma OrphansOverdue(o: Obs, on: Obs, refs: set<ItemRef>, id: InstId)
    requires Retiring(o, on, refs) && on.now == o.now
    ensures id in Orphans(on) <==> Overdue(o.db, o.now, id)
  {
    if id in o.db.instances {
      assert InstanceGiven(o.db, on.db, refs, id);
    }
  }

  lemma ExpiredInstance(o: Obs, on: Obs, refs: set<ItemRef>, id: InstId)
    requires Retiring(o, on, refs) && on.now == o.now && id in o.db.instances
    requires EmptiesListed(ExpireAll(on, Orphans(on)))
    ensures InstanceLeft(o.db, DropEmptied(ExpireAll(on, Orphans(on))).db, refs, o.now, id)
  {
    hide Orphans, KeysHeld, ItemRoots, UnlinkedFrom, RowsWithout, EmptiedRoots, Unkeyed, Overdue;
    OrphansOverdue(o, on, refs, id);
    assert InstanceGiven(o.db, on.db, refs, id);
    EmptyGiven(o.db, on.db, refs, id);
    hide KeysGiven, Retiring;
    var o2 := ExpireAll(on, Orphans(on));
    assert o2.db.instances == on.db.instances - Orphans(on);
  }

  lemma EmptyGiven(db: Db, on: Db, refs: set<ItemRef>, id: InstId)
    requires id in db.instances && id in on.instances && InstanceGiven(db, on, refs, id)
    ensures on.instances[id].items == [] <==> AllGiven(db, refs, id)
  {
    hide Rests;
    if on.instances[id].items != [] {
      assert on.instances[id].items[0] in on.instances[id].items;
    }
  }

  lemma UnlinkedRecord(db: Db, ids: set<InstId>, k: Key)
    requires Linked(db.items, db.instances) && 0 !in ids
    ensures RecordOf(UnlinkedFrom(db, ids), k) ==
            if k in db.items && db.items[k].inst in ids then Some(db.items[k].(inst := 0)) else RecordOf(db.items, k)
  {
    if k in db.items {
      LinkedKey(db.items, db.instances, k);
    }
  }

  lemma ExpiredRecord(o: Obs, on: Obs, refs: set<ItemRef>, k: Key)
    requires Retiring(o, on, refs) && on.now == o.now && Linked(on.db.items, on.db.instances) && 0 !in o.db.instances
    ensures RecordOf(ExpireAll(on, Orphans(on)).db.items, k) == if k in o.db.items then Some(LetGo(o.db, refs, o.now, k)) else None
  {
    hide Rests, InstanceGiven, Unkeyed;
    assert RecordGiven(o.db, on.db, refs, k);
    RestsRecorded(o.db, refs, k);
    OrphansOverdue(o, on, refs, 0);
    NotOverdue(o.db, o.now);
    if k in o.db.items {
      OrphansOverdue(o, on, refs, o.db.items[k].inst);
    }
    hide Orphans, Retiring, Linked, KeysHeld, ItemRoots, RowsWithout, Overdue, UnlinkedFrom;
    UnlinkedRecord(on.db, Orphans(on), k);
  }

  lemma RestsRecorded(db: Db, refs: set<ItemRef>, k: Key)
    ensures Rests(db, refs, k) ==> k in db.items
  {
  }

  lemma NotOverdue(db: Db, now: Time)
    requires 0 !in db.instances
    ensures !Overdue(db, now, 0)
  {
  }

  /* ---------- The whole pass ---------- */

  /** What a complete pass leaves, refs being what it retires. */
  ghost predicate PassLeft(db: Db, after: Db, src: SourceId, refs: set<ItemRef>, now: Time) {
    && after.sightings == db.sightings - refs && after.stamps == db.stamps - refs && after.overlaps == db.overlaps - refs
    && after.roots == db.roots - (set r | r in refs && r.item == "" :: r.root) && after.passes == db.passes - {src}
    && after.instances.Keys <= db.instances.Keys
    && (forall id | id in db.instances :: InstanceLeft(db, after, refs, now, id))
    && (forall k :: KeyLeft(db, after, refs, now, k))
    && FilesLeft(db.files, after.files, after.instances) && FilesLeft(db.baselines, after.baselines, after.instances)
  }

  lemma DroppedFiles<V>(rows: map<FileKey, V>, instances: map<InstId, Instance>, ids: set<InstId>, more: set<InstId>)
    requires forall fk | fk in rows :: fk.inst in instances
    ensures FilesLeft(rows, RowsWithout(RowsWithout(rows, ids), more), instances - ids - more)
  {
  }

  /** What the pass retires. */
  function UnseenRefs(db: Db, src: SourceId, p: PassRow, kept: set<NativeRef>): set<ItemRef> {
    set ref | ref in db.stamps && Unseen(db, src, p, kept, ref)
  }

  lemma StaleUnseen(db: Db, src: SourceId, p: PassRow, kept: set<NativeRef>, now: Time)
    ensures var o := Begun(db.(passes := db.passes - {src}), src, p.id, now);
            (set r | r in StaleRefs(o, kept, p)) == UnseenRefs(db, src, p, kept)
  {
    var o := Begun(db.(passes := db.passes - {src}), src, p.id, now);
    forall ref
      ensures ref in StaleRefs(o, kept, p) <==> ref in UnseenRefs(db, src, p, kept)
    {
      StaleRefsIs(o, kept, p, ref);
    }
  }

  lemma PassSighted(db: Db, a: Activation)
    requires Inv(db, Some(a))
    ensures Sighted(db) && 0 !in db.instances
  {
    hide Linked, Owning, Named, Kept, Sourced, Held, Staging, NoStray, Current;
  }

  /** Where a complete pass stands before it settles. */
  lemma PassRetires(db: Db, a: Activation, src: SourceId, p: PassRow, kept: set<NativeRef>, now: Time) returns (on: Obs)
    requires Inv(db, Some(a)) && src in db.passes && db.passes[src] == p
    requires CompletePass(db.(passes := db.passes - {src}), a, src, p, kept, now).Success?
    ensures Retiring(Begun(db.(passes := db.passes - {src}), src, p.id, now), on, UnseenRefs(db, src, p, kept))
    ensures on.now == now && Retired(db.(passes := db.passes - {src}), on.db, StaleRefs(Begun(db.(passes := db.passes - {src}), src, p.id, now), kept, p))
    ensures Tidy(on, a) && Weak(ExpireAll(on, Orphans(on)), a)
    ensures CompletePass(db.(passes := db.passes - {src}), a, src, p, kept, now) == Settle(ExpireAll(on, Orphans(on)), a)
  {
    hide Inv, Tidy, Settle, ExpireAll, RetireAll, Stamped, Retired, StaleRefs, Retiring, Sighted, UnseenRefs;
    var o := Begun(db.(passes := db.passes - {src}), src, p.id, now);
    ClosedTidy(db, a, src, p, now);
    PassSighted(db, a);
    SightedOn(db, o.db);
    var refs := StaleRefs(o, kept, p);
    on := RetireAll(o, refs).value;
    AllRetiring(o, a, refs);
    StaleUnseen(db, src, p, kept, now);
    RetireAllTidy(o, a, refs);
    RetiredStamped(o, on.db, kept, p);
    ExpireTidy(on, a, Orphans(on));
    ExpireSame(on, Orphans(on));
  }

  lemma SightedOn(db: Db, db1: Db)
    requires Sighted(db) && db1.sightings == db.sightings && db1.overlaps == db.overlaps
    ensures Sighted(db1)
  {
  }

  lemma PassInstances(o: Obs, on: Obs, a: Activation, refs: set<ItemRef>)
    requires Retiring(o, on, refs) && on.now == o.now && Weak(ExpireAll(on, Orphans(on)), a)
    ensures var after := DropEmptied(ExpireAll(on, Orphans(on))).db;
            after.instances.Keys <= o.db.instances.Keys && forall id | id in o.db.instances :: InstanceLeft(o.db, after, refs, o.now, id)
  {
    hide Retiring, ExpireAll, DropEmptied, InstanceLeft, Linked, Owning, WellFormed, Named, Kept, Rows, Stamped, Current;
    forall id | id in o.db.instances
      ensures InstanceLeft(o.db, DropEmptied(ExpireAll(on, Orphans(on))).db, refs, o.now, id)
    {
      ExpiredInstance(o, on, refs, id);
    }
    PassFewer(o, on, refs);
  }

  lemma PassFewer(o: Obs, on: Obs, refs: set<ItemRef>)
    requires Retiring(o, on, refs)
    ensures DropEmptied(ExpireAll(on, Orphans(on))).db.instances.Keys <= o.db.instances.Keys
  {
    hide Orphans, KeysHeld, ItemRoots, UnlinkedFrom, RowsWithout, EmptiedRoots, Unkeyed, InstanceGiven, RecordGiven;
  }

  lemma PassKey(o: Obs, on: Obs, a: Activation, refs: set<ItemRef>, k: Key)
    requires Retiring(o, on, refs) && on.now == o.now && Tidy(on, a) && Weak(ExpireAll(on, Orphans(on)), a) && 0 !in o.db.instances
    ensures Settle(ExpireAll(on, Orphans(on)), a).Success?
    ensures KeyLeft(o.db, Settle(ExpireAll(on, Orphans(on)), a).value.db, refs, o.now, k)
  {
    hide Retiring, ExpireAll, Orphans, Weak, Settle, LetGo, Inherits, Rows, Current;
    var o2 := ExpireAll(on, Orphans(on));
    TidyLinks(on, a);
    LinksLinked(on);
    ExpiredRecord(o, on, refs, k);
    SettledRecord(o2, a, k);
    SettledItems(o2, a);
  }

  lemma PassFiles(o: Obs, on: Obs, a: Activation, refs: set<ItemRef>)
    requires Retiring(o, on, refs) && Held(o.db.instances, o.db.files, o.db.baselines, o.db.local, o.db.embedded)
    ensures var after := DropEmptied(ExpireAll(on, Orphans(on))).db;
            FilesLeft(o.db.files, after.files, after.instances) && FilesLeft(o.db.baselines, after.baselines, after.instances)
  {
    hide Orphans, KeysHeld, ItemRoots, UnlinkedFrom, RowsWithout, EmptiedRoots, Unkeyed, InstanceGiven, RecordGiven, FilesLeft;
    var o2 := ExpireAll(on, Orphans(on));
    DroppedFiles(o.db.files, on.db.instances, Orphans(on), StillEmpty(o2));
    DroppedFiles(o.db.baselines, on.db.instances, Orphans(on), StillEmpty(o2));
  }

  lemma PassHeld(db: Db, a: Activation)
    requires Inv(db, Some(a))
    ensures Held(db.instances, db.files, db.baselines, db.local, db.embedded)
  {
    hide Linked, Owning, Named, Kept, Sourced, Held, Staging, NoStray, Current;
  }

  lemma SettleRest(o: Obs, a: Activation)
    requires Settle(o, a).Success?
    ensures var r := Settle(o, a).value;
            r.unidentified == o.unidentified && r.db.overlaps == o.db.overlaps && r.db.baselines == DropEmptied(o).db.baselines
  {
    hide HandOn, Recompute, Unheld;
    var o1 := DropEmptied(o);
    Pins.HandOnFrame(o1.db, a, Unheld(o1));
    Pins.RecomputeFrame(HandOn(o1.db, a, Unheld(o1)).value, a, o1.touched - Unheld(o1), false);
  }

  lemma ExpireFacts(on: Obs)
    ensures var o2 := ExpireAll(on, Orphans(on)); o2.unidentified == on.unidentified && o2.db.overlaps == on.db.overlaps
  {
    hide Orphans, KeysHeld, ItemRoots, UnlinkedFrom;
  }

  predicate RefsSame(refs: seq<ItemRef>, all: set<ItemRef>) {
    (set r | r in refs) == all && (set r | r in refs && r.item == "" :: r.root) == (set r | r in all && r.item == "" :: r.root)
  }

  lemma RefsAre(refs: seq<ItemRef>, all: set<ItemRef>)
    requires (set r | r in refs) == all
    ensures RefsSame(refs, all)
  {
    assert forall r :: r in refs <==> r in all;
  }

  /** The facts a pass leaves. */
  lemma PassFacts(db: Db, a: Activation, src: SourceId, p: PassRow, kept: set<NativeRef>, now: Time, on: Obs)
    requires var o := Begun(db.(passes := db.passes - {src}), src, p.id, now);
             Retiring(o, on, UnseenRefs(db, src, p, kept)) && Retired(o.db, on.db, StaleRefs(o, kept, p))
    requires Weak(ExpireAll(on, Orphans(on)), a)
    ensures var r, refs := Settle(ExpireAll(on, Orphans(on)), a), UnseenRefs(db, src, p, kept);
            && r.Success? && (r.value.unidentified <==> Unkeyed(db, refs))
            && r.value.db.sightings == db.sightings - refs && r.value.db.stamps == db.stamps - refs && r.value.db.overlaps == db.overlaps - refs
            && r.value.db.roots == db.roots - (set x | x in refs && x.item == "" :: x.root) && r.value.db.passes == db.passes - {src}
  {
    hide Weak, Settle, ExpireAll, KeysGiven, Unkeyed, StaleRefs, UnseenRefs;
    var o := Begun(db.(passes := db.passes - {src}), src, p.id, now);
    StaleUnseen(db, src, p, kept, now);
    RefsAre(StaleRefs(o, kept, p), UnseenRefs(db, src, p, kept));
    SettleKeeps(ExpireAll(on, Orphans(on)), a);
    SettleRest(ExpireAll(on, Orphans(on)), a);
    ExpireFacts(on);
    ExpireSame(on, Orphans(on));
    UnkeyedOn(db, o.db, UnseenRefs(db, src, p, kept));
  }

  lemma UnkeyedOn(db: Db, db1: Db, refs: set<ItemRef>)
    requires db1.sightings == db.sightings
    ensures Unkeyed(db1, refs) <==> Unkeyed(db, refs)
  {
  }

  /** The instances, keys and files a pass leaves. */
  lemma PassHolds(o: Obs, on: Obs, a: Activation, refs: set<ItemRef>)
    requires Retiring(o, on, refs) && on.now == o.now && Tidy(on, a) && Weak(ExpireAll(on, Orphans(on)), a)
    requires 0 !in o.db.instances && Held(o.db.instances, o.db.files, o.db.baselines, o.db.local, o.db.embedded)
    ensures var r := Settle(ExpireAll(on, Orphans(on)), a);
            && r.Success? && r.value.db.instances.Keys <= o.db.instances.Keys
            && (forall id | id in o.db.instances :: InstanceLeft(o.db, r.value.db, refs, o.now, id))
            && (forall k :: KeyLeft(o.db, r.value.db, refs, o.now, k))
            && FilesLeft(o.db.files, r.value.db.files, r.value.db.instances)
            && FilesLeft(o.db.baselines, r.value.db.baselines, r.value.db.instances)
  {
    hide Tidy, Weak, Settle, ExpireAll, Retiring, DropEmptied, Orphans, FilesLeft, KeyLeft, Held, InstanceLeft;
    var o2 := ExpireAll(on, Orphans(on));
    SettleKeeps(o2, a);
    SettleRest(o2, a);
    PassInstances(o, on, a, refs);
    PassFiles(o, on, a, refs);
    forall id | id in o.db.instances
      ensures InstanceLeft(o.db, Settle(o2, a).value.db, refs, o.now, id)
    {
      LeftOn(o.db, DropEmptied(o2).db, Settle(o2, a).value.db, refs, o.now, id);
    }
    forall k
      ensures KeyLeft(o.db, Settle(o2, a).value.db, refs, o.now, k)
    {
      PassKey(o, on, a, refs, k);
    }
  }

  lemma LeftOn(db: Db, after: Db, after1: Db, refs: set<ItemRef>, now: Time, id: InstId)
    requires id in db.instances && InstanceLeft(db, after, refs, now, id) && after1.instances == after.instances
    ensures InstanceLeft(db, after1, refs, now, id)
  {
  }

  lemma PassLeftOn(db: Db, db1: Db, after: Db, src: SourceId, refs: set<ItemRef>, now: Time)
    requires db1 == db.(passes := db1.passes)
    requires after.sightings == db.sightings - refs && after.stamps == db.stamps - refs && after.overlaps == db.overlaps - refs
    requires after.roots == db.roots - (set r | r in refs && r.item == "" :: r.root) && after.passes == db.passes - {src}
    requires after.instances.Keys <= db1.instances.Keys
    requires forall id | id in db1.instances :: InstanceLeft(db1, after, refs, now, id)
    requires forall k :: KeyLeft(db1, after, refs, now, k)
    requires FilesLeft(db1.files, after.files, after.instances) && FilesLeft(db1.baselines, after.baselines, after.instances)
    ensures PassLeft(db, after, src, refs, now)
  {
    hide FilesLeft, Inherits, BareAt;
    forall id | id in db.instances
      ensures InstanceLeft(db, after, refs, now, id)
    {
      assert InstanceLeft(db1, after, refs, now, id);
    }
    forall k
      ensures KeyLeft(db, after, refs, now, k)
    {
      assert KeyLeft(db1, after, refs, now, k);
    }
  }

  /** A complete pass retires what it did not see of its scope, expires the
      overdue, deletes the instances left without a key, and changes no other
      sighting, instance, file or record. */
  lemma PassLeaves(db: Db, a: Activation, src: SourceId, pass: PassId, keep: Option<seq<NativeRef>>, now: Time)
    requires Inv(db, Some(a)) && FinishPass(db, Some(a), src, pass, true, keep, now).Success?
    ensures var r := FinishPass(db, Some(a), src, pass, true, keep, now).value;
            var refs := UnseenRefs(db, src, db.passes[src], if keep.None? then {} else set x | x in keep.value);
            PassLeft(db, r.db, src, refs, now) && (r.unidentified <==> Unkeyed(db, refs))
  {
    hide Inv, Tidy, Weak, Settle, ExpireAll, Retiring, DropEmptied, CompletePass, Orphans, Retired, StaleRefs, UnseenRefs, FilesLeft, Held;
    hide PassLeft, KeyLeft, InstanceLeft, Unkeyed;
    var p, kept := db.passes[src], KeptRoots(keep);
    var o := Begun(db.(passes := db.passes - {src}), src, p.id, now);
    var on := PassRetires(db, a, src, p, kept, now);
    PassSighted(db, a);
    PassHeld(db, a);
    PassFacts(db, a, src, p, kept, now, on);
    PassHolds(o, on, a, UnseenRefs(db, src, p, kept));
    PassLeftOn(db, o.db, Settle(ExpireAll(on, Orphans(on)), a).value.db, src, UnseenRefs(db, src, p, kept), now);
  }

  /** So every ownerless instance a complete pass leaves is pinned, or was
      orphaned at most thirty days ago. */
  lemma OrphansExpire(db: Db, a: Activation, src: SourceId, pass: PassId, keep: Option<seq<NativeRef>>, now: Time, id: InstId)
    requires Inv(db, Some(a)) && FinishPass(db, Some(a), src, pass, true, keep, now).Success?
    requires var after := FinishPass(db, Some(a), src, pass, true, keep, now).value.db;
             id in after.instances && after.instances[id].owner.None?
    ensures id in db.instances && db.instances[id].owner.None?
    ensures (exists fk :: fk in db.intents && fk.inst == id) || now - db.instances[id].orphaned <= ORPHAN_LIFE
  {
    hide Inv, FinishPass, Rests, UnseenRefs, KeyLeft, FilesLeft;
    PassLeaves(db, a, src, pass, keep, now);
  }

  /** No write waits on it and its thirty days are over. */
  ghost predicate Lapsed(db: Db, now: Time, id: InstId)
    requires id in db.instances
  {
    now - db.instances[id].orphaned > ORPHAN_LIFE && forall fk | fk in db.intents :: fk.inst != id
  }

  /** One that has not lapsed stays as it was, with its files, when the pass
      retires no sighting that has a key it holds. */
  lemma OrphansStay(db: Db, a: Activation, src: SourceId, pass: PassId, keep: Option<seq<NativeRef>>, now: Time, id: InstId)
    requires Inv(db, Some(a)) && FinishPass(db, Some(a), src, pass, true, keep, now).Success?
    requires id in db.instances && db.instances[id].owner.None? && !Lapsed(db, now, id)
    requires var refs := UnseenRefs(db, src, db.passes[src], KeptRoots(keep));
             forall k | k in db.items && db.items[k].inst == id :: !Rests(db, refs, k)
    ensures var after := FinishPass(db, Some(a), src, pass, true, keep, now).value.db;
            && id in after.instances && after.instances[id] == db.instances[id].(items := after.instances[id].items)
            && (forall k :: k in after.instances[id].items <==> k in db.instances[id].items)
            && (forall fk: FileKey | fk.inst == id :: SameRow(db.files, after.files, fk) && SameRow(db.baselines, after.baselines, fk))
  {
    hide Inv, CompletePass, UnseenRefs, KeyLeft;
    PassLeaves(db, a, src, pass, keep, now);
    var refs := UnseenRefs(db, src, db.passes[src], KeptRoots(keep));
    HasKey(db, a, id);
    var k := db.instances[id].items[0];
    assert !(Rests(db, refs, k) && db.items[k].inst == id);
  }

  lemma HasKey(db: Db, a: Activation, id: InstId)
    requires Inv(db, Some(a)) && id in db.instances
    ensures db.instances[id].items != []
  {
    hide Linked, Owning, Named, Kept, Sourced, Held, Staging, NoStray, Current;
  }
}
