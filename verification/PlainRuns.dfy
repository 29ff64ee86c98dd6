/** Runs of a store with one source and a policy that wants nothing: what each
    call leaves, written out. */
module PlainRuns {
  import opened Wrappers
  import opened Media
  import opened Languages
  import opened Tables
  import opened Claims
  import opened Judging
  import opened Settlement
  import opened Passes
  import opened Activations
  import opened AttachKeep
  import opened Runs
  import Paths

  const SRC := "s"
  const ROOT := Root(NativeRef("m", Movie), ExternalIds(0, 0, 0), "")
  const RR := RootRef(SRC, ROOT.native)
  const POLICY := Policy(0, (x, y) => Unrelated, (x, y) => [])

  /** The activation of some sources. */
  function Active(sources: set<SourceId>): Activation {
    Activation(POLICY, sources, {})
  }

  function MovieKey(id: nat): Key {
    Key(RootKey(Movie, TMDB, id), 0, 0)
  }

  /** A movie as reported: its number at the source, its id and its file. */
  function Film(native: string, id: nat, path: string): Item {
    Item(native, path, "", "", [], ExternalIds(0, id, 0), Numbering(0, 0, NoScheme), "")
  }

  const FIRST := ItemRef(RR, "1")
  const SECOND := ItemRef(RR, "2")

  lemma FilmKey(native: string, id: nat, path: string)
    requires ValidExternalId(id)
    ensures ItemKey(ROOT, Film(native, id, path)) == Some(MovieKey(id))
  {
  }

  /* ---------- Nothing to cover ---------- */

  /** Every record's instance is stored, and a live one's sighting. */
  ghost predicate Unbroken(db: Db) {
    forall k | k in db.items :: !Broken(db, db.items[k])
  }

  lemma RecomputesNothing(db: Db, sources: set<SourceId>, ks: set<Key>, inventory: bool)
    requires Unbroken(db) && db.coverage == map[]
    requires forall lk | lk in db.locks :: lk.key !in db.items
    ensures Recompute(db, Active(sources), ks, inventory) == Success(db)
  {
    hide Broken;
    var js := Judgeable(db, ks);
    forall k | k in js
      ensures JudgedAt(db, Active(sources), k) == []
    {
      NothingWanted(db.sightings[db.items[k].ref]);
    }
    assert NewCoverage(db, Active(sources), js) == map[];
    assert KeptLocks(db, Active(sources), js, inventory) == db.locks;
  }

  lemma NothingWanted(sg: Sighting)
    ensures Configured(POLICY, sg) == []
  {
  }

  lemma HandsNothing(db: Db, sources: set<SourceId>)
    requires db.coverage == map[] && db.locks == map[]
    ensures HandOn(db, Active(sources), {}) == Success(db)
  {
    hide Heir, JudgedAt, KeepsLock, Broken;
    assert Heirless(db.sightings, {}) == {};
    assert Bequeathed(db, {}) == db;
    assert NewCoverage(db, Active(sources), {}) == map[];
    assert KeptLocks(db, Active(sources), {}, false) == map[];
  }

  /** With no sightings left, a lost key has no heir. */
  lemma HandsLost(db: Db, sources: set<SourceId>, lost: set<Key>)
    requires db.coverage == map[] && db.locks == map[] && db.sightings == map[]
    ensures HandOn(db, Active(sources), lost) == Success(db.(items := db.items - lost))
  {
    hide JudgedAt, KeepsLock, Broken;
    forall k
      ensures Heir(db.sightings, k).None?
    {
      assert Claimants(db.sightings, k) == {};
    }
    assert Heirless(db.sightings, lost) == lost;
    var mid := Bequeathed(db, lost);
    assert mid.items == db.items - lost && mid.coverage == map[] && mid.locks == map[];
    assert lost - lost == {};
    assert NewCoverage(mid, Active(sources), {}) == map[];
    assert KeptLocks(mid, Active(sources), {}, false) == map[];
  }

  /** A write that released and emptied nothing settles as it is. */
  lemma SettlesNothing(o: Obs, sources: set<SourceId>)
    requires o.released == {} && o.emptied == map[] && o.db.coverage == map[] && o.db.locks == map[] && Unbroken(o.db)
    ensures Settle(o, Active(sources)).Success? && Settle(o, Active(sources)).value.db == o.db
  {
    hide HandOn, Recompute, EmptiedRoots;
    var o1 := DropEmptied(o);
    assert StillEmpty(o) == {};
    assert o1.db == o.db by { DropsNothing(o.db); }
    assert Unheld(o1) == {};
    HandsNothing(o.db, sources);
    RecomputesNothing(o.db, sources, o1.touched - {}, false);
  }

  lemma DropsNothing(db: Db)
    ensures DropInstances(db, {}) == db
  {
    assert RowsWithout(db.files, {}) == db.files && RowsWithout(db.baselines, {}) == db.baselines;
  }

  /* ---------- One item ---------- */

  function AddedInstance(o: Obs, ref: ItemRef, k: Key, it: Item): Db {
    var id := o.db.lastInst + 1;
    o.db.(lastInst := id, instances := o.db.instances[id := Instance(it.path, SceneAt(o, it.path), Some(o.src), 0, [k])],
          items := o.db.items[k := Record(ref, id)],
          sightings := o.db.sightings[ref := Sighting(Some(k), it)], stamps := o.db.stamps[ref := o.pass])
  }

  /** A new sighting of a new key at a new path. */
  lemma AddsInstance(o: Obs, ref: ItemRef, root: Root, it: Item, k: Key)
    requires ItemKey(root, it) == Some(k) && it.path != "" && ref !in o.db.sightings && k !in o.db.items && o.db.overlaps == map[]
    requires forall id | id in o.db.instances :: o.db.instances[id].path != it.path
    ensures ObserveItem(o, ref, root, it).Success?
    ensures var o1 := ObserveItem(o, ref, root, it).value;
            o1.db == AddedInstance(o, ref, k, it) && o1.released == o.released && o1.emptied == o.emptied
            && o1.src == o.src && o1.pass == o.pass && o1.scene == o.scene
  {
    hide ItemKey, AttachOrOverlap, Release, NewInstance, StoreSighting, AddedInstance;
    var o0 := Touch(o, Some(k));
    AttachesNew(o0, ref, k, it.path);
    assert GiveUp(o0, ref, Some(k), it.path) == Success(o0);
    StoresNew(o, ref, k, it);
  }

  lemma AddedUnbroken(o: Obs, ref: ItemRef, k: Key, it: Item)
    requires Unbroken(o.db) && WellFormed(o.db.instances, o.db.lastInst)
    ensures Unbroken(AddedInstance(o, ref, k, it))
  {
    NextIsNew(o.db.instances, o.db.lastInst);
    var db := AddedInstance(o, ref, k, it);
    forall x | x in db.items
      ensures !Broken(db, db.items[x])
    {
      assert x != k ==> !Broken(o.db, o.db.items[x]);
    }
  }

  lemma UnbrokenOn(db: Db, db1: Db)
    requires Unbroken(db) && db1.items == db.items && db1.instances == db.instances && db1.sightings == db.sightings
    ensures Unbroken(db1)
  {
    forall x | x in db1.items
      ensures !Broken(db1, db1.items[x])
    {
      assert !Broken(db, db.items[x]);
    }
  }

  lemma StoresNew(o: Obs, ref: ItemRef, k: Key, it: Item)
    ensures var (o1, id) := NewInstance(Touch(o, Some(k)), k, it.path);
            var o2 := StoreSighting(o1.(db := o1.db.(items := o.db.items[k := Record(ref, id)])), ref, Sighting(Some(k), it));
            && o2.db == AddedInstance(o, ref, k, it) && o2.released == o.released && o2.emptied == o.emptied
            && o2.src == o.src && o2.pass == o.pass && o2.scene == o.scene
  {
  }

  lemma AttachesNew(o: Obs, ref: ItemRef, k: Key, p: string)
    requires k !in o.db.items && o.db.overlaps == map[] && forall id | id in o.db.instances :: o.db.instances[id].path != p
    ensures var (o1, id) := NewInstance(o, k, p);
            AttachOrOverlap(o, ref, k, p) == Success((o1.(db := o1.db.(items := o.db.items[k := Record(ref, id)])), true))
  {
    hide SceneAt;
    assert InstanceAt(o.db.instances, p).None?;
    assert o.db.overlaps - {ref} == map[];
  }

  /* ---------- Each call ---------- */

  lemma Configures(s: State, sources: set<SourceId>, list: seq<SourceId>)
    requires NoRepeat(list) && "" !in list && sources == (set x | x in list)
    requires s.db.stored.sources <= sources && s.db.coverage == map[] && s.db.locks == map[] && Unbroken(s.db)
    ensures Step(s, Configure(POLICY, list, []), 0) == State(s.db.(stored := StoredOf(Active(sources))), Some(Active(sources)))
  {
    hide Recompute;
    var next := Active(sources);
    var none: seq<string> := [];
    assert (set c | c in none) == {};
    assert s.db.stored.sources - sources == {};
    var db1 := s.db.(stored := StoredOf(next));
    assert s.db.stored == StoredOf(next) ==> db1 == s.db;
    RecomputesNothing(db1, sources, db1.items.Keys, false);
  }

  /** The source goes: what it reported, but not the records of its videos. */
  function Removed(db: Db): Db {
    db.(stored := StoredOf(Active({})), roots := map[], sightings := map[], stamps := map[], passes := map[],
        instances := map id | id in db.instances :: db.instances[id].(owner := None, orphaned := 0))
  }

  ghost predicate Lone(db: Db) {
    && db.stored == StoredOf(Active({SRC})) && db.coverage == map[] && db.locks == map[] && db.overlaps == map[] && Unbroken(db)
    && (forall rr | rr in db.roots :: rr.source == SRC) && (forall ref | ref in db.sightings :: ref.root.source == SRC)
    && (forall ref | ref in db.stamps :: ref.root.source == SRC) && (forall src | src in db.passes :: src == SRC)
    && (forall id | id in db.instances :: db.instances[id].owner == Some(SRC) || (db.instances[id].owner.None? && db.instances[id].orphaned == 0))
  }

  lemma PurgesAll(db: Db)
    requires Lone(db)
    ensures Purged(db, {SRC}, 0) == Removed(db).(stored := db.stored)
  {
    hide Unbroken;
    assert RootsOutside(db.roots, {SRC}) == map[] && RefsOutside(db.sightings, {SRC}) == map[] && RefsOutside(db.stamps, {SRC}) == map[];
    assert RefsOutside(db.overlaps, {SRC}) == map[] && db.passes - {SRC} == map[];
    assert OrphanAll(db.instances, {SRC}, 0) == Removed(db).instances;
  }

  lemma RemovesSource(db: Db)
    requires Lone(db)
    ensures Step(State(db, Some(Active({SRC}))), Configure(POLICY, [], []), 0)
         == State(Removed(db).(items := db.items - Stranded(db, {SRC})), Some(Active({})))
  {
    hide HandOn, Recompute, Stranded, Purged, Unbroken;
    var db1 := Purged(db, {SRC}, 0);
    PurgesAll(db);
    var none: seq<string> := [];
    assert (set c | c in none) == {};
    assert db.stored.sources - {} == {SRC};
    StrandedSame(db, db1);
    HandsLost(db1, {}, Stranded(db, {SRC}));
    assert OverlapsOutside(db1.overlaps, {SRC}) == db1.overlaps;
  }

  lemma StrandedSame(db: Db, db1: Db)
    requires db1.items == db.items
    ensures Stranded(db1, {SRC}) == Stranded(db, {SRC})
  {
  }

  lemma OpensAPass(s: State)
    requires s.active.Some? && SRC in s.active.value.sources
    ensures var id := s.db.lastPass + 1;
            Step(s, OpenAPass(SRC, None), 0) == State(s.db.(lastPass := id, passes := s.db.passes[SRC := PassRow(id, None)]), s.active)
  {
  }

  /** The tables once a report's root is stamped. */
  function Begins(db: Db, items: seq<Item>): Obs
    requires SRC in db.passes
  {
    StampRoot(Begun(db, SRC, db.passes[SRC].id, 0), RR, ROOT).(scene := Scenes(items))
  }

  lemma Reports(db: Db, items: seq<Item>, o: Obs)
    requires SRC in db.passes && ValidReport(ROOT, items) && ObserveAll(Begins(db, items), RR, ROOT, items) == Success(o)
    requires o.released == {} && o.emptied == map[] && o.db.coverage == map[] && o.db.locks == map[] && Unbroken(o.db)
    ensures Step(State(db, Some(Active({SRC}))), Call.Report(SRC, db.passes[SRC].id, ROOT, items), 0) == State(o.db, Some(Active({SRC})))
  {
    hide Settle, ObserveAll, ValidReport, Scenes, StampRoot;
    SettlesNothing(o, {SRC});
  }

  lemma One(o: Obs, it: Item)
    ensures ObserveAll(o, RR, ROOT, [it]) == ObserveItem(o, ItemRef(RR, it.native), ROOT, it)
  {
    hide ObserveItem;
    assert [it][..0] == [];
    assert ObserveAll(o, RR, ROOT, [it][..0]) == Success(o);
  }

  lemma Two(o: Obs, a: Item, b: Item)
    ensures ObserveAll(o, RR, ROOT, [a, b]) ==
            match ObserveItem(o, ItemRef(RR, a.native), ROOT, a)
            case Failure(e) => Failure(e)
            case Success(o1) => ObserveItem(o1, ItemRef(RR, b.native), ROOT, b)
  {
    hide ObserveItem;
    assert [a, b][..1] == [a];
    One(o, a);
  }

  lemma {:induction false} PlainScenes(items: seq<Item>, p: string)
    requires forall it | it in items :: it.scene == ""
    ensures p in Scenes(items) ==> Scenes(items)[p] == ""
  {
    if items != [] {
      PlainScenes(items[..|items| - 1], p);
    }
  }

  /** A file in the top directory is at an absolute and clean path. */
  lemma TopLevel(c: char)
    requires c != '/' && c != '.'
    ensures Paths.AbsClean(['/', c])
  {
    assert ['/', c][1..] == [c] && [c][1..] == "";
    assert Paths.Split("") == [""];
    assert [c] + "" == [c];
    assert Paths.Split([c]) == [[c]];
  }

  /* ---------- A source that was removed and came back ---------- */

  const NEW := State(EmptyDb(), None)
  const CLOCK: nat -> Time := t => 0

  lemma RunMore(cs: seq<Call>, c: Call)
    ensures Run(NEW, cs + [c], CLOCK) == Step(Run(NEW, cs, CLOCK), c, 0)
  {
    hide Step;
    assert (cs + [c])[..|cs|] == cs;
  }

  lemma RunFour(cs: seq<Call>, more: seq<Call>)
    requires |more| == 4
    ensures Run(NEW, cs + more[..3], CLOCK) == Step(Step(Step(Run(NEW, cs, CLOCK), more[0], 0), more[1], 0), more[2], 0)
    ensures Run(NEW, cs + more, CLOCK)
         == Step(Step(Step(Step(Run(NEW, cs, CLOCK), more[0], 0), more[1], 0), more[2], 0), more[3], 0)
  {
    hide Step, Run;
    assert cs + more[..1] == cs + [more[0]] && cs + more[..2] == cs + more[..1] + [more[1]];
    assert cs + more[..3] == cs + more[..2] + [more[2]] && cs + more == cs + more[..3] + [more[3]];
    RunMore(cs, more[0]);
    RunMore(cs + more[..1], more[1]);
    RunMore(cs + more[..2], more[2]);
    RunMore(cs + more[..3], more[3]);
  }

  ghost predicate OnePolicy(cs: seq<Call>) {
    forall i | 0 <= i < |cs| :: cs[i].Configure? ==> cs[i].policy == POLICY
  }

  lemma PlainBook(cs: seq<Call>)
    requires OnePolicy(cs)
    ensures var books: nat -> (nat -> Policy) := n => (d => POLICY); Booked(books, cs)
  {
    hide Opens;
  }

  lemma PlainInv(cs: seq<Call>)
    requires OnePolicy(cs)
    ensures var s := Run(NEW, cs, CLOCK); Inv(s.db, s.active)
  {
    hide Inv, Run, OnePolicy, Booked;
    var books: nat -> (nat -> Policy) := n => (d => POLICY);
    PlainBook(cs);
    EmptyGood(books(0));
    RunKeeps(NEW, cs, CLOCK, books);
  }

  const FIRST_LIFE: seq<Call> :=
    [Configure(POLICY, [SRC], []), OpenAPass(SRC, None), Call.Report(SRC, 1, ROOT, [Film("1", 3, "/c")]), Configure(POLICY, [], []),
     Configure(POLICY, [SRC], []), OpenAPass(SRC, None)]

  /** The tables after it: a record and an ownerless instance from before the
      source was removed. */
  const RETURNED := EmptyDb().(
    stored := StoredOf(Active({SRC})), passes := map[SRC := PassRow(2, None)], lastPass := 2,
    items := map[MovieKey(3) := Record(FIRST, 1)], instances := map[1 := Instance("/c", "", None, 0, [MovieKey(3)])], lastInst := 1)

  const OPENED := EmptyDb().(stored := StoredOf(Active({SRC})), passes := map[SRC := PassRow(1, None)], lastPass := 1)

  const REPORTED := OPENED.(
    roots := map[RR := ROOT], sightings := map[FIRST := Sighting(Some(MovieKey(3)), Film("1", 3, "/c"))],
    stamps := map[ItemRef(RR, "") := 1, FIRST := 1],
    items := map[MovieKey(3) := Record(FIRST, 1)], instances := map[1 := Instance("/c", "", Some(SRC), 0, [MovieKey(3)])], lastInst := 1)

  lemma FirstOpened()
    ensures Run(NEW, FIRST_LIFE[..2], CLOCK) == State(OPENED, Some(Active({SRC})))
  {
    hide Step;
    assert FIRST_LIFE[..0] == [] && FIRST_LIFE[..0] + [FIRST_LIFE[0]] == FIRST_LIFE[..1] && FIRST_LIFE[..1] + [FIRST_LIFE[1]] == FIRST_LIFE[..2];
    assert Run(NEW, FIRST_LIFE[..0], CLOCK) == NEW;
    RunMore(FIRST_LIFE[..0], FIRST_LIFE[0]);
    RunMore(FIRST_LIFE[..1], FIRST_LIFE[1]);
    assert {SRC} == (set x | x in [SRC]);
    Configures(NEW, {SRC}, [SRC]);
    OpensAPass(State(EmptyDb().(stored := StoredOf(Active({SRC}))), Some(Active({SRC}))));
  }

  lemma FirstReported()
    ensures Step(State(OPENED, Some(Active({SRC}))), FIRST_LIFE[2], 0) == State(REPORTED, Some(Active({SRC})))
  {
    hide Step, ObserveItem;
    var it := Film("1", 3, "/c");
    var o := Begins(OPENED, [it]);
    FilmKey("1", 3, "/c");
    AddsInstance(o, FIRST, ROOT, it, MovieKey(3));
    One(o, it);
    TopLevel('c');
    assert "/c" == ['/', 'c'];
    var o1 := ObserveItem(o, FIRST, ROOT, it).value;
    assert AddedInstance(o, FIRST, MovieKey(3), it) == REPORTED;
    Reports(OPENED, [it], o1);
  }

  lemma FirstLife()
    ensures Run(NEW, FIRST_LIFE, CLOCK) == State(RETURNED, Some(Active({SRC})))
  {
    hide Step, Removed;
    FirstOpened();
    FirstReported();
    assert FIRST_LIFE[..2] + [FIRST_LIFE[2]] == FIRST_LIFE[..3] && FIRST_LIFE[..3] + [FIRST_LIFE[3]] == FIRST_LIFE[..4];
    assert FIRST_LIFE[..4] + [FIRST_LIFE[4]] == FIRST_LIFE[..5] && FIRST_LIFE[..5] + [FIRST_LIFE[5]] == FIRST_LIFE;
    RunMore(FIRST_LIFE[..2], FIRST_LIFE[2]);
    RunMore(FIRST_LIFE[..3], FIRST_LIFE[3]);
    RunMore(FIRST_LIFE[..4], FIRST_LIFE[4]);
    RunMore(FIRST_LIFE[..5], FIRST_LIFE[5]);
    FirstRemoved();
    assert {SRC} == (set x | x in [SRC]);
    Configures(State(Removed(REPORTED), Some(Active({}))), {SRC}, [SRC]);
    var back := RETURNED.(passes := map[], lastPass := 1);
    assert Removed(REPORTED).(stored := StoredOf(Active({SRC}))) == back;
    OpensAPass(State(back, Some(Active({SRC}))));
  }

  lemma FirstRemoved()
    ensures Step(State(REPORTED, Some(Active({SRC}))), FIRST_LIFE[3], 0) == State(Removed(REPORTED), Some(Active({})))
    ensures Removed(REPORTED) == RETURNED.(stored := StoredOf(Active({})), passes := map[], lastPass := 1)
    ensures Unbroken(Removed(REPORTED))
  {
    hide Step, Lone, Removed, Unbroken, Stranded;
    FirstLone();
    FirstStands();
    RemovesSource(REPORTED);
  }

  lemma FirstLone()
    ensures Lone(REPORTED)
  {
  }

  lemma FirstStands()
    ensures Removed(REPORTED) == RETURNED.(stored := StoredOf(Active({})), passes := map[], lastPass := 1)
    ensures Unbroken(Removed(REPORTED)) && REPORTED.items - Stranded(REPORTED, {SRC}) == REPORTED.items
  {
    assert Removed(REPORTED).instances == RETURNED.instances;
  }
}
