/** A renumbering that loses a file and all that is stored for it: its new key
    is still recorded, under an ownerless instance, for a sighting the report
    names first. */
module RenumberingLost {
  import opened Wrappers
  import opened Media
  import opened Languages
  import opened Tables
  import opened Claims
  import opened Passes
  import opened Intents
  import opened Judging
  import opened ItemSteps
  import opened ObserveKeeps
  import opened Renumbering
  import opened Runs
  import opened PlainRuns
  import SettlementKeeps

  /* ---------- With no pending write nothing is refused ---------- */

  lemma DetachGoes(o: Obs, id: InstId, k: Key)
    requires o.db.intents == map[]
    ensures Detach(o, id, k).Success? && Detach(o, id, k).value.db.intents == map[]
  {
    hide Without;
  }

  lemma ReleaseGoes(o: Obs, ref: ItemRef, was: Sighting)
    requires o.db.intents == map[]
    ensures Release(o, ref, was).Success? && Release(o, ref, was).value.db.intents == map[]
  {
    hide Detach;
    var o1 := o.(db := o.db.(overlaps := o.db.overlaps - {ref}));
    if was.key.Some? && was.key.value in o.db.items {
      DetachGoes(o1, o.db.items[was.key.value].inst, was.key.value);
    }
  }

  lemma JoinGoes(o: Obs, at: Option<InstId>, k: Key, p: string)
    requires o.db.intents == map[] && (at.Some? ==> at.value in o.db.instances)
    ensures Join(o, at, k, p).Success? && Join(o, at, k, p).value.0.db.intents == map[]
  {
    hide Expire, UnlinkAll, Pinned;
    assert forall id :: !Pinned(o.db.intents, id) by { NonePinned(o.db.intents); }
    if at.Some? {
      UnlinkIntents(o, o.db.instances[at.value].items, at.value);
      ExpireIntents(o, at.value);
    }
  }

  lemma NonePinned(intents: map<FileKey, Intent>)
    requires intents == map[]
    ensures forall id :: !Pinned(intents, id)
  {
  }

  lemma AttachGoes(o: Obs, ref: ItemRef, k: Key, p: string, at: Option<InstId>)
    requires o.db.intents == map[] && (at.Some? ==> at.value in o.db.instances)
    ensures AttachKey(o, ref, k, p, at).Success? && AttachKey(o, ref, k, p, at).value.db.intents == map[]
  {
    hide Join, Detach;
    JoinGoes(o, at, k, p);
    var j := Join(o, at, k, p).value;
    if IsHeld(RecordOf(o.db.items, k)) {
      DetachGoes(j.0, RecordOf(o.db.items, k).value.inst, k);
    }
  }

  lemma ClaimGoes(o: Obs, ref: ItemRef, k: Key, p: string)
    requires o.db.intents == map[]
    ensures Claim(o, ref, k, p).Success? && Claim(o, ref, k, p).value.0.db.intents == map[]
  {
    hide AttachOrOverlap, NoVideo;
    if p == "" {
      NoVideoIntents(o, ref, k);
    } else {
      AttachOrOverlapGoes(o, ref, k, p);
    }
  }

  lemma NoVideoIntents(o: Obs, ref: ItemRef, k: Key)
    ensures NoVideo(o, ref, k).db.intents == o.db.intents
  {
  }

  lemma AttachOrOverlapGoes(o: Obs, ref: ItemRef, k: Key, p: string)
    requires o.db.intents == map[]
    ensures AttachOrOverlap(o, ref, k, p).Success? && AttachOrOverlap(o, ref, k, p).value.0.db.intents == map[]
  {
    hide AttachKey, Rival, HeldElsewhere, InstanceAt;
    var at := InstanceAt(o.db.instances, p);
    var rec := RecordOf(o.db.items, k);
    if Rival(o, at, rec).None? && !(IsHeld(rec) && rec.value.ref != ref && rec.value.ref.root.source == o.src && HeldElsewhere(o, rec.value)) {
      AttachGoes(o, ref, k, p, at);
    }
  }

  lemma ItemGoes(o: Obs, ref: ItemRef, root: Root, it: Item)
    requires o.db.intents == map[]
    ensures ObserveItem(o, ref, root, it).Success? && ObserveItem(o, ref, root, it).value.db.intents == map[]
  {
    hide Release, Claim, ItemKey;
    var key := ItemKey(root, it);
    var o0 := Touch(o, key);
    var was := SightingAt(o0.db, ref);
    if was.Some? {
      ReleaseGoes(o0, ref, was.value);
    }
    var o1 := GiveUp(o0, ref, key, it.path).value;
    if key.Some? {
      ClaimGoes(o1, ref, key.value, it.path);
    }
  }

  lemma {:induction false} ReportGoes(o: Obs, rr: RootRef, root: Root, items: seq<Item>)
    requires o.db.intents == map[]
    ensures ObserveAll(o, rr, root, items).Success? && ObserveAll(o, rr, root, items).value.db.intents == map[]
  {
    hide ObserveItem;
    if items != [] {
      var n := |items| - 1;
      ReportGoes(o, rr, root, items[..n]);
      ItemGoes(ObserveAll(o, rr, root, items[..n]).value, ItemRef(rr, items[n].native), root, items[n]);
    }
  }

  /** A report of an open pass is then never refused. */
  lemma Unrefused(db: Db, a: Activation, src: SourceId, pass: PassId, now: Time, root: Root, items: seq<Item>)
    requires Inv(db, Some(a)) && db.intents == map[] && ValidReport(root, items) && OpenPass(db, Some(a), src, pass).Success?
    ensures ObserveItems(db, Some(a), src, pass, now, root, items).Success?
  {
    hide Inv, ObserveAll, StampRoot;
    ObserveItemsKeeps(db, Some(a), src, pass, now, root, items);
    var o, rr := Begun(db, src, pass, now), RootRef(src, root.native);
    StampedIntents(o, rr, root);
    ReportGoes(StampRoot(o, rr, root).(scene := Scenes(items)), rr, root, items);
    ReportKeeps(db, a, src, pass, now, root, items);
    SettlementKeeps.SettleKeeps(Observe(o, root, items).value, a);
  }

  lemma StampedIntents(o: Obs, rr: RootRef, root: Root)
    ensures StampRoot(o, rr, root).db.intents == o.db.intents
  {
  }

  /* ---------- The store ---------- */

  const SUBTITLE := FileKey(3, "b.en.srt")
  const FILE := File("en", Flags(false, false), false, 0, 0, "")

  /** The returned source reports one video, then another. */
  const HALF := RETURNED.(
    roots := map[RR := ROOT], sightings := map[FIRST := Sighting(Some(MovieKey(1)), Film("1", 1, "/a"))],
    stamps := map[ItemRef(RR, "") := 2, FIRST := 2],
    items := RETURNED.items[MovieKey(1) := Record(FIRST, 2)],
    instances := RETURNED.instances[2 := Instance("/a", "", Some(SRC), 0, [MovieKey(1)])], lastInst := 2)

  const WATCHED := HALF.(
    sightings := HALF.sightings[SECOND := Sighting(Some(MovieKey(2)), Film("2", 2, "/b"))], stamps := HALF.stamps[SECOND := 2],
    items := HALF.items[MovieKey(2) := Record(SECOND, 3)],
    instances := HALF.instances[3 := Instance("/b", "", Some(SRC), 0, [MovieKey(2)])], lastInst := 3)

  const RETIMED := WATCHED.(passes := map[SRC := PassRow(3, None)], lastPass := 3)

  /** The second video then has a subtitle, and the source another open pass.
      The third key is still recorded, under an ownerless instance, for what is
      now the first video. */
  const STORE := RETIMED.(files := map[SUBTITLE := FILE.(generation := 1)], baselines := map[SUBTITLE := ""])

  const SECOND_LIFE: seq<Call> :=
    [Call.Report(SRC, 2, ROOT, [Film("1", 1, "/a"), Film("2", 2, "/b")]), OpenAPass(SRC, None), BeginWrite(SUBTITLE, Retiming(FILE, Some(""))),
     EndWrite(SUBTITLE, Retime, true)]

  lemma FirstAdded(o: Obs)
    requires o == Begins(RETURNED, [Film("1", 1, "/a"), Film("2", 2, "/b")]) && SceneAt(o, "/a") == ""
    ensures AddedInstance(o, FIRST, MovieKey(1), Film("1", 1, "/a")) == HALF
  {
    hide Scenes;
    var db := AddedInstance(o, FIRST, MovieKey(1), Film("1", 1, "/a"));
    assert db.instances == HALF.instances;
    assert db.items == HALF.items;
    assert db.sightings == HALF.sightings && db.stamps == HALF.stamps;
  }

  lemma SecondAdded(o: Obs)
    requires o.db == HALF && o.src == SRC && o.pass == 2 && SceneAt(o, "/b") == ""
    ensures AddedInstance(o, SECOND, MovieKey(2), Film("2", 2, "/b")) == WATCHED
  {
    var db := AddedInstance(o, SECOND, MovieKey(2), Film("2", 2, "/b"));
    assert db.instances == WATCHED.instances;
    assert db.items == WATCHED.items;
    assert db.sightings == WATCHED.sightings && db.stamps == WATCHED.stamps;
  }

  lemma HalfLacks()
    ensures SECOND !in HALF.sightings && MovieKey(2) !in HALF.items && HALF.overlaps == map[]
    ensures forall id | id in HALF.instances :: HALF.instances[id].path != "/b"
  {
  }

  /** The report's first item, and its second. */
  lemma WatchesFirst(o: Obs)
    requires o == Begins(RETURNED, [Film("1", 1, "/a"), Film("2", 2, "/b")])
    ensures var r := ObserveItem(o, FIRST, ROOT, Film("1", 1, "/a"));
            r.Success? && r.value.db == HALF && r.value.released == {} && r.value.emptied == map[] && r.value.src == SRC && r.value.pass == 2
            && r.value.scene == o.scene && SceneAt(o, "/b") == ""
  {
    hide ObserveItem, AddedInstance, Scenes;
    FilmKey("1", 1, "/a");
    PlainScenes([Film("1", 1, "/a"), Film("2", 2, "/b")], "/a");
    PlainScenes([Film("1", 1, "/a"), Film("2", 2, "/b")], "/b");
    AddsInstance(o, FIRST, ROOT, Film("1", 1, "/a"), MovieKey(1));
    FirstAdded(o);
  }

  lemma WatchesSecond(o: Obs)
    requires o.db == HALF && o.src == SRC && o.pass == 2 && SceneAt(o, "/b") == "" && o.released == {} && o.emptied == map[]
    ensures var r := ObserveItem(o, SECOND, ROOT, Film("2", 2, "/b"));
            r.Success? && r.value.db == WATCHED && r.value.released == {} && r.value.emptied == map[]
  {
    hide ObserveItem, AddedInstance;
    FilmKey("2", 2, "/b");
    HalfLacks();
    AddsInstance(o, SECOND, ROOT, Film("2", 2, "/b"), MovieKey(2));
    SecondAdded(o);
  }

  lemma Watches()
    ensures Step(State(RETURNED, Some(Active({SRC}))), SECOND_LIFE[0], 0) == State(WATCHED, Some(Active({SRC})))
  {
    hide Step, ObserveItem, ObserveAll, Begins, ValidReport;
    var a, b := Film("1", 1, "/a"), Film("2", 2, "/b");
    var o := Begins(RETURNED, [a, b]);
    WatchesFirst(o);
    var o1 := ObserveItem(o, FIRST, ROOT, a).value;
    WatchesSecond(o1);
    var o2 := ObserveItem(o1, SECOND, ROOT, b).value;
    Two(o, a, b);
    FilmsValid(1, 2);
    WatchedUnbroken();
    Reports(RETURNED, [a, b], o2);
  }

  lemma HalfUnbroken()
    ensures Unbroken(HALF) && WellFormed(HALF.instances, HALF.lastInst)
  {
  }

  lemma WatchedUnbroken()
    ensures Unbroken(WATCHED) && Unbroken(STORE)
  {
    var o := Begun(HALF, SRC, 2, 0);
    HalfUnbroken();
    AddedUnbroken(o, SECOND, MovieKey(2), Film("2", 2, "/b"));
    SecondAdded(o);
    UnbrokenOn(WATCHED, STORE);
  }

  lemma FilmsValid(x: nat, y: nat)
    ensures ValidReport(ROOT, [Film("1", x, "/a"), Film("2", y, "/b")])
  {
    TopLevel('a');
    TopLevel('b');
    assert "/a" == ['/', 'a'] && "/b" == ['/', 'b'];
  }

  const PENDING := RETIMED.(intents := map[SUBTITLE := Retiming(FILE, Some(""))])

  lemma RetimeBegins()
    ensures Begin(RETIMED, SUBTITLE, Retiming(FILE, Some(""))) == Success(PENDING)
  {
  }

  lemma RetimePuts()
    ensures PENDING.(intents := PENDING.intents - {SUBTITLE}) == RETIMED
    ensures PutRecord(RETIMED, SUBTITLE, FILE, Some("")) == STORE
  {
    assert PENDING.intents - {SUBTITLE} == map[] == RETIMED.intents;
    var db := PutRecord(RETIMED, SUBTITLE, FILE, Some(""));
    assert db.files == STORE.files && db.baselines == STORE.baselines;
  }

  lemma RetimeLands()
    ensures Land(PENDING.(intents := PENDING.intents - {SUBTITLE}), Active({SRC}), SUBTITLE, Retiming(FILE, Some("")), 0) == Commit(STORE, {})
  {
    hide AdoptedLocks, PutRecord;
    RetimePuts();
    NothingAdopted(STORE, 3, Evidence("en", Flags(false, false)));
    assert Locking(STORE.locks, {}, 0) == STORE.locks;
  }

  lemma RetimeEnds()
    ensures End(PENDING, Some(Active({SRC})), SUBTITLE, Retime, true, 0) == Success(Commit(STORE, {}))
  {
    hide Recompute, Land, Unbroken;
    RetimeLands();
    WatchedUnbroken();
    RecomputesNothing(STORE, {SRC}, ItemsOf(STORE, 3), true);
  }

  lemma NothingAdopted(db: Db, id: InstId, file: Evidence)
    ensures AdoptedLocks(db, Active({SRC}), id, file) == {}
  {
    hide Servable;
    forall k | k in db.items && db.items[k].ref in db.sightings
      ensures Configured(POLICY, db.sightings[db.items[k].ref]) == []
    {
      NothingWanted(db.sightings[db.items[k].ref]);
    }
  }

  const CALLS := FIRST_LIFE + SECOND_LIFE

  /** A run from a new store gets there. */
  lemma Reached()
    ensures Run(NEW, CALLS, CLOCK) == State(STORE, Some(Active({SRC})))
  {
    hide Step, Run;
    FirstLife();
    Watches();
    OpensAPass(State(WATCHED, Some(Active({SRC}))));
    assert WATCHED.passes[SRC := PassRow(3, None)] == RETIMED.passes;
    Writes();
    RunFour(FIRST_LIFE, SECOND_LIFE);
  }

  lemma Writes()
    ensures Step(State(RETIMED, Some(Active({SRC}))), SECOND_LIFE[2], 0) == State(PENDING, Some(Active({SRC})))
    ensures Step(State(PENDING, Some(Active({SRC}))), SECOND_LIFE[3], 0) == State(STORE, Some(Active({SRC})))
  {
    hide Begin, End;
    RetimeBegins();
    RetimeEnds();
  }

  lemma StoreInv()
    ensures Inv(STORE, Some(Active({SRC})))
  {
    hide Inv, Run;
    Reached();
    PlainInv(CALLS);
  }

  /* ---------- The report ---------- */

  /** The second video is reported under the third key, after the first. */
  const REPORT := Report.Report(SRC, ROOT, [Film("1", 1, "/a"), Film("2", 3, "/b")])

  lemma ReportDistinct()
    ensures REPORT.Distinct() && REPORT.Ref(0) == FIRST && REPORT.Ref(1) == SECOND
    ensures REPORT.KeyAt(0) == Some(MovieKey(1)) && REPORT.KeyAt(1) == Some(MovieKey(3))
  {
    FilmKey("1", 1, "/a");
    FilmKey("2", 3, "/b");
  }

  /** What of the store the report meets. */
  ghost predicate Meets(db: Db) {
    && HeldAt(db, MovieKey(3)) == Some(Record(FIRST, 1))
    && 1 in db.instances && db.instances[1].owner.None? && db.instances[1].path == "/c"
    && 3 in db.instances && db.instances[3].owner == Some(SRC) && db.instances[3].path == "/b"
    && FIRST in db.sightings && db.sightings[FIRST].key == Some(MovieKey(1))
    && SECOND in db.sightings && db.sightings[SECOND].item.path == "/b"
    && forall x | HeldAt(db, x).Some? && HeldAt(db, x).value.inst == 3 :: HeldAt(db, x).value.ref == SECOND
  }

  lemma StoreMeets()
    ensures Meets(STORE)
  {
  }

  lemma ReportFits(db: Db, now: Time)
    requires Meets(db)
    ensures Renumbers(Begun(db, SRC, 3, now), REPORT, 1, 3)
  {
    ReportDistinct();
    hide ItemKey;
  }

  /** The first video's sighting holds the third key, and comes first. */
  lemma ReportBlocked(db: Db, now: Time)
    requires Meets(db)
    ensures Blocked(Begun(db, SRC, 3, now), REPORT, 1)
  {
    ReportDistinct();
    hide ItemKey, Attaches;
    assert !Gives(db, FIRST, MovieKey(3));
    assert REPORT.Names(1, FIRST);
  }

  /** Nothing is left at the second video's instance: its only item attaches
      nothing, and its only key is given up. */
  lemma SecondEmptied(db: Db, now: Time)
    requires Meets(db)
    ensures !Survives(Begun(db, SRC, 3, now), REPORT, 3)
  {
    hide Blocked, ItemKey;
    ReportDistinct();
    ReportBlocked(db, now);
    assert "/a" != "/b";
    assert REPORT.Names(2, SECOND);
  }

  lemma StoreHas(now: Time)
    ensures STORE.intents == map[] && OpenPass(STORE, Some(Active({SRC})), SRC, 3).Success? && Opened(STORE, SRC, 3)
    ensures 3 in STORE.instances && STORE.instances[3].owner == Some(SRC) && SUBTITLE in STORE.files && SUBTITLE.inst == 3
    ensures REPORT.src == SRC && REPORT.root == ROOT && REPORT.items == [Film("1", 1, "/a"), Film("2", 3, "/b")]
    ensures var r := ObserveItems(STORE, Some(Active({SRC})), SRC, 3, now, REPORT.root, REPORT.items);
            r.Success? ==> Step(State(STORE, Some(Active({SRC}))), Call.Report(SRC, 3, REPORT.root, REPORT.items), now)
                           == State(r.value.db, Some(Active({SRC})))
  {
    hide ObserveItems;
  }

  /** After some calls on a new store, a report that keeps the second video at
      its path commits, and deletes its instance with its subtitle: the promise
      that a renumbering keeps every file fails here. */
  lemma RenumberingLoses(now: Time)
    ensures var s := Run(NEW, CALLS, CLOCK);
            && s == State(STORE, Some(Active({SRC}))) && Inv(s.db, s.active)
            && REPORT.Distinct() && Renumbers(Begun(s.db, SRC, 3, now), REPORT, 1, 3)
            && 3 in s.db.instances && SUBTITLE in s.db.files
            && var s1 := Step(s, Call.Report(SRC, 3, REPORT.root, REPORT.items), now);
               s1 != s && 3 !in s1.db.instances && SUBTITLE !in s1.db.files
  {
    hide *;
    Reached();
    StoreInv();
    ReportDistinct();
    StoreMeets();
    ReportFits(STORE, now);
    SecondEmptied(STORE, now);
    FilmsValid(1, 3);
    StoreHas(now);
    Unrefused(STORE, Active({SRC}), SRC, 3, now, REPORT.root, REPORT.items);
    ReportKeepsFiles(STORE, Active({SRC}), 3, now, REPORT, 3);
  }
}
