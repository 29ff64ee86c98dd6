/** A source removed from the configuration and reporting again: what became of
    an instance it owned, over any run of calls in between. */
module Returns {
  import opened Wrappers
  import opened Media
  import opened Languages
  import opened Tables
  import opened Claims
  import opened Settlement
  import opened Passes
  import opened Activations
  import opened AttachKeep
  import opened ClaimsKeep
  import opened ItemSteps
  import opened ObserveKeeps
  import opened SettlementKeeps
  import opened Intents
  import opened Inventory
  import opened IntentsKeep
  import opened Renumbering
  import opened Heirs
  import opened Removals
  import opened Retirement
  import opened Landings
  import opened Reclaims
  import opened Runs
  import Judging
  import Pins
  import Protocol

  /* ---------- An instance waiting for its source ---------- */

  /** id has no owner, the keys it lists are recorded there for sightings of
      src, and nothing src reported is stored. */
  ghost predicate Parked(db: Db, src: SourceId, id: InstId) {
    && id in db.instances && db.instances[id].owner.None?
    && (forall x | x in db.instances[id].items :: RestsAt(db, src, id, x))
    && (forall ref | ref in db.sightings :: ref.root.source != src)
    && (forall ref | ref in db.stamps :: ref.root.source != src)
  }

  predicate RestsAt(db: Db, src: SourceId, id: InstId, x: Key) {
    x in db.items && db.items[x].inst == id && db.items[x].ref.root.source == src && db.items[x].ref.item != ""
  }

  /** The instance, its keys' records and its files' rows are as they were. */
  ghost predicate Undisturbed(db: Db, db1: Db, id: InstId) {
    && id in db.instances && id in db1.instances && db1.instances[id] == db.instances[id].(items := db1.instances[id].items)
    && (forall x :: x in db1.instances[id].items <==> x in db.instances[id].items)
    && (forall x | x in db.instances[id].items :: RecordOf(db1.items, x) == RecordOf(db.items, x))
    && RowsSame(db, db1, id)
  }

  lemma UndisturbedTwice(db: Db, db1: Db, db2: Db, id: InstId)
    requires Undisturbed(db, db1, id) && Undisturbed(db1, db2, id)
    ensures Undisturbed(db, db2, id)
  {
  }

  lemma ParkedOn(db: Db, db1: Db, src: SourceId, id: InstId)
    requires Parked(db, src, id) && Undisturbed(db, db1, id)
    requires forall ref | ref in db1.sightings :: ref.root.source != src
    requires forall ref | ref in db1.stamps :: ref.root.source != src
    ensures Parked(db1, src, id)
  {
    forall x | x in db1.instances[id].items
      ensures RestsAt(db1, src, id, x)
    {
      assert RestsAt(db, src, id, x);
      assert RecordOf(db1.items, x) == RecordOf(db.items, x);
    }
  }

  /** A call that touches neither instances, records, files nor sightings. */
  lemma ParkedSame(db: Db, db1: Db, src: SourceId, id: InstId)
    requires Parked(db, src, id)
    requires db1.instances == db.instances && db1.items == db.items && db1.files == db.files && db1.baselines == db.baselines
    requires db1.sightings == db.sightings && db1.stamps == db.stamps
    ensures Undisturbed(db, db1, id) && Parked(db1, src, id)
  {
  }

  /* ---------- A report of another source ---------- */

  /** The item has no video, or is elsewhere under a key not of id's list. */
  predicate Avoids(db: Db, id: InstId, root: Root, it: Item) {
    id in db.instances && it.path != "" ==>
      it.path != db.instances[id].path && (ItemKey(root, it).Some? ==> ItemKey(root, it).value !in db.instances[id].items)
  }

  lemma ItemAvoids(on: Obs, a: Activation, ref: ItemRef, root: Root, it: Item, src: SourceId, id: InstId)
    requires Weak(on, a) && Ready(on, ref) && ObserveItem(on, ref, root, it).Success?
    requires Parked(on.db, src, id) && on.src != src && Avoids(on.db, id, root, it)
    ensures var on1 := ObserveItem(on, ref, root, it).value; Undisturbed(on.db, on1.db, id) && Parked(on1.db, src, id)
  {
    hide Weak, Links, ObserveItem, Attaching, Stand, Moved, Left, Joins;
    var on1 := ObserveItem(on, ref, root, it).value;
    var key := ItemKey(root, it);
    var over := Attaching(on, ref, key, it.path);
    ItemStep(on, a, ref, root, it, id);
    ItemStands(on, a, ref, root, it);
    ObserveItemKeeps(on, a, ref, root, it);
    WeakLinks(on1, a);
    AttachingPath(on, ref, key, it.path);
    forall x | x in on.db.instances[id].items
      ensures RecordOf(on1.db.items, x) == RecordOf(on.db.items, x) && x in on1.db.instances[id].items
    {
      ListedStays(on, a, ref, root, it, src, id, x);
      LinkedKey(on1.db.items, on1.db.instances, x);
    }
    ParkedOn(on.db, on1.db, src, id);
  }

  lemma AttachingPath(o: Obs, ref: ItemRef, key: Option<Key>, p: string)
    ensures Attaching(o, ref, key, p) ==> p != "" && key.Some?
  {
    hide Foreign, Taken;
  }

  /** A key the instance lists keeps its record. */
  lemma ListedStays(on: Obs, a: Activation, ref: ItemRef, root: Root, it: Item, src: SourceId, id: InstId, x: Key)
    requires Weak(on, a) && Ready(on, ref) && ObserveItem(on, ref, root, it).Success?
    requires Parked(on.db, src, id) && on.src != src && Avoids(on.db, id, root, it) && x in on.db.instances[id].items
    ensures RecordOf(ObserveItem(on, ref, root, it).value.db.items, x) == RecordOf(on.db.items, x)
  {
    hide Weak, Links, ObserveItem, Attaching;
    var key := ItemKey(root, it);
    assert RestsAt(on.db, src, id, x);
    ZeroGone(on, a);
    AttachingPath(on, ref, key, it.path);
    if key == Some(x) {
      ItemLeaves(on, a, ref, root, it, x);
    } else {
      ItemMoves(on, a, ref, root, it, x);
    }
  }

  lemma ZeroGone(o: Obs, a: Activation)
    requires Weak(o, a)
    ensures 0 !in o.db.instances
  {
    hide Linked, Owning, Named, Kept, Rows, Stamped, Current;
  }

  lemma {:induction false} AllAvoid(o: Obs, a: Activation, rr: RootRef, root: Root, items: seq<Item>, src: SourceId, id: InstId)
    requires Weak(o, a) && rr.source == o.src && rr in o.db.roots && ItemRef(rr, "") in o.db.stamps && o.db.stamps[ItemRef(rr, "")] == o.pass
    requires Identified(items) && ObserveAll(o, rr, root, items).Success?
    requires Parked(o.db, src, id) && o.src != src && forall i | 0 <= i < |items| :: Avoids(o.db, id, root, items[i])
    ensures var on := ObserveAll(o, rr, root, items).value; Undisturbed(o.db, on.db, id) && Parked(on.db, src, id)
  {
    hide Weak, ObserveItem, Undisturbed, Parked, Avoids;
    if items == [] {
      ParkedIs(o.db, src, id);
      ParkedSame(o.db, o.db, src, id);
    } else {
      var init, last := items[..|items| - 1], items[|items| - 1];
      assert Avoids(o.db, id, root, last);
      AllAvoid(o, a, rr, root, init, src, id);
      ObserveAllKeeps(o, a, rr, root, init);
      var on := ObserveAll(o, rr, root, init).value;
      AvoidsOn(o.db, on.db, id, root, last);
      ItemAvoids(on, a, ItemRef(rr, last.native), root, last, src, id);
      UndisturbedTwice(o.db, on.db, ObserveItem(on, ItemRef(rr, last.native), root, last).value.db, id);
    }
  }

  lemma ParkedIs(db: Db, src: SourceId, id: InstId)
    requires Parked(db, src, id)
    ensures id in db.instances && db.instances[id].owner.None?
  {
  }

  lemma AvoidsOn(db: Db, db1: Db, id: InstId, root: Root, it: Item)
    requires Undisturbed(db, db1, id) && Avoids(db, id, root, it)
    ensures Avoids(db1, id, root, it)
  {
  }

  /** Settling leaves a listed instance as it is. */
  lemma SettleParked(o: Obs, a: Activation, src: SourceId, id: InstId)
    requires Weak(o, a) && Parked(o.db, src, id) && o.db.instances[id].items != []
    ensures Settle(o, a).Success? && Undisturbed(o.db, Settle(o, a).value.db, id) && Parked(Settle(o, a).value.db, src, id)
  {
    hide Weak, Settle, RowsSame;
    SettleKeeps(o, a);
    SettleRows(o, a, id);
    ZeroGone(o, a);
    DropKeeps(o, id);
    forall x | x in o.db.instances[id].items
      ensures RecordOf(Settle(o, a).value.db.items, x) == RecordOf(o.db.items, x)
    {
      assert RestsAt(o.db, src, id, x);
      SettledRecord(o, a, x);
    }
    ParkedOn(o.db, Settle(o, a).value.db, src, id);
  }

  lemma DropKeeps(o: Obs, id: InstId)
    requires id in o.db.instances && o.db.instances[id].items != []
    ensures id in DropEmptied(o).db.instances && DropEmptied(o).db.instances[id] == o.db.instances[id]
  {
    hide EmptiedRoots, RowsWithout;
  }

  lemma SameLength(db: Db, db1: Db, id: InstId)
    requires Undisturbed(db, db1, id) && db.instances[id].items != []
    ensures db1.instances[id].items != []
  {
    assert db.instances[id].items[0] in db1.instances[id].items;
  }

  /** A whole report of another source that avoids the instance. */
  lemma ReportAvoids(db: Db, a: Activation, other: SourceId, pass: PassId, now: Time, root: Root, items: seq<Item>, src: SourceId, id: InstId)
    requires Inv(db, Some(a)) && ObserveItems(db, Some(a), other, pass, now, root, items).Success?
    requires Parked(db, src, id) && other != src && forall i | 0 <= i < |items| :: Avoids(db, id, root, items[i])
    ensures var after := ObserveItems(db, Some(a), other, pass, now, root, items).value.db;
            Undisturbed(db, after, id) && Parked(after, src, id)
  {
    hide Inv, Weak, Settle, ObserveAll, Parked, Undisturbed, Avoids, StampRoot;
    var o := Begun(db, other, pass, now);
    var rr := RootRef(other, root.native);
    var o1 := StampRoot(o, rr, root).(scene := Scenes(items));
    BeginWeak(db, a, other, pass, now);
    StampRootKeeps(o, a, root, Scenes(items));
    StampRootSame(o, rr, root);
    StampParked(o, rr, root, Scenes(items), src, id);
    forall i | 0 <= i < |items|
      ensures Avoids(o1.db, id, root, items[i])
    {
      AvoidsOn(db, o1.db, id, root, items[i]);
    }
    AllAvoid(o1, a, rr, root, items, src, id);
    var on := ObserveAll(o1, rr, root, items).value;
    ReportKeeps(db, a, other, pass, now, root, items);
    HasKey(db, a, id) by { ParkedIs(db, src, id); }
    UndisturbedTwice(db, o1.db, on.db, id);
    ParkedIs(db, src, id);
    SameLength(db, on.db, id);
    SettleParked(on, a, src, id);
    UndisturbedTwice(db, on.db, Settle(on, a).value.db, id);
  }

  lemma StampParked(o: Obs, rr: RootRef, root: Root, scene: map<string, string>, src: SourceId, id: InstId)
    requires Parked(o.db, src, id) && rr.source != src
    ensures var o1 := StampRoot(o, rr, root).(scene := scene); Undisturbed(o.db, o1.db, id) && Parked(o1.db, src, id)
  {
  }

  /* ---------- Each other call ---------- */

  /** A pass closed within the thirty days. */
  lemma PassParked(db: Db, a: Activation, other: SourceId, pass: PassId, complete: bool, keep: Option<seq<NativeRef>>, now: Time, src: SourceId, id: InstId)
    requires Inv(db, Some(a)) && FinishPass(db, Some(a), other, pass, complete, keep, now).Success?
    requires Parked(db, src, id) && !Late(db, now, id)
    ensures var after := FinishPass(db, Some(a), other, pass, complete, keep, now).value.db;
            Undisturbed(db, after, id) && Parked(after, src, id)
  {
    hide Inv, CompletePass, UnseenRefs, FilesLeft;
    var after := FinishPass(db, Some(a), other, pass, complete, keep, now).value.db;
    if !complete {
      ParkedSame(db, after, src, id);
    } else {
      PassLeaves(db, a, other, pass, keep, now);
      PassSighted(db, a);
      HasKey(db, a, id);
      PassLeftParked(db, after, other, UnseenRefs(db, other, db.passes[other], KeptRoots(keep)), now, src, id);
    }
  }

  lemma PassLeftParked(db: Db, after: Db, other: SourceId, refs: set<ItemRef>, now: Time, src: SourceId, id: InstId)
    requires PassLeft(db, after, other, refs, now) && 0 !in db.instances
    requires Parked(db, src, id) && !Late(db, now, id) && db.instances[id].items != []
    ensures Undisturbed(db, after, id) && Parked(after, src, id)
  {
    hide FilesLeft, Inherits;
    forall x | x in db.instances[id].items
      ensures !Rests(db, refs, x)
    {
      assert RestsAt(db, src, id, x);
    }
    assert db.instances[id].items[0] in db.instances[id].items;
    assert InstanceLeft(db, after, refs, now, id);
    forall x | x in db.instances[id].items
      ensures RecordOf(after.items, x) == RecordOf(db.items, x)
    {
      assert RestsAt(db, src, id, x);
      assert KeyLeft(db, after, refs, now, x);
    }
    FilesLeftRows(db, after, id);
    ParkedOn(db, after, src, id);
  }

  lemma FilesLeftRows(db: Db, after: Db, id: InstId)
    requires FilesLeft(db.files, after.files, after.instances) && FilesLeft(db.baselines, after.baselines, after.instances) && id in after.instances
    ensures RowsSame(db, after, id)
  {
  }

  /** An activation, whatever sources it names. */
  lemma ActivateParked(db: Db, active: Option<Activation>, next: Activation, now: Time, src: SourceId, id: InstId)
    requires Activate(db, active, next, now).Success? && Parked(db, src, id) && 0 !in db.instances
    ensures var after := Activate(db, active, next, now).value; Undisturbed(db, after, id) && Parked(after, src, id)
  {
    hide Activate, Inherits;
    ActivateRemoves(db, active, next, now);
    var after := Activate(db, active, next, now).value;
    forall x | x in db.instances[id].items
      ensures RecordOf(after.items, x) == RecordOf(db.items, x)
    {
      assert RestsAt(db, src, id, x);
    }
    ParkedOn(db, after, src, id);
  }

  /** An End for another instance. */
  lemma EndParked(db: Db, active: Option<Activation>, fk: FileKey, op: Op, landed: bool, now: Time, src: SourceId, id: InstId)
    requires Inv(db, active) && End(db, active, fk, op, landed, now).Success? && Parked(db, src, id) && fk.inst != id
    ensures var after := End(db, active, fk, op, landed, now).value.db; Undisturbed(db, after, id) && Parked(after, src, id)
  {
    hide Inv, End, ListingLanded, RootsAt;
    var after := End(db, active, fk, op, landed, now).value.db;
    EndKeeps(db, active, fk, op, landed, now);
    if !landed || fk !in db.intents {
      EndNothing(db, active, fk, op, landed, now);
      ParkedSame(db, after, src, id);
    } else {
      forall fx: FileKey | fx.inst == id
        ensures SameRow(db.files, after.files, fx) && SameRow(db.baselines, after.baselines, fx)
      {
        LandedFiles(db, active.value, fk, now, fx);
      }
      LandedFiles(db, active.value, fk, now, fk);
      ParkedOn(db, after, src, id);
    }
  }

  lemma EndNothing(db: Db, active: Option<Activation>, fk: FileKey, op: Op, landed: bool, now: Time)
    requires End(db, active, fk, op, landed, now).Success? && (!landed || fk !in db.intents)
    ensures var after := End(db, active, fk, op, landed, now).value.db; after == db.(intents := after.intents, downloads := after.downloads)
  {
    hide Unlanded, Landed;
    if fk in db.intents {
      Protocol.UnlandedMovesNothing(db, active, fk, op, now);
    }
  }

  /** What the inventory, the user's locks and the log write is elsewhere. */
  lemma InventoryParked(db: Db, db1: Db, src: SourceId, id: InstId)
    requires Parked(db, src, id)
    requires db1 == db.(embedded := db1.embedded, local := db1.local, coverage := db1.coverage, locks := db1.locks, downloads := db1.downloads,
                        intents := db1.intents, lastPass := db1.lastPass, passes := db1.passes)
    ensures Undisturbed(db, db1, id) && Parked(db1, src, id)
  {
    ParkedSame(db, db1, src, id);
  }

  /* ---------- Any run ---------- */

  /** A call that is not about the instance: no report of src, nor of an item
      with a video at its path or under a key it lists; and no End of a write
      on it. */
  ghost predicate Clear(db: Db, id: InstId, src: SourceId, c: Call) {
    match c
    case Report(other, _, root, items) => other != src && forall i | 0 <= i < |items| :: Avoids(db, id, root, items[i])
    case EndWrite(fk, _, _) => fk.inst != id
    case _ => true
  }

  lemma InventoryStep(s: State, c: Call, now: Time, src: SourceId, id: InstId)
    requires Parked(s.db, src, id) && Effect(s, c, now).Success?
    requires c.Probe? || c.ListFiles? || c.Lock? || c.LogAttempts? || c.BeginWrite? || c.OpenAPass? || c.Reopen?
    ensures Undisturbed(s.db, Effect(s, c, now).value, id) && Parked(Effect(s, c, now).value, src, id)
  {
    hide Judging.Recompute, Parked, Undisturbed, ByName, Judging.NewCoverage;
    var after := Effect(s, c, now).value;
    if c.Probe? {
      Pins.RecomputeFrame(s.db.(embedded := s.db.embedded[c.id := c.tracks]), s.active.value, ItemsOf(s.db, c.id), false);
    } else if c.ListFiles? {
      Pins.RecomputeFrame(s.db.(local := s.db.local[c.id := ByName(c.files)]), s.active.value, ItemsOf(s.db, c.id), true);
    }
    InventoryParked(s.db, after, src, id);
  }

  /** Within the thirty days no call that is clear of the instance disturbs it. */
  lemma StepParked(s: State, c: Call, now: Time, src: SourceId, id: InstId)
    requires Inv(s.db, s.active) && Parked(s.db, src, id) && !Late(s.db, now, id) && Clear(s.db, id, src, c)
    ensures Undisturbed(s.db, Step(s, c, now).db, id) && Parked(Step(s, c, now).db, src, id)
  {
    hide Inv, ObserveItems, FinishPass, Activate, Begin, End, PutEmbedded, PutExternal, SetLock, RecordAttempts, BeginPass, Parked, Undisturbed, Avoids;
    ParkedIs(s.db, src, id);
    if Effect(s, c, now).Failure? {
      ParkedSame(s.db, s.db, src, id);
    } else {
      match c
      case Report(other, pass, root, items) =>
        ActiveReport(s, other, pass, now, root, items);
        ReportAvoids(s.db, s.active.value, other, pass, now, root, items, src, id);
      case CloseAPass(other, pass, complete, keep) =>
        ActivePass(s, other, pass, complete, keep, now);
        PassParked(s.db, s.active.value, other, pass, complete, keep, now, src, id);
      case Configure(policy, sources, codecs) =>
        SoundZero(s.db, s.active);
        ActivateParked(s.db, s.active, Normalize(policy, sources, codecs).value, now, src, id);
      case EndWrite(fk, op, landed) => EndParked(s.db, s.active, fk, op, landed, now, src, id);
      case _ => InventoryStep(s, c, now, src, id);
    }
  }

  lemma ActiveReport(s: State, other: SourceId, pass: PassId, now: Time, root: Root, items: seq<Item>)
    requires ObserveItems(s.db, s.active, other, pass, now, root, items).Success?
    ensures s.active.Some?
  {
    hide Observe;
  }

  lemma ActivePass(s: State, other: SourceId, pass: PassId, complete: bool, keep: Option<seq<NativeRef>>, now: Time)
    requires FinishPass(s.db, s.active, other, pass, complete, keep, now).Success?
    ensures s.active.Some?
  {
    hide CompletePass;
  }

  lemma SoundZero(db: Db, active: Option<Activation>)
    requires Inv(db, active)
    ensures 0 !in db.instances
  {
    hide Linked, Owning, Named, Kept, Stamped, Sourced, Overlapping, Held, Staging, NonEmpty, NoStray, Current;
  }

  lemma {:induction false} RunParked(s: State, cs: seq<Call>, clock: nat -> Time, books: nat -> (nat -> Policy), src: SourceId, id: InstId)
    requires Good(s, books(0)) && Booked(books, cs) && Parked(s.db, src, id)
    requires forall i: nat | i < |cs| :: Clear(s.db, id, src, cs[i]) && !Late(s.db, clock(i), id)
    ensures Undisturbed(s.db, Run(s, cs, clock).db, id) && Parked(Run(s, cs, clock).db, src, id)
  {
    hide Good, Step, Parked, Undisturbed, Clear, Late, Booked;
    if cs == [] {
      ParkedIs(s.db, src, id);
      ParkedSame(s.db, s.db, src, id);
    } else {
      var n := |cs| - 1;
      assert forall i: nat | i < n :: cs[..n][i] == cs[i];
      BookedInit(books, cs, n);
      RunParked(s, cs[..n], clock, books, src, id);
      RunKeeps(s, cs[..n], clock, books);
      var mid := Run(s, cs[..n], clock);
      GoodInv(mid, books(Opens(cs[..n])));
      ParkedIs(s.db, src, id);
      ClearOn(s.db, mid.db, id, src, cs[n]);
      LateOn(s.db, mid.db, clock(n), id);
      StepParked(mid, cs[n], clock(n), src, id);
      UndisturbedTwice(s.db, mid.db, Step(mid, cs[n], clock(n)).db, id);
    }
  }

  lemma GoodInv(s: State, book: nat -> Policy)
    requires Good(s, book)
    ensures Inv(s.db, s.active)
  {
    hide Inv;
  }

  lemma ClearOn(db: Db, db1: Db, id: InstId, src: SourceId, c: Call)
    requires Undisturbed(db, db1, id) && Clear(db, id, src, c)
    ensures Clear(db1, id, src, c)
  {
    hide Undisturbed, Avoids;
    if c.Report? {
      forall i | 0 <= i < |c.items|
        ensures Avoids(db1, id, c.root, c.items[i])
      {
        AvoidsOn(db, db1, id, c.root, c.items[i]);
      }
    }
  }

  lemma LateOn(db: Db, db1: Db, now: Time, id: InstId)
    requires Undisturbed(db, db1, id)
    ensures Late(db1, now, id) <==> Late(db, now, id)
  {
  }

  /* ---------- Removed and back ---------- */

  /** Removing its source parks an instance, as it was but for its owner, from
      the time of the call. */
  lemma RemovalParks(db: Db, active: Option<Activation>, next: Activation, now: Time, src: SourceId, id: InstId)
    requires Inv(db, active) && Activate(db, active, next, now).Success? && src !in next.sources
    requires id in db.instances && db.instances[id].owner == Some(src)
    ensures var after := Activate(db, active, next, now).value;
            && Parked(after, src, id) && after.instances[id] == db.instances[id].(owner := None, orphaned := now) && RowsSame(db, after, id)
            && forall x | x in db.instances[id].items :: x in after.items && x in db.items && after.items[x] == db.items[x]
  {
    hide Activate, Linked, WellFormed, Kept, Overlapping, Held, Staging, NonEmpty, NoStray, Current, Inherits;
    ActivateRemoves(db, active, next, now);
    var after := Activate(db, active, next, now).value;
    SoundZero(db, active);
    assert src in db.stored.sources - next.sources;
    forall x | x in db.instances[id].items
      ensures RestsAt(after, src, id, x) && x in db.items && after.items[x] == db.items[x]
    {
      assert RecordOf(after.items, x) == RecordOf(db.items, x);
      OwnedListed(db, active, id, x);
    }
  }

  lemma OwnedListed(db: Db, active: Option<Activation>, id: InstId, x: Key)
    requires Inv(db, active) && id in db.instances && db.instances[id].owner.Some? && x in db.instances[id].items
    ensures x in db.items && db.items[x].inst == id && Some(db.items[x].ref.root.source) == db.instances[id].owner && db.items[x].ref.item != ""
  {
    hide Linked, WellFormed, Kept, Overlapping, Held, Staging, NonEmpty, NoStray, Current, Sourced;
    assert Live(db.instances, db.items[x]);
  }

  /** An item at a parked instance's path, under a key it lists, attaches there,
      unless an earlier item is of the sighting that key's record names. */
  lemma ParkedAttaches(db: Db, a: Activation, pass: PassId, now: Time, p: Renumbering.Report, i: nat, id: InstId)
    requires Inv(db, Some(a)) && Opened(db, p.src, pass) && Parked(db, p.src, id)
    requires i < |p.items| && p.items[i].path == db.instances[id].path && p.KeyAt(i).Some? && p.KeyAt(i).value in db.instances[id].items
    requires forall j: nat | j < i :: p.Ref(j) != db.items[p.KeyAt(i).value].ref
    ensures Attaches(Begun(db, p.src, pass, now), p, i)
  {
    hide Linked, Owning, Named, Kept, Stamped, Sourced, Overlapping, Held, Staging, NonEmpty, NoStray, Current, Waiting;
    var o, k := Begun(db, p.src, pass, now), p.KeyAt(i).value;
    assert RestsAt(db, p.src, id, k);
    WaitingHeld(o, p, i, k);
  }

  lemma WaitingHeld(o: Obs, p: Renumbering.Report, n: nat, x: Key)
    requires n <= |p.items|
    ensures Waiting(o, p, n, x).Some? ==> Waiting(o, p, n, x) == HeldAt(o.db, x)
  {
    hide TakenOver, GaveUp;
  }

  /** What a returning source finds of an instance it had. */
  ghost predicate Returned(db: Db, after: Db, src: SourceId, ref: ItemRef, k: Key, id: InstId, last: InstId, late: bool)
    requires id in db.instances
  {
    && Joins(after, src, ref, k, db.instances[id].path)
    && if late then after.items[k].inst > last && id !in after.instances && NoRows(after, id)
       else after.items[k].inst == id && k in after.instances[id].items && RowsSame(db, after, id)
  }

  /** The store once a source is removed and calls clear of its instance have
      followed. */
  lemma RemovedWaits(s: State, removal: Call, t0: Time, cs: seq<Call>, clock: nat -> Time, books: nat -> (nat -> Policy), src: SourceId, id: InstId, k: Key)
    requires Good(s, books(0)) && removal.Configure? && ByBook(books(0), removal) && Effect(s, removal, t0).Success? && src !in removal.sources
    requires id in s.db.instances && s.db.instances[id].owner == Some(src) && k in s.db.instances[id].items
    requires Booked(books, cs) && forall j: nat | j < |cs| :: Clear(s.db, id, src, cs[j]) && clock(j) - t0 <= ORPHAN_LIFE
    ensures var s2 := Run(Step(s, removal, t0), cs, clock);
            && Inv(s2.db, s2.active) && Parked(s2.db, src, id) && RowsSame(s.db, s2.db, id)
            && s2.db.instances[id].path == s.db.instances[id].path && s2.db.instances[id].orphaned == t0
            && k in s2.db.instances[id].items && k in s.db.items && k in s2.db.items && s2.db.items[k] == s.db.items[k]
  {
    hide Inv, Activate, Parked, Undisturbed, Clear, Run, RowsSame, Booked;
    var next := Normalize(removal.policy, removal.sources, removal.codecs).value;
    var s1 := Step(s, removal, t0);
    GoodInv(s, books(0));
    RemovalParks(s.db, s.active, next, t0, src, id);
    StepKeeps(s, removal, t0, books(0));
    ParkedIs(s1.db, src, id);
    forall j: nat | j < |cs|
      ensures Clear(s1.db, id, src, cs[j]) && !Late(s1.db, clock(j), id)
    {
      ClearSame(s.db, s1.db, id, src, cs[j]);
    }
    RunParked(s1, cs, clock, books, src, id);
    RunKeeps(s1, cs, clock, books);
    var s2 := Run(s1, cs, clock);
    GoodInv(s2, books(Opens(cs)));
    ParkedIs(s2.db, src, id);
    UndisturbedRow(s1.db, s2.db, id, k);
    RowsTwice(s.db, s1.db, s2.db, id);
  }

  /** A source is removed; any calls follow that are clear of an instance it
      owned; and it reports the instance's path again under one of its keys. No
      more than thirty days after the removal, the key is back in the same
      instance, whose owner is the source again, with every file's row as it
      was; past that, the instance and its files are gone and the key is in a
      new one. */
  lemma RemovedReturns(s: State, removal: Call, t0: Time, cs: seq<Call>, clock: nat -> Time, books: nat -> (nat -> Policy),
                       pass: PassId, now: Time, p: Renumbering.Report, i: nat, id: InstId)
    requires Good(s, books(0)) && removal.Configure? && ByBook(books(0), removal) && Effect(s, removal, t0).Success? && p.src !in removal.sources
    requires id in s.db.instances && s.db.instances[id].owner == Some(p.src)
    requires Booked(books, cs) && forall j: nat | j < |cs| :: Clear(s.db, id, p.src, cs[j]) && clock(j) - t0 <= ORPHAN_LIFE
    requires p.Distinct() && i < |p.items| && p.items[i].path == s.db.instances[id].path
    requires p.KeyAt(i).Some? && p.KeyAt(i).value in s.db.instances[id].items && p.KeyAt(i).value in s.db.items
    requires forall j: nat | j < i :: p.Ref(j) != s.db.items[p.KeyAt(i).value].ref
    requires var s2 := Run(Step(s, removal, t0), cs, clock);
             ObserveItems(s2.db, s2.active, p.src, pass, now, p.root, p.items).Success?
    ensures var s2 := Run(Step(s, removal, t0), cs, clock);
            Returned(s.db, ObserveItems(s2.db, s2.active, p.src, pass, now, p.root, p.items).value.db,
                     p.src, p.Ref(i), p.KeyAt(i).value, id, s2.db.lastInst, now - t0 > ORPHAN_LIFE)
  {
    hide Good, Inv, Step, Effect, ObserveItems, Parked, Clear, Run, RowsSame, NoRows, Attaches, Booked, Reclaimed, Returned;
    RemovedWaits(s, removal, t0, cs, clock, books, p.src, id, p.KeyAt(i).value);
    var s2 := Run(Step(s, removal, t0), cs, clock);
    ParkedIs(s2.db, p.src, id);
    ActiveReport(s2, p.src, pass, now, p.root, p.items);
    ReportOpened(s2.db, s2.active.value, p.src, pass, now, p.root, p.items);
    ParkedAttaches(s2.db, s2.active.value, pass, now, p, i, id);
    ReportReclaims(s2.db, s2.active.value, pass, now, p, i, id);
    ReturnedFrom(s.db, s2.db, ObserveItems(s2.db, s2.active, p.src, pass, now, p.root, p.items).value.db, now, t0, p, i, id);
  }

  lemma ReportOpened(db: Db, a: Activation, src: SourceId, pass: PassId, now: Time, root: Root, items: seq<Item>)
    requires ObserveItems(db, Some(a), src, pass, now, root, items).Success?
    ensures Opened(db, src, pass)
  {
    hide Observe;
  }

  lemma ClearSame(db: Db, db1: Db, id: InstId, src: SourceId, c: Call)
    requires id in db.instances && id in db1.instances && db1.instances[id].path == db.instances[id].path && db1.instances[id].items == db.instances[id].items
    requires Clear(db, id, src, c)
    ensures Clear(db1, id, src, c)
  {
    if c.Report? {
      forall i | 0 <= i < |c.items|
        ensures Avoids(db1, id, c.root, c.items[i])
      {
        assert Avoids(db, id, c.root, c.items[i]);
      }
    }
  }

  lemma UndisturbedRow(db: Db, db1: Db, id: InstId, k: Key)
    requires Undisturbed(db, db1, id) && k in db.instances[id].items && k in db.items
    ensures db1.instances[id].path == db.instances[id].path && db1.instances[id].orphaned == db.instances[id].orphaned
    ensures k in db1.instances[id].items && k in db1.items && db1.items[k] == db.items[k] && RowsSame(db, db1, id)
  {
    assert RecordOf(db1.items, k) == RecordOf(db.items, k);
  }

  lemma ReturnedFrom(db: Db, db2: Db, after: Db, now: Time, t0: Time, p: Renumbering.Report, i: nat, id: InstId)
    requires id in db.instances && id in db2.instances && i < |p.items| && p.KeyAt(i).Some?
    requires db2.instances[id].path == db.instances[id].path && db2.instances[id].orphaned == t0
    requires RowsSame(db, db2, id) && Reclaimed(db2, after, now, p, i, id)
    ensures Returned(db, after, p.src, p.Ref(i), p.KeyAt(i).value, id, db2.lastInst, now - t0 > ORPHAN_LIFE)
  {
    if now - t0 <= ORPHAN_LIFE {
      RowsTwice(db, db2, after, id);
    }
  }
}
