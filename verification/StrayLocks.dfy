/** Locks on keys that have no record: the one call that can set any, and
    exactly when it does. */
module StrayLocks {
  import opened Wrappers
  import opened Media
  import opened Languages
  import opened Tables
  import opened Claims
  import opened Judging
  import opened Settlement
  import opened Passes
  import opened Activations
  import opened Intents
  import opened Inventory
  import opened IntentsKeep
  import opened Runs
  import KeysKeep

  predicate Stray(db: Db, lk: LockKey) {
    lk in db.locks && lk.key !in db.items
  }

  /** Whatever lock is stray was already. */
  ghost predicate NoneNew(db: Db, db1: Db) {
    forall lk | Stray(db1, lk) :: Stray(db, lk)
  }

  lemma NoneNewTransitive(db: Db, db1: Db, db2: Db)
    requires NoneNew(db, db1) && NoneNew(db1, db2)
    ensures NoneNew(db, db2)
  {
  }

  /* ---------- Observing keeps records and locks ---------- */

  predicate Grows(db: Db, db1: Db) {
    db.items.Keys <= db1.items.Keys && db1.locks == db.locks
  }

  lemma GrowsNone(db: Db, db1: Db)
    requires Grows(db, db1)
    ensures NoneNew(db, db1)
  {
  }

  lemma DetachGrows(o: Obs, id: InstId, k: Key)
    requires Detach(o, id, k).Success?
    ensures Grows(o.db, Detach(o, id, k).value.db)
  {
    hide Without, Pinned;
  }

  lemma ReleaseGrows(o: Obs, ref: ItemRef, was: Sighting)
    requires Release(o, ref, was).Success?
    ensures Grows(o.db, Release(o, ref, was).value.db)
  {
    hide Detach;
    var o1 := o.(db := o.db.(overlaps := o.db.overlaps - {ref}));
    if was.key.Some? && was.key.value in o.db.items && o.db.items[was.key.value].ref == ref && o.db.items[was.key.value].inst != 0 {
      DetachGrows(o1, o.db.items[was.key.value].inst, was.key.value);
    }
  }

  lemma UnlinkGrows(o: Obs, ks: seq<Key>, id: InstId)
    ensures Grows(o.db, UnlinkAll(o, ks, id).db)
  {
  }

  lemma ExpireGrows(o: Obs, id: InstId)
    ensures Grows(o.db, Expire(o, id).db)
  {
    hide UnlinkAll;
    if id in o.db.instances {
      var ks := o.db.instances[id].items;
      UnlinkGrows(o.(db := DropInstance(o.db, id), written := o.written + RootsOf(ks)), ks, id);
    }
  }

  lemma JoinGrows(o: Obs, at: Option<InstId>, k: Key, p: string)
    requires at.Some? ==> at.value in o.db.instances
    requires Join(o, at, k, p).Success?
    ensures Grows(o.db, Join(o, at, k, p).value.0.db)
  {
    hide Expire, UnlinkAll, Pinned;
    if at.Some? {
      ExpireGrows(o, at.value);
      UnlinkGrows(o, o.db.instances[at.value].items, at.value);
    }
  }

  lemma AttachGrows(o: Obs, ref: ItemRef, k: Key, p: string, at: Option<InstId>)
    requires at.Some? ==> at.value in o.db.instances
    requires AttachKey(o, ref, k, p, at).Success?
    ensures Grows(o.db, AttachKey(o, ref, k, p, at).value.db)
  {
    hide Join, Detach;
    JoinGrows(o, at, k, p);
    var j := Join(o, at, k, p).value;
    var rec := RecordOf(o.db.items, k);
    if IsHeld(rec) && rec.value.inst != j.1 {
      DetachGrows(j.0, rec.value.inst, k);
    }
  }

  lemma ClaimGrows(o: Obs, ref: ItemRef, k: Key, p: string)
    requires Claim(o, ref, k, p).Success?
    ensures Grows(o.db, Claim(o, ref, k, p).value.0.db)
  {
    hide AttachKey, AttachOrOverlap, InstanceAt;
    if p != "" {
      AttachedOrNoted(o, ref, k, p);
      var r := AttachOrOverlap(o, ref, k, p).value.0;
      if r != o.(db := o.db.(overlaps := r.db.overlaps)) {
        AttachGrows(o, ref, k, p, InstanceAt(o.db.instances, p));
      }
    }
  }

  lemma ItemGrows(o: Obs, ref: ItemRef, root: Root, it: Item)
    requires ObserveItem(o, ref, root, it).Success?
    ensures Grows(o.db, ObserveItem(o, ref, root, it).value.db)
  {
    hide Release, Claim, ItemKey;
    var key := ItemKey(root, it);
    var o0 := Touch(o, key);
    var was := SightingAt(o0.db, ref);
    if was.Some? && (was.value.key != key || was.value.item.path != it.path) {
      ReleaseGrows(o0, ref, was.value);
    }
    if key.Some? {
      ClaimGrows(GiveUp(o0, ref, key, it.path).value, ref, key.value, it.path);
    }
  }

  lemma {:induction false} ReportGrows(o: Obs, rr: RootRef, root: Root, items: seq<Item>)
    requires ObserveAll(o, rr, root, items).Success?
    ensures Grows(o.db, ObserveAll(o, rr, root, items).value.db)
  {
    hide ObserveItem;
    if items != [] {
      var n := |items| - 1;
      ReportGrows(o, rr, root, items[..n]);
      ItemGrows(ObserveAll(o, rr, root, items[..n]).value, ItemRef(rr, items[n].native), root, items[n]);
    }
  }

  lemma RetireOneGrows(o: Obs, ref: ItemRef)
    requires RetireOne(o, ref).Success?
    ensures Grows(o.db, RetireOne(o, ref).value.db)
  {
    hide Release;
    var o1 := o.(db := o.db.(stamps := o.db.stamps - {ref}));
    if ref.item != "" && ref in o1.db.sightings {
      ReleaseGrows(o1, ref, o1.db.sightings[ref]);
    }
  }

  lemma {:induction false} RetireGrows(o: Obs, refs: seq<ItemRef>)
    requires RetireAll(o, refs).Success?
    ensures Grows(o.db, RetireAll(o, refs).value.db)
  {
    hide RetireOne;
    if refs != [] {
      var n := |refs| - 1;
      RetireGrows(o, refs[..n]);
      RetireOneGrows(RetireAll(o, refs[..n]).value, refs[n]);
    }
  }

  lemma ExpireAllGrows(o: Obs, ids: set<InstId>)
    ensures Grows(o.db, ExpireAll(o, ids).db)
  {
  }

  /* ---------- Settling takes a lost key's locks ---------- */

  lemma RecomputeNone(db: Db, a: Activation, ks: set<Key>, inventory: bool)
    requires Recompute(db, a, ks, inventory).Success?
    ensures NoneNew(db, Recompute(db, a, ks, inventory).value)
  {
    hide NewCoverage, KeepsLock;
  }

  lemma HandOnNone(db: Db, a: Activation, lost: set<Key>)
    requires HandOn(db, a, lost).Success?
    ensures NoneNew(db, HandOn(db, a, lost).value)
  {
    hide Recompute, Heir, NoneNew;
    var mid := Bequeathed(db, lost);
    BequeathedNone(db, lost);
    RecomputeNone(mid, a, lost - Heirless(db.sightings, lost), false);
    NoneNewTransitive(db, mid, HandOn(db, a, lost).value);
  }

  lemma BequeathedNone(db: Db, lost: set<Key>)
    ensures NoneNew(db, Bequeathed(db, lost))
  {
    hide Heir;
  }

  lemma SettleNone(o: Obs, a: Activation)
    requires Settle(o, a).Success?
    ensures NoneNew(o.db, Settle(o, a).value.db)
  {
    hide HandOn, Recompute, Unheld, NoneNew;
    var o1 := DropEmptied(o);
    var lost := Unheld(o1);
    var db1 := HandOn(o1.db, a, lost).value;
    GrowsNone(o.db, o1.db);
    HandOnNone(o1.db, a, lost);
    RecomputeNone(db1, a, o1.touched - lost, false);
    NoneNewTransitive(o.db, o1.db, db1);
    NoneNewTransitive(o.db, db1, Settle(o, a).value.db);
  }

  /* ---------- Each call ---------- */

  lemma ObserveNone(s: State, src: SourceId, pass: PassId, root: Root, items: seq<Item>, now: Time)
    requires ObserveItems(s.db, s.active, src, pass, now, root, items).Success?
    ensures NoneNew(s.db, ObserveItems(s.db, s.active, src, pass, now, root, items).value.db)
  {
    hide Settle, ObserveAll, ValidReport, Scenes, NoneNew;
    var o := Begun(s.db, src, pass, now);
    var rr := RootRef(src, root.native);
    var o1 := StampRoot(o, rr, root).(scene := Scenes(items));
    var o2 := Observe(o, root, items).value;
    ReportGrows(o1, rr, root, items);
    GrowsNone(s.db, o2.db);
    SettleNone(o2, s.active.value);
    NoneNewTransitive(s.db, o2.db, Settle(o2, s.active.value).value.db);
  }

  lemma PassNone(db: Db, a: Activation, src: SourceId, p: PassRow, kept: set<NativeRef>, now: Time)
    requires CompletePass(db, a, src, p, kept, now).Success?
    ensures NoneNew(db, CompletePass(db, a, src, p, kept, now).value.db)
  {
    hide Settle, ExpireAll, RetireAll, StaleRefs, NoneNew;
    var o := Begun(db, src, p.id, now);
    RetireGrows(o, StaleRefs(o, kept, p));
    var o1 := RetireAll(o, StaleRefs(o, kept, p)).value;
    var o2 := ExpireAll(o1, Orphans(o1));
    ExpireAllGrows(o1, Orphans(o1));
    GrowsNone(db, o2.db);
    SettleNone(o2, a);
    NoneNewTransitive(db, o2.db, Settle(o2, a).value.db);
  }

  lemma FinishNone(s: State, src: SourceId, pass: PassId, complete: bool, keep: Option<seq<NativeRef>>, now: Time)
    requires FinishPass(s.db, s.active, src, pass, complete, keep, now).Success?
    ensures NoneNew(s.db, FinishPass(s.db, s.active, src, pass, complete, keep, now).value.db)
  {
    hide CompletePass;
    if complete {
      PassNone(s.db.(passes := s.db.passes - {src}), s.active.value, src, s.db.passes[src], KeptRoots(keep), now);
    }
  }

  lemma RemoveNone(db: Db, next: Activation, removed: set<SourceId>, now: Time)
    requires RemoveSources(db, next, removed, now).Success?
    ensures NoneNew(db, RemoveSources(db, next, removed, now).value)
  {
    hide HandOn, RootsOutside, RefsOutside, OverlapsOutside, OrphanAll, Stranded, NoneNew;
    var db1 := Purged(db, removed, now);
    var db2 := HandOn(db1, next, Stranded(db1, removed)).value;
    GrowsNone(db, db1);
    HandOnNone(db1, next, Stranded(db1, removed));
    NoneNewTransitive(db, db1, db2);
    GrowsNone(db2, RemoveSources(db, next, removed, now).value);
    NoneNewTransitive(db, db2, RemoveSources(db, next, removed, now).value);
  }

  lemma ActivateNone(db: Db, active: Option<Activation>, next: Activation, now: Time)
    requires Activate(db, active, next, now).Success?
    ensures NoneNew(db, Activate(db, active, next, now).value)
  {
    hide Recompute, RemoveSources;
    var removed := db.stored.sources - next.sources;
    if db.stored != StoredOf(next) && removed != {} {
      RemoveNone(db, next, removed, now);
    }
    var db1 := Applied(db, next, now).value;
    if Recomputes(db, active, next) {
      RecomputeNone(db1, next, db1.items.Keys, false);
    }
  }

  lemma RowsNone(s: State, c: Call, now: Time)
    requires (c.Probe? || c.ListFiles?) && Effect(s, c, now).Success?
    ensures NoneNew(s.db, Effect(s, c, now).value)
  {
    hide Recompute, ItemsOf, ByName, ValidListing;
    match c
    case Probe(id, tracks) =>
      RecomputeNone(s.db.(embedded := s.db.embedded[id := tracks]), s.active.value, ItemsOf(s.db, id), false);
    case ListFiles(id, files) =>
      RecomputeNone(s.db.(local := s.db.local[id := ByName(files)]), s.active.value, ItemsOf(s.db, id), true);
  }

  lemma LockNone(s: State, id: InstId, pair: Pair, locked: bool, now: Time)
    requires SetLock(s.db, s.active, id, pair, locked, now).Success?
    ensures NoneNew(s.db, SetLock(s.db, s.active, id, pair, locked, now).value)
  {
    hide EvidenceOf, Servable, Configured;
  }

  /* ---------- The end of a write ---------- */

  /** A locked delivery's own locks: its first attempt's pair, on its items. */
  predicate Locks(it: Intent, lk: LockKey) {
    it.Delivery? && it.record.locked && it.attempts != [] && lk.key in it.attempts[0].items && lk.pair == it.attempts[0].pair
  }

  lemma {:induction false} RemovedLocks(c: Commit, fk: FileKey, names: seq<string>)
    ensures var db := RemoveFiles(c, fk, names).db; db.locks == c.db.locks && db.items == c.db.items
  {
    hide RemoveFile;
    if names != [] {
      var n := |names| - 1;
      RemovedLocks(c, fk, names[..n]);
      RemovedLock(RemoveFiles(c, fk, names[..n]), FileKey(fk.inst, names[n]));
    }
  }

  lemma RemovedLock(c: Commit, fk: FileKey)
    ensures RemoveFile(c, fk).db.locks == c.db.locks && RemoveFile(c, fk).db.items == c.db.items
  {
  }

  lemma LandLocks(db: Db, a: Activation, fk: FileKey, it: Intent, now: Time, lk: LockKey)
    requires lk.key !in db.items
    ensures var after := Land(db, a, fk, it, now).db;
            after.items == db.items && (lk in after.locks <==> lk in db.locks || Locks(it, lk))
  {
    hide RemoveFiles, RemoveFile, AdoptedLocks;
    match it
    case Delivery(record, baseline, attempts, removes) =>
      var db1 := PutRecord(db, fk, record, Some(baseline));
      var db2 := db1.(locks := Locking(db1.locks, DeliveredLocks(record, attempts), now), downloads := db1.downloads + attempts);
      RemovedLocks(Commit(db2, {}), fk, removes);
    case Retiming(record, adopted) =>
      var db1 := PutRecord(db, fk, record, adopted);
      AdoptedRecorded(db1, a, fk.inst, Evidence(record.tag, record.flags), lk);
    case Removal(_) =>
      RemovedLock(Commit(db, {}), fk);
  }

  lemma AdoptedRecorded(db: Db, a: Activation, id: InstId, file: Evidence, lk: LockKey)
    requires lk.key !in db.items
    ensures lk !in AdoptedLocks(db, a, id, file)
  {
    hide Servable, Configured;
  }

  lemma RecomputeStray(db: Db, a: Activation, ks: set<Key>, inventory: bool, lk: LockKey)
    requires Recompute(db, a, ks, inventory).Success? && lk.key !in db.items
    ensures var after := Recompute(db, a, ks, inventory).value; after.items == db.items && (lk in after.locks <==> lk in db.locks)
  {
    hide NewCoverage, KeepsLock;
  }

  /** A landed End sets, of the locks on keys with no record, exactly those of a
      locked delivery. */
  lemma LandedLocks(db: Db, a: Activation, fk: FileKey, now: Time, lk: LockKey)
    requires Inv(db, Some(a)) && fk in db.intents && lk.key !in db.items
    ensures var r := End(db, Some(a), fk, db.intents[fk].OpOf(), true, now);
            && r.Success? && r.value.db.items == db.items
            && (lk in r.value.db.locks <==> lk in db.locks || Locks(db.intents[fk], lk))
  {
    hide Inv, Land, Recompute, ItemsOf;
    var it := db.intents[fk];
    var db1 := db.(intents := db.intents - {fk});
    EndKeeps(db, Some(a), fk, it.OpOf(), true, now);
    LandLocks(db1, a, fk, it, now, lk);
    var c := Land(db1, a, fk, it, now);
    RecomputeStray(c.db, a, ItemsOf(c.db, fk.inst), true, lk);
  }

  /** fk's pending write would lock k, which has no record nor that lock. */
  predicate LocksUnrecorded(db: Db, fk: FileKey, k: Key) {
    && fk in db.intents && db.intents[fk].Delivery? && db.intents[fk].attempts != []
    && k !in db.items && Locks(db.intents[fk], LockKey(k, db.intents[fk].attempts[0].pair))
    && LockKey(k, db.intents[fk].attempts[0].pair) !in db.locks
  }

  /** Only an ownerless instance can be waiting for one, and lists the key. */
  lemma UnrecordedOwnerless(db: Db, active: Option<Activation>, fk: FileKey, k: Key)
    requires Inv(db, active) && LocksUnrecorded(db, fk, k)
    ensures fk.inst in db.instances && k in db.instances[fk.inst].items && db.instances[fk.inst].owner.None?
  {
    hide Linked, WellFormed, Named, Stamped, Kept, Sourced, Overlapping, Held, NonEmpty, NoStray, Current;
    StagedAt(db, active, fk);
  }

  lemma LandedStray(db: Db, a: Activation, fk: FileKey, now: Time)
    requires Inv(db, Some(a)) && fk in db.intents
    ensures End(db, Some(a), fk, db.intents[fk].OpOf(), true, now).Success?
    ensures var after := End(db, Some(a), fk, db.intents[fk].OpOf(), true, now).value.db;
            NoneNew(db, after) <==> !exists k :: LocksUnrecorded(db, fk, k)
  {
    hide Inv, End;
    var r := End(db, Some(a), fk, db.intents[fk].OpOf(), true, now);
    EndKeeps(db, Some(a), fk, db.intents[fk].OpOf(), true, now);
    forall lk: LockKey | lk.key !in db.items
      ensures r.value.db.items == db.items && (lk in r.value.db.locks <==> lk in db.locks || Locks(db.intents[fk], lk))
    {
      LandedLocks(db, a, fk, now, lk);
    }
    KeysKeep.EndItems(db, Some(a), fk, db.intents[fk].OpOf(), true, now);
    if k :| LocksUnrecorded(db, fk, k) {
      assert Stray(r.value.db, LockKey(k, db.intents[fk].attempts[0].pair));
    }
    if lk :| Stray(r.value.db, lk) && !Stray(db, lk) {
      assert LocksUnrecorded(db, fk, lk.key);
    }
  }

  /* ---------- Any call, any run ---------- */

  /** The one kind of call that sets a lock on a key with no record: an End
      that lands a locked delivery of one. */
  ghost predicate SetsStray(s: State, c: Call) {
    && c.EndWrite? && c.landed && s.active.Some?
    && c.fk in s.db.intents && s.db.intents[c.fk].OpOf() == c.op && exists k :: LocksUnrecorded(s.db, c.fk, k)
  }

  lemma EndStray(s: State, fk: FileKey, op: Op, landed: bool, now: Time)
    requires Inv(s.db, s.active) && End(s.db, s.active, fk, op, landed, now).Success?
    ensures NoneNew(s.db, End(s.db, s.active, fk, op, landed, now).value.db) <==> !SetsStray(s, EndWrite(fk, op, landed))
  {
    hide Inv, Landed, Unlanded, LocksUnrecorded;
    if fk in s.db.intents {
      if landed {
        LandedStray(s.db, s.active.value, fk, now);
      } else {
        UnlandedNone(s.db, fk, s.db.intents[fk]);
      }
    }
  }

  lemma UnlandedNone(db: Db, fk: FileKey, it: Intent)
    ensures NoneNew(db, Unlanded(db, fk, it))
  {
    hide Undelivered;
  }

  lemma StepStray(s: State, c: Call, now: Time)
    requires Inv(s.db, s.active)
    ensures NoneNew(s.db, Step(s, c, now).db) <==> !SetsStray(s, c)
  {
    hide Inv, NoneNew, ObserveItems, FinishPass, Activate, Begin, End, PutEmbedded, PutExternal, SetLock, RecordAttempts, BeginPass;
    GrowsNone(s.db, s.db);
    if Effect(s, c, now).Success? {
      match c
      case OpenAPass(src, scope) => OpenNone(s, src, scope);
      case Report(src, pass, root, items) => ObserveNone(s, src, pass, root, items, now);
      case CloseAPass(src, pass, complete, keep) => FinishNone(s, src, pass, complete, keep, now);
      case Configure(policy, sources, codecs) => ActivateNone(s.db, s.active, Normalize(policy, sources, codecs).value, now);
      case BeginWrite(fk, it) => BeginNone(s, fk, it);
      case EndWrite(fk, op, landed) => EndStray(s, fk, op, landed, now);
      case Probe(_, _) => RowsNone(s, c, now);
      case ListFiles(_, _) => RowsNone(s, c, now);
      case Lock(id, pair, locked) => LockNone(s, id, pair, locked, now);
      case LogAttempts(attempts) => LogNone(s, attempts);
      case Reopen =>
    } else if c.EndWrite? {
      EndKeeps(s.db, s.active, c.fk, c.op, c.landed, now);
    }
  }

  lemma OpenNone(s: State, src: SourceId, scope: Option<seq<NativeRef>>)
    requires BeginPass(s.db, s.active, src, scope).Success?
    ensures NoneNew(s.db, BeginPass(s.db, s.active, src, scope).value.0)
  {
  }

  lemma BeginNone(s: State, fk: FileKey, it: Intent)
    requires Begin(s.db, fk, it).Success?
    ensures NoneNew(s.db, Begin(s.db, fk, it).value)
  {
  }

  lemma LogNone(s: State, attempts: seq<Download>)
    requires RecordAttempts(s.db, attempts).Success?
    ensures NoneNew(s.db, RecordAttempts(s.db, attempts).value)
  {
  }

  /** So over any run of a new store in which no such End lands, every lock is
      of a recorded key. */
  lemma {:induction false} LocksRecorded(cs: seq<Call>, clock: nat -> Time, books: nat -> (nat -> Policy))
    requires Booked(books, cs)
    requires forall i: nat | i < |cs| :: !SetsStray(Run(State(EmptyDb(), None), cs[..i], clock), cs[i])
    ensures forall lk :: !Stray(Run(State(EmptyDb(), None), cs, clock).db, lk)
  {
    hide Inv, Step, SetsStray, Stray;
    var s0 := State(EmptyDb(), None);
    if cs == [] {
      NoLocks();
    } else {
      var n := |cs| - 1;
      var init := cs[..n];
      BookedInit(books, cs, n);
      assert forall i: nat | i < n :: init[i] == cs[i] && init[..i] == cs[..i];
      LocksRecorded(init, clock, books);
      ReachableGood(init, clock, books);
      StepStray(Run(s0, init, clock), cs[n], clock(n));
    }
  }

  lemma NoLocks()
    ensures forall lk :: !Stray(EmptyDb(), lk)
  {
  }

  lemma ReachableGood(cs: seq<Call>, clock: nat -> Time, books: nat -> (nat -> Policy))
    requires Booked(books, cs)
    ensures var s := Run(State(EmptyDb(), None), cs, clock); Inv(s.db, s.active)
  {
    EmptyGood(books(0));
    RunKeeps(State(EmptyDb(), None), cs, clock, books);
  }
}
