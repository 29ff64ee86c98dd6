/** Every key a run records is one Choose builds, so every recorded key has
    bytes of its own. */
module KeysKeep {
  import opened Wrappers
  import opened Media
  import opened Languages
  import opened Tables
  import opened Claims
  import opened Judging
  import opened Settlement
  import opened Passes
  import opened Activations
  import opened Intents
  import opened Inventory
  import opened IntentsKeep
  import opened Runs
  import Reads

  ghost predicate AllValid(items: map<Key, Record>) {
    forall k | k in items :: ValidKey(k)
  }

  lemma DetachItems(o: Obs, id: InstId, k: Key)
    requires Detach(o, id, k).Success?
    ensures Detach(o, id, k).value.db.items == o.db.items
  {
    hide Without, Pinned;
  }

  lemma ReleaseValid(o: Obs, ref: ItemRef, was: Sighting)
    requires AllValid(o.db.items) && Release(o, ref, was).Success?
    ensures AllValid(Release(o, ref, was).value.db.items)
  {
    hide Detach;
    var o1 := o.(db := o.db.(overlaps := o.db.overlaps - {ref}));
    if was.key.Some? && was.key.value in o.db.items && o.db.items[was.key.value].ref == ref && o.db.items[was.key.value].inst != 0 {
      DetachItems(o1, o.db.items[was.key.value].inst, was.key.value);
    }
  }

  lemma UnlinkKeys(o: Obs, ks: seq<Key>, id: InstId)
    ensures UnlinkAll(o, ks, id).db.items.Keys == o.db.items.Keys
  {
  }

  lemma ExpireKeys(o: Obs, id: InstId)
    ensures Expire(o, id).db.items.Keys == o.db.items.Keys
  {
    hide UnlinkAll;
    if id in o.db.instances {
      var ks := o.db.instances[id].items;
      UnlinkKeys(o.(db := DropInstance(o.db, id), written := o.written + RootsOf(ks)), ks, id);
    }
  }

  lemma JoinKeys(o: Obs, at: Option<InstId>, k: Key, p: string)
    requires at.Some? ==> at.value in o.db.instances
    requires Join(o, at, k, p).Success?
    ensures Join(o, at, k, p).value.0.db.items.Keys == o.db.items.Keys
  {
    hide Expire, UnlinkAll, Pinned;
    if at.Some? {
      ExpireKeys(o, at.value);
      UnlinkKeys(o, o.db.instances[at.value].items, at.value);
    }
  }

  lemma AttachValid(o: Obs, ref: ItemRef, k: Key, p: string, at: Option<InstId>)
    requires at.Some? ==> at.value in o.db.instances
    requires AllValid(o.db.items) && ValidKey(k) && AttachKey(o, ref, k, p, at).Success?
    ensures AllValid(AttachKey(o, ref, k, p, at).value.db.items)
  {
    hide Join, Detach;
    JoinKeys(o, at, k, p);
    var j := Join(o, at, k, p).value;
    var rec := RecordOf(o.db.items, k);
    if IsHeld(rec) && rec.value.inst != j.1 {
      DetachItems(j.0, rec.value.inst, k);
    }
    forall x | x in AttachKey(o, ref, k, p, at).value.db.items
      ensures ValidKey(x)
    {
      assert x == k || x in o.db.items.Keys;
    }
  }

  lemma ClaimValid(o: Obs, ref: ItemRef, k: Key, p: string)
    requires AllValid(o.db.items) && ValidKey(k) && Claim(o, ref, k, p).Success?
    ensures AllValid(Claim(o, ref, k, p).value.0.db.items)
  {
    hide AttachOrOverlap, NoVideo;
    if p == "" {
      NoVideoValid(o, ref, k);
    } else {
      AttachOrOverlapValid(o, ref, k, p);
    }
  }

  lemma NoVideoValid(o: Obs, ref: ItemRef, k: Key)
    requires AllValid(o.db.items) && ValidKey(k)
    ensures AllValid(NoVideo(o, ref, k).db.items)
  {
  }

  lemma AttachOrOverlapValid(o: Obs, ref: ItemRef, k: Key, p: string)
    requires AllValid(o.db.items) && ValidKey(k) && AttachOrOverlap(o, ref, k, p).Success?
    ensures AllValid(AttachOrOverlap(o, ref, k, p).value.0.db.items)
  {
    hide AttachKey, AttachOrOverlap, InstanceAt, AllValid;
    AttachedOrNoted(o, ref, k, p);
    var r := AttachOrOverlap(o, ref, k, p).value.0;
    if r != o.(db := o.db.(overlaps := r.db.overlaps)) {
      AttachValid(o, ref, k, p, InstanceAt(o.db.instances, p));
    }
  }

  lemma ObserveItemValid(o: Obs, ref: ItemRef, root: Root, it: Item)
    requires AllValid(o.db.items) && ObserveItem(o, ref, root, it).Success?
    ensures AllValid(ObserveItem(o, ref, root, it).value.db.items)
  {
    hide Release, Claim, AllValid;
    var key := ItemKey(root, it);
    var o0 := Touch(o, key);
    var was := SightingAt(o0.db, ref);
    if was.Some? && (was.value.key != key || was.value.item.path != it.path) {
      ReleaseValid(o0, ref, was.value);
    }
    var o1 := GiveUp(o0, ref, key, it.path).value;
    if key.Some? {
      ItemKeyValid(root, it);
      ClaimValid(o1, ref, key.value, it.path);
    }
  }

  lemma ItemKeyValid(root: Root, it: Item)
    ensures ItemKey(root, it).Some? ==> ValidKey(ItemKey(root, it).value)
  {
  }

  lemma {:induction false} ObserveAllValid(o: Obs, rr: RootRef, root: Root, items: seq<Item>)
    requires AllValid(o.db.items) && ObserveAll(o, rr, root, items).Success?
    ensures AllValid(ObserveAll(o, rr, root, items).value.db.items)
  {
    hide ObserveItem, AllValid;
    if items != [] {
      var n := |items| - 1;
      ObserveAllValid(o, rr, root, items[..n]);
      ObserveItemValid(ObserveAll(o, rr, root, items[..n]).value, ItemRef(rr, items[n].native), root, items[n]);
    }
  }

  /* ---------- The end of a write ---------- */

  lemma RecomputeItems(db: Db, a: Activation, ks: set<Key>, inventory: bool)
    requires Recompute(db, a, ks, inventory).Success?
    ensures Recompute(db, a, ks, inventory).value.items == db.items
  {
    hide NewCoverage, KeptLocks;
  }

  lemma HandOnValid(db: Db, a: Activation, lost: set<Key>)
    requires AllValid(db.items) && HandOn(db, a, lost).Success?
    ensures AllValid(HandOn(db, a, lost).value.items)
  {
    hide Recompute, Heir;
    RecomputeItems(Bequeathed(db, lost), a, lost - Heirless(db.sightings, lost), false);
  }

  lemma SettleValid(o: Obs, a: Activation)
    requires AllValid(o.db.items) && Settle(o, a).Success?
    ensures AllValid(Settle(o, a).value.db.items)
  {
    hide HandOn, Recompute, Unheld, AllValid;
    var o1 := DropEmptied(o);
    var lost := Unheld(o1);
    HandOnValid(o1.db, a, lost);
    RecomputeItems(HandOn(o1.db, a, lost).value, a, o1.touched - lost, false);
  }

  lemma {:induction false} RetireAllValid(o: Obs, refs: seq<ItemRef>)
    requires AllValid(o.db.items) && RetireAll(o, refs).Success?
    ensures AllValid(RetireAll(o, refs).value.db.items)
  {
    hide RetireOne, AllValid;
    if refs != [] {
      var n := |refs| - 1;
      RetireAllValid(o, refs[..n]);
      RetireOneValid(RetireAll(o, refs[..n]).value, refs[n]);
    }
  }

  lemma RetireOneValid(o: Obs, ref: ItemRef)
    requires AllValid(o.db.items) && RetireOne(o, ref).Success?
    ensures AllValid(RetireOne(o, ref).value.db.items)
  {
    hide Release, AllValid;
    var o1 := o.(db := o.db.(stamps := o.db.stamps - {ref}));
    if ref.item != "" && ref in o1.db.sightings {
      ReleaseValid(o1, ref, o1.db.sightings[ref]);
    }
  }

  lemma CompletePassValid(db: Db, a: Activation, src: SourceId, p: PassRow, kept: set<NativeRef>, now: Time)
    requires AllValid(db.items) && CompletePass(db, a, src, p, kept, now).Success?
    ensures AllValid(CompletePass(db, a, src, p, kept, now).value.db.items)
  {
    hide Settle, ExpireAll, RetireAll, StaleRefs, AllValid;
    var o := Begun(db, src, p.id, now);
    RetireAllValid(o, StaleRefs(o, kept, p));
    var o1 := RetireAll(o, StaleRefs(o, kept, p)).value;
    ExpireAllValid(o1, Orphans(o1));
    SettleValid(ExpireAll(o1, Orphans(o1)), a);
  }

  lemma ExpireAllValid(o: Obs, ids: set<InstId>)
    requires AllValid(o.db.items)
    ensures AllValid(ExpireAll(o, ids).db.items)
  {
  }

  lemma ActivateValid(db: Db, active: Option<Activation>, next: Activation, now: Time)
    requires AllValid(db.items) && Activate(db, active, next, now).Success?
    ensures AllValid(Activate(db, active, next, now).value.items)
  {
    hide Recompute, RemoveSources, AllValid;
    var removed := db.stored.sources - next.sources;
    if db.stored != StoredOf(next) && removed != {} {
      RemoveSourcesValid(db, next, removed, now);
    }
    var db1 := Applied(db, next, now).value;
    if Recomputes(db, active, next) {
      RecomputeItems(db1, next, db1.items.Keys, false);
    }
  }

  lemma RemoveSourcesValid(db: Db, next: Activation, removed: set<SourceId>, now: Time)
    requires AllValid(db.items) && RemoveSources(db, next, removed, now).Success?
    ensures AllValid(RemoveSources(db, next, removed, now).value.items)
  {
    hide HandOn, AllValid, RootsOutside, RefsOutside, OrphanAll, Stranded;
    HandOnValid(Purged(db, removed, now), next, Stranded(Purged(db, removed, now), removed));
  }

  /* ---------- Runs ---------- */

  lemma ReportValid(s: State, src: SourceId, pass: PassId, root: Root, items: seq<Item>, now: Time)
    requires AllValid(s.db.items) && ObserveItems(s.db, s.active, src, pass, now, root, items).Success?
    ensures AllValid(ObserveItems(s.db, s.active, src, pass, now, root, items).value.db.items)
  {
    hide Settle, ObserveAll, AllValid, ValidReport, Scenes;
    var o := Begun(s.db, src, pass, now);
    var rr := RootRef(src, root.native);
    ObserveAllValid(StampRoot(o, rr, root).(scene := Scenes(items)), rr, root, items);
    SettleValid(Observe(o, root, items).value, s.active.value);
  }

  lemma CloseValid(s: State, src: SourceId, pass: PassId, complete: bool, keep: Option<seq<NativeRef>>, now: Time)
    requires AllValid(s.db.items) && FinishPass(s.db, s.active, src, pass, complete, keep, now).Success?
    ensures AllValid(FinishPass(s.db, s.active, src, pass, complete, keep, now).value.db.items)
  {
    hide CompletePass, AllValid;
    if complete {
      CompletePassValid(s.db.(passes := s.db.passes - {src}), s.active.value, src, s.db.passes[src], KeptRoots(keep), now);
    }
  }

  lemma EndItems(db: Db, active: Option<Activation>, fk: FileKey, want: Op, landed: bool, now: Time)
    requires Inv(db, active) && End(db, active, fk, want, landed, now).Success?
    ensures End(db, active, fk, want, landed, now).value.db.items == db.items
  {
    hide Inv, Landed, Unlanded;
    if fk in db.intents {
      if landed {
        LandedItems(db, active, fk, now);
      } else {
        UnlandedItems(db, fk, db.intents[fk]);
      }
    }
  }

  lemma UnlandedItems(db: Db, fk: FileKey, it: Intent)
    ensures Unlanded(db, fk, it).items == db.items
  {
    hide Undelivered;
  }

  lemma LandedItems(db: Db, active: Option<Activation>, fk: FileKey, now: Time)
    requires Inv(db, active) && active.Some? && fk in db.intents && Landed(db, active.value, fk, db.intents[fk], now).Success?
    ensures Landed(db, active.value, fk, db.intents[fk], now).value.db.items == db.items
  {
    hide Inv, Staged, Land, Recompute, ItemsOf;
    var db1 := db.(intents := db.intents - {fk});
    StagedAt(db, active, fk);
    LandLocal(db1, active.value, fk, db.intents[fk], now);
    var c := Land(db1, active.value, fk, db.intents[fk], now);
    LocalItems(db1, c.db, fk.inst);
    RecomputeItems(c.db, active.value, ItemsOf(c.db, fk.inst), true);
  }

  lemma LocalItems(db: Db, db1: Db, id: InstId)
    requires Local(db, db1, id)
    ensures db1.items == db.items
  {
  }

  lemma RowsItems(s: State, c: Call, now: Time)
    requires (c.Probe? || c.ListFiles?) && Effect(s, c, now).Success?
    ensures Effect(s, c, now).value.items == s.db.items
  {
    hide Recompute, ItemsOf, ByName, ValidListing;
    match c
    case Probe(id, tracks) =>
      RecomputeItems(s.db.(embedded := s.db.embedded[id := tracks]), s.active.value, ItemsOf(s.db, id), false);
    case ListFiles(id, files) =>
      RecomputeItems(s.db.(local := s.db.local[id := ByName(files)]), s.active.value, ItemsOf(s.db, id), true);
  }

  lemma StepValid(s: State, c: Call, now: Time)
    requires Inv(s.db, s.active) && AllValid(s.db.items)
    ensures AllValid(Step(s, c, now).db.items)
  {
    hide Inv, AllValid, ObserveItems, FinishPass, Activate, Begin, End, PutEmbedded, PutExternal, SetLock, RecordAttempts, BeginPass;
    if Effect(s, c, now).Success? {
      match c
      case OpenAPass(src, scope) => OpenItems(s, src, scope);
      case Report(src, pass, root, items) => ReportValid(s, src, pass, root, items, now);
      case CloseAPass(src, pass, complete, keep) => CloseValid(s, src, pass, complete, keep, now);
      case Configure(policy, sources, codecs) => ActivateValid(s.db, s.active, Normalize(policy, sources, codecs).value, now);
      case BeginWrite(fk, it) => BeginItems(s, fk, it);
      case EndWrite(fk, op, landed) => EndItems(s.db, s.active, fk, op, landed, now);
      case Probe(_, _) => RowsItems(s, c, now);
      case ListFiles(_, _) => RowsItems(s, c, now);
      case Lock(id, pair, locked) => LockItems(s, id, pair, locked, now);
      case LogAttempts(attempts) => LogItems(s, attempts);
      case Reopen =>
    }
  }

  lemma OpenItems(s: State, src: SourceId, scope: Option<seq<NativeRef>>)
    requires BeginPass(s.db, s.active, src, scope).Success?
    ensures BeginPass(s.db, s.active, src, scope).value.0.items == s.db.items
  {
  }

  lemma BeginItems(s: State, fk: FileKey, it: Intent)
    requires Begin(s.db, fk, it).Success?
    ensures Begin(s.db, fk, it).value.items == s.db.items
  {
  }

  lemma LockItems(s: State, id: InstId, pair: Pair, locked: bool, now: Time)
    requires SetLock(s.db, s.active, id, pair, locked, now).Success?
    ensures SetLock(s.db, s.active, id, pair, locked, now).value.items == s.db.items
  {
    hide EvidenceOf, Servable, Configuring, Locking;
  }

  lemma LogItems(s: State, attempts: seq<Download>)
    requires RecordAttempts(s.db, attempts).Success?
    ensures RecordAttempts(s.db, attempts).value.items == s.db.items
  {
  }

  lemma {:induction false} RunValid(s: State, cs: seq<Call>, clock: nat -> Time, books: nat -> (nat -> Policy))
    requires Good(s, books(0)) && Booked(books, cs) && AllValid(s.db.items)
    ensures AllValid(Run(s, cs, clock).db.items)
  {
    hide Inv, Step, AllValid;
    if cs != [] {
      BookedInit(books, cs, |cs| - 1);
      RunValid(s, cs[..|cs| - 1], clock, books);
      RunKeeps(s, cs[..|cs| - 1], clock, books);
      StepValid(Run(s, cs[..|cs| - 1], clock), cs[|cs| - 1], clock(|cs| - 1));
    }
  }

  /** So every state a run reaches can be listed: no row a list needs is gone,
      and keys and their bytes determine each other. */
  lemma ReachableReadable(cs: seq<Call>, clock: nat -> Time, books: nat -> (nat -> Policy))
    requires Booked(books, cs)
    ensures var db := Run(State(EmptyDb(), None), cs, clock).db; Sound(db) && Reads.KeysValid(db)
  {
    hide Run, Good;
    EmptyGood(books(0));
    RunValid(State(EmptyDb(), None), cs, clock, books);
    ReachableSound(cs, clock, books);
  }
}
