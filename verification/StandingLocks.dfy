/** Which locks stand when reports, complete passes and activations move the
    keys they are on. */
module StandingLocks {
  import opened Wrappers
  import opened Media
  import opened Languages
  import opened Tables
  import opened Claims
  import opened Judging
  import opened Settlement
  import opened Passes
  import opened Activations
  import opened Runs
  import opened StrayLocks
  import opened Verdicts

  /** Nothing is recorded under lk's key, or its item no longer wants the pair. */
  predicate Baseless(db: Db, a: Activation, lk: LockKey) {
    lk.key !in db.items || (Live(db.instances, db.items[lk.key]) && !Wants(db, a, lk.key, lk.pair))
  }

  /** Locks go only for want of a base, and none is set or dated anew. */
  ghost predicate OnlyBaseless(locks: map<LockKey, Time>, db: Db, a: Activation) {
    && (forall lk | lk in db.locks :: lk in locks && db.locks[lk] == locks[lk])
    && (forall lk | lk in locks && lk !in db.locks :: Baseless(db, a, lk))
  }

  lemma RecomputeStands(locks: map<LockKey, Time>, db: Db, a: Activation, ks: set<Key>)
    requires OnlyBaseless(locks, db, a) && Recompute(db, a, ks, false).Success?
    ensures OnlyBaseless(locks, Recompute(db, a, ks, false).value, a)
  {
    hide Recompute, Lapses;
    var after := Recompute(db, a, ks, false).value;
    RecomputeRows(db, a, ks);
    forall lk
      ensures lk in after.locks ==> lk in db.locks && after.locks[lk] == db.locks[lk]
      ensures lk in db.locks && lk !in after.locks ==> Baseless(after, a, lk)
    {
      RecomputeLock(db, a, ks, false, lk);
    }
  }

  lemma RecomputeRows(db: Db, a: Activation, ks: set<Key>)
    requires Recompute(db, a, ks, false).Success?
    ensures var after := Recompute(db, a, ks, false).value;
            after.items == db.items && after.sightings == db.sightings && after.instances == db.instances
  {
    hide NewCoverage, KeptLocks;
  }

  lemma HandOnStands(db: Db, a: Activation, lost: set<Key>)
    requires HandOn(db, a, lost).Success?
    ensures OnlyBaseless(db.locks, HandOn(db, a, lost).value, a)
  {
    hide Recompute, Wants, Live;
    HeirlessGone(db, a, lost);
    RecomputeStands(db.locks, Bequeathed(db, lost), a, lost - Heirless(db.sightings, lost));
  }

  lemma HeirlessGone(db: Db, a: Activation, lost: set<Key>)
    ensures OnlyBaseless(db.locks, Bequeathed(db, lost), a)
  {
    hide Heir, Wants, Live;
  }

  lemma SettleStands(o: Obs, a: Activation)
    requires Settle(o, a).Success?
    ensures OnlyBaseless(o.db.locks, Settle(o, a).value.db, a)
  {
    hide HandOn, Recompute, Unheld, OnlyBaseless, StillEmpty, EmptiedRoots;
    var o1 := DropEmptied(o);
    HandOnStands(o1.db, a, Unheld(o1));
    RecomputeStands(o.db.locks, HandOn(o1.db, a, Unheld(o1)).value, a, o1.touched - Unheld(o1));
  }

  lemma StandsOn(locks: map<LockKey, Time>, db: Db, db1: Db, a: Activation)
    requires OnlyBaseless(locks, db, a)
    requires db1.locks == db.locks && db1.items == db.items && db1.sightings == db.sightings && db1.instances == db.instances
    ensures OnlyBaseless(locks, db1, a)
  {
  }

  lemma AllStand(db: Db, a: Activation)
    ensures OnlyBaseless(db.locks, db, a)
  {
  }

  lemma ReportStands(s: State, src: SourceId, pass: PassId, root: Root, items: seq<Item>, now: Time)
    requires ObserveItems(s.db, s.active, src, pass, now, root, items).Success?
    ensures s.active.Some? && OnlyBaseless(s.db.locks, ObserveItems(s.db, s.active, src, pass, now, root, items).value.db, s.active.value)
  {
    hide Settle, ObserveAll, ValidReport, Scenes, OnlyBaseless;
    var o := Begun(s.db, src, pass, now);
    var rr := RootRef(src, root.native);
    ReportGrows(StampRoot(o, rr, root).(scene := Scenes(items)), rr, root, items);
    SettleStands(Observe(o, root, items).value, s.active.value);
  }

  lemma PassStands(db: Db, a: Activation, src: SourceId, p: PassRow, kept: set<NativeRef>, now: Time)
    requires CompletePass(db, a, src, p, kept, now).Success?
    ensures OnlyBaseless(db.locks, CompletePass(db, a, src, p, kept, now).value.db, a)
  {
    hide Settle, ExpireAll, RetireAll, StaleRefs, OnlyBaseless;
    var o := Begun(db, src, p.id, now);
    RetireGrows(o, StaleRefs(o, kept, p));
    var o1 := RetireAll(o, StaleRefs(o, kept, p)).value;
    ExpireAllGrows(o1, Orphans(o1));
    SettleStands(ExpireAll(o1, Orphans(o1)), a);
  }

  lemma RemoveStands(db: Db, next: Activation, removed: set<SourceId>, now: Time)
    requires RemoveSources(db, next, removed, now).Success?
    ensures OnlyBaseless(db.locks, RemoveSources(db, next, removed, now).value, next)
  {
    hide HandOn, RootsOutside, RefsOutside, OverlapsOutside, OrphanAll, Stranded, OnlyBaseless;
    var db1 := Purged(db, removed, now);
    HandOnStands(db1, next, Stranded(db1, removed));
    StandsOn(db.locks, HandOn(db1, next, Stranded(db1, removed)).value, RemoveSources(db, next, removed, now).value, next);
  }

  lemma ActivateStands(db: Db, active: Option<Activation>, next: Activation, now: Time)
    requires Activate(db, active, next, now).Success?
    ensures OnlyBaseless(db.locks, Activate(db, active, next, now).value, next)
  {
    hide Recompute, RemoveSources, OnlyBaseless;
    var removed := db.stored.sources - next.sources;
    AllStand(db, next);
    if db.stored != StoredOf(next) && removed != {} {
      RemoveStands(db, next, removed, now);
      StandsOn(db.locks, RemoveSources(db, next, removed, now).value, Applied(db, next, now).value, next);
    } else {
      StandsOn(db.locks, db, Applied(db, next, now).value, next);
    }
    var db1 := Applied(db, next, now).value;
    if Recomputes(db, active, next) {
      RecomputeStands(db.locks, db1, next, db1.items.Keys);
    }
  }

  lemma MoveStands(s: State, c: Call, now: Time)
    requires (c.Report? || (c.CloseAPass? && c.complete) || c.Configure?) && Effect(s, c, now).Success?
    ensures Activated(s, c).Some? && OnlyBaseless(s.db.locks, Effect(s, c, now).value, Activated(s, c).value)
  {
    hide ObserveItems, CompletePass, Activate, OnlyBaseless;
    match c
    case Report(src, pass, root, items) => ReportStands(s, src, pass, root, items, now);
    case CloseAPass(src, pass, complete, keep) =>
      PassStands(s.db.(passes := s.db.passes - {src}), s.active.value, src, s.db.passes[src], KeptRoots(keep), now);
    case Configure(policy, sources, codecs) => ActivateStands(s.db, s.active, Normalize(policy, sources, codecs).value, now);
  }

  /** Committed, every record names a stored instance or none, and the lock of
      a live one is on a pair its item wants. */
  lemma Based(db: Db, a: Activation, lk: LockKey)
    requires Inv(db, Some(a)) && lk.key in db.items
    ensures db.items[lk.key].inst == 0 || db.items[lk.key].inst in db.instances
    ensures lk in db.locks && Live(db.instances, db.items[lk.key]) ==> Wants(db, a, lk.key, lk.pair)
  {
    hide Owning, Named, Kept, Stamped, Sourced, Overlapping, Held, Staging, NoStray, NonEmpty, Judged, RecordEvidence;
    assert Live(db.instances, db.items[lk.key]) ==> Fresh(db, a, lk.key);
  }

  /** What a lock outlives: through a report, a complete pass or an activation,
      one on a recorded key stands exactly when its key is still recorded and,
      unless the key's instance has no owner, its item still wants the pair;
      and its date stands with it. */
  lemma LocksStand(s: State, c: Call, now: Time, book: nat -> Policy, lk: LockKey)
    requires Good(s, book) && ByBook(book, c)
    requires (c.Report? || (c.CloseAPass? && c.complete) || c.Configure?) && Effect(s, c, now).Success?
    requires lk.key in s.db.items
    ensures var after := Effect(s, c, now).value;
            && Activated(s, c).Some?
            && (lk in after.locks ==> lk in s.db.locks && after.locks[lk] == s.db.locks[lk])
            && (lk in s.db.locks ==>
                  (lk in after.locks <==>
                     && lk.key in after.items
                     && ((after.items[lk.key].inst != 0
                          && after.items[lk.key].inst in after.instances && after.instances[after.items[lk.key].inst].owner.None?)
                         || Wants(after, Activated(s, c).value, lk.key, lk.pair))))
  {
    hide Effect, Inv, Wants;
    MoveStands(s, c, now);
    StepKeeps(s, c, now, book);
    StepStray(s, c, now);
    var after := Effect(s, c, now).value;
    if lk.key in after.items {
      Based(after, Activated(s, c).value, lk);
    } else {
      assert Step(s, c, now).db == after && NoneNew(s.db, after) && (Stray(after, lk) ==> Stray(s.db, lk));
    }
  }
}
