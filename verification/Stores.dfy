/** The store: every public write, committed whole or not at all, keeping the
    invariant. */
module Stores {
  import opened Wrappers
  import opened Media
  import opened Languages
  import opened Tables
  import opened Claims
  import opened Judging
  import opened Settlement
  import opened Passes
  import opened Activations
  import opened Intents
  import opened Inventory
  import opened ClaimsKeep
  import opened ObserveKeeps
  import opened ActivationsKeep
  import opened IntentsKeep
  import opened Runs
  import opened Transactions
  import opened Coverages
  import opened KeyLoss
  import opened Observations
  import opened Endings

  /** A write that committed what r says, or was refused and changed nothing. */
  predicate Commits(e: Outcome<StoreError>, before: Db, after: Db, r: Result<Db, StoreError>) {
    match r
    case Success(db) => e.Pass? && after == db
    case Failure(x) => e == Fail(x) && after == before
  }

  class Store {
    const tx: Tx
    /** The configuration reads and writes go by; None until one is activated.
        */
    var active: Option<Activation>

    ghost predicate Valid()
      reads this, tx
    {
      Inv(tx.db, active)
    }

    constructor (tx: Tx)
      requires Inv(tx.db, None)
      ensures Valid() && this.tx == tx && active == None
    {
      this.tx, active := tx, None;
    }

    function IsActive(src: SourceId): bool
      reads this
    {
      active.Some? && src in active.value.sources
    }

    /* ---------- Passes ---------- */

    method Begin(src: SourceId, scope: Option<seq<NativeRef>>) returns (e: Outcome<StoreError>, id: PassId)
      requires Valid()
      modifies tx
      ensures Valid()
      ensures Yields(e, (tx.db, id), BeginPass(old(tx.db), active, src, scope))
      ensures e.Fail? ==> tx.db == old(tx.db)
    {
      hide Inv;
      id := 0;
      if scope.Some? {
        for i := 0 to |scope.value|
          invariant tx.db == old(tx.db) && forall j | 0 <= j < i :: ValidNativeRef(scope.value[j])
        {
          if scope.value[i].id == "" {
            return Fail(BadReport), 0;
          }
        }
      }
      if !IsActive(src) {
        return Fail(SourceInactive), 0;
      }
      BeginPassKeeps(tx.db, active, src, scope);
      id := tx.db.lastPass + 1;
      tx.db := tx.db.(lastPass := id);
      tx.db := tx.db.(passes := tx.db.passes[src := PassRow(id, scope)]);
      e := Pass;
    }

    method Observe(src: SourceId, pass: PassId, root: Root, items: seq<Item>, now: Time) returns (e: Outcome<StoreError>)
      requires Valid()
      modifies tx
      ensures Valid()
      ensures Commits(e, old(tx.db), tx.db, ObsDb(ObserveItems(old(tx.db), active, src, pass, now, root, items)))
    {
      hide Inv, Weak, Claims.Observe, Settle, ValidReport;
      ObserveItemsKeeps(tx.db, active, src, pass, now, root, items);
      if !ValidReport(root, items) {
        return Fail(BadReport);
      }
      var open := OpenPass(tx.db, active, src, pass);
      if open.Failure? {
        return Fail(open.error);
      }
      var before := tx.db;
      ValidIdentified(root, items);
      AgreesAt(tx.db, active);
      var o := new Observation(tx, src, pass, now);
      e := o.Report(root, items, active.value);
      if e.Pass? {
        e := o.Finish(active.value);
      }
      if e.Fail? {
        tx.Rollback(before);
      }
    }

    /** A pass closes; complete, it retires what it did not see. The owners
        that the source's overlaps name are answered. */
    method Finish(src: SourceId, pass: PassId, complete: bool, keep: Option<seq<NativeRef>>, now: Time)
        returns (e: Outcome<StoreError>, owners: set<SourceId>)
      requires Valid()
      modifies tx
      ensures Valid()
      ensures Commits(e, old(tx.db), tx.db, ObsDb(FinishPass(old(tx.db), active, src, pass, complete, keep, now)))
      ensures e.Pass? ==> forall s :: s in owners <==> exists ref :: ref in tx.db.overlaps && ref.root.source == src && tx.db.overlaps[ref].owner == s
    {
      hide Inv, CompletePass;
      var before := tx.db;
      owners := {};
      if keep.Some? && (|keep.value| > MAX_KEEP || !complete) {
        return Fail(BadKeep), {};
      }
      var open := OpenPass(tx.db, active, src, pass);
      if open.Failure? {
        return Fail(open.error), {};
      }
      if keep.Some? && open.value.roots.Some? {
        return Fail(BadKeep), {};
      }
      if FinishPass(before, active, src, pass, complete, keep, now).Success? {
        FinishPassKeeps(before, active, src, pass, complete, keep, now);
      }
      tx.db := tx.db.(passes := tx.db.passes - {src});
      if complete {
        InvZero(before, active);
        e := Complete(src, open.value, KeptRoots(keep), now);
        if e.Fail? {
          tx.Rollback(before);
          return;
        }
      }
      owners := CollectOwners(src);
      e := Pass;
    }

    /** The owners that a source's overlap rows name. */
    method CollectOwners(src: SourceId) returns (owners: set<SourceId>)
      ensures forall s :: s in owners <==> exists ref :: ref in tx.db.overlaps && ref.root.source == src && tx.db.overlaps[ref].owner == s
    {
      owners := {};
      var rest := tx.db.overlaps.Keys;
      while rest != {}
        invariant rest <= tx.db.overlaps.Keys
        invariant forall ref | ref in tx.db.overlaps && ref.root.source == src :: ref in rest || tx.db.overlaps[ref].owner in owners
        invariant forall s | s in owners :: exists ref :: ref in tx.db.overlaps && ref.root.source == src && tx.db.overlaps[ref].owner == s
        decreases |rest|
      {
        var ref :| ref in rest;
        if ref.root.source == src {
          owners := owners + {tx.db.overlaps[ref].owner};
        }
        rest := rest - {ref};
      }
    }

    method Complete(src: SourceId, p: PassRow, kept: set<NativeRef>, now: Time) returns (e: Outcome<StoreError>)
      requires active.Some? && 0 !in tx.db.instances
      modifies tx
      ensures Yields(e, tx.db, ObsDb(CompletePass(old(tx.db), active.value, src, p, kept, now)))
    {
      hide Settle, ExpireAll, RetireAll, StaleRefs;
      var o := new Observation(tx, src, p.id, now);
      RetireZero(o.Value(), StaleRefs(o.Value(), kept, p));
      :- o.Retire(p, kept);
      o.ExpireOrphans();
      e := o.Finish(active.value);
    }

    /* ---------- Activation ---------- */

    method Activate(policy: Policy, sources: seq<SourceId>, codecs: seq<string>, now: Time) returns (e: Outcome<StoreError>)
      requires Valid()
      requires active.Some? && active.value.policy.digest == policy.digest ==> active.value.policy == policy
      modifies this, tx
      ensures Valid()
      ensures var next := Normalize(policy, sources, codecs);
              && (next.Success? ==> Commits(e, old(tx.db), tx.db, Activations.Activate(old(tx.db), old(active), next.value, now)) && active == Some(next.value))
              && (next.Failure? ==> e == Fail(next.error) && tx.db == old(tx.db) && active == old(active))
    {
      hide Inv, Applied, Recompute, Recomputes;
      var next := Normalize(policy, sources, codecs);
      if next.Failure? {
        return Fail(next.error);
      }
      ActivateKeeps(tx.db, active, next.value, now);
      var recompute := Recomputes(tx.db, active, next.value);
      e := Apply(next.value, now);
      if recompute {
        e := RecomputeKeys(tx, next.value, tx.db.items.Keys, false);
      }
      active := Some(next.value);
    }

    /** What a changed activation writes before any recompute. */
    method Apply(next: Activation, now: Time) returns (e: Outcome<StoreError>)
      modifies tx
      ensures Yields(e, tx.db, Applied(old(tx.db), next, now))
      ensures e.Pass?
    {
      hide Activations.RemoveSources;
      if tx.db.stored == StoredOf(next) {
        return Pass;
      }
      var removed := tx.db.stored.sources - next.sources;
      if removed != {} {
        RemovalSucceeds(tx.db, next, removed, now);
        e := Remove(next, removed, now);
      }
      tx.db := tx.db.(stored := StoredOf(next));
      e := Pass;
    }

    /** What removed sources reported goes, their instances are ownerless, and
        the keys that rested on them are handed on or lost. */
    method Remove(next: Activation, removed: set<SourceId>, now: Time) returns (e: Outcome<StoreError>)
      modifies tx
      ensures Yields(e, tx.db, Activations.RemoveSources(old(tx.db), next, removed, now))
    {
      hide Purged, HandOn, Stranded, OverlapsOutside;
      PurgeFacts(removed);
      OrphanInstances(removed, now);
      PurgedParts(old(tx.db), removed, now);
      var stranded := Strand(removed);
      StrandedStored(tx.db, removed);
      :- HandOnKeys(tx, next, stranded);
      tx.db := tx.db.(overlaps := OverlapsOutside(tx.db.overlaps, removed));
      e := Pass;
    }

    /** Each removed source's rows, a range at a time. */
    method PurgeFacts(removed: set<SourceId>)
      modifies tx
      ensures tx.db == FactsOutside(old(tx.db), removed)
    {
      hide RootsOutside, RefsOutside;
      ghost var done: set<SourceId> := {};
      var rest := removed;
      FactsNone(tx.db);
      while rest != {}
        invariant done + rest == removed && tx.db == FactsOutside(old(tx.db), done)
        decreases |rest|
      {
        var src :| src in rest;
        FactsMore(old(tx.db), done, src);
        tx.db := tx.db.(roots := RootsOutside(tx.db.roots, {src}));
        tx.db := tx.db.(sightings := RefsOutside(tx.db.sightings, {src}));
        tx.db := tx.db.(stamps := RefsOutside(tx.db.stamps, {src}));
        tx.db := tx.db.(overlaps := RefsOutside(tx.db.overlaps, {src}));
        tx.db := tx.db.(passes := tx.db.passes - {src});
        done, rest := done + {src}, rest - {src};
      }
      assert done == removed;
    }

    /** The instances of a removed source keep everything but their owner. */
    method OrphanInstances(removed: set<SourceId>, now: Time)
      modifies tx
      ensures tx.db == old(tx.db).(instances := OrphanAll(old(tx.db).instances, removed, now))
    {
      ghost var instances := tx.db.instances;
      var rest := tx.db.instances.Keys;
      assert tx.db.(instances := tx.db.instances) == tx.db;
      while rest != {}
        invariant tx.db == old(tx.db).(instances := tx.db.instances) && tx.db.instances.Keys == instances.Keys && rest <= instances.Keys
        invariant forall id | id in instances :: tx.db.instances[id] == if id in rest then instances[id] else Orphaned(instances[id], removed, now)
        decreases |rest|
      {
        var id :| id in rest;
        var row := tx.db.instances[id];
        if row.owner.Some? && row.owner.value in removed {
          tx.db := tx.db.(instances := tx.db.instances[id := row.(owner := None, orphaned := now)]);
        }
        rest := rest - {id};
      }
      assert tx.db.instances == OrphanAll(instances, removed, now);
    }

    /** The recorded keys with no video that rested on a removed source. */
    method Strand(removed: set<SourceId>) returns (lost: set<Key>)
      ensures lost == Stranded(tx.db, removed)
    {
      lost := {};
      var rest := tx.db.items.Keys;
      while rest != {}
        invariant rest <= tx.db.items.Keys
        invariant forall k :: k in lost <==> k in Stranded(tx.db, removed) && k !in rest
        decreases |rest|
      {
        var k :| k in rest;
        if tx.db.items[k].inst == 0 && tx.db.items[k].ref.root.source in removed {
          lost := lost + {k};
        }
        rest := rest - {k};
      }
    }

    /* ---------- The write protocol ---------- */

    method BeginWrite(fk: FileKey, it: Intent) returns (e: Outcome<StoreError>)
      requires Valid()
      modifies tx
      ensures Valid()
      ensures Commits(e, old(tx.db), tx.db, Intents.Begin(old(tx.db), fk, it))
    {
      hide Inv, Stageable;
      if Intents.Begin(tx.db, fk, it).Success? {
        BeginKeeps(tx.db, active, fk, it);
      }
      if fk.name == "" {
        return Fail(BadWrite);
      } else if fk.inst !in tx.db.instances {
        return Fail(UnknownInstance);
      } else if fk in tx.db.intents {
        return Fail(AlreadyPending);
      }
      var fits := CheckStaged(fk, it, tx.db.instances[fk.inst].items);
      if !fits {
        return Fail(BadWrite);
      }
      tx.db := tx.db.(intents := tx.db.intents[fk := it]);
      e := Pass;
    }

    /** What each operation checks of the stored tables. */
    method CheckStaged(fk: FileKey, it: Intent, held: seq<Key>) returns (ok: bool)
      ensures ok <==> Stageable(tx.db, fk, it, held)
    {
      match it {
        case Delivery(_, _, attempts, _) =>
          ok := CheckAttempts(attempts, fk.inst, held);
        case Retiming(_, adopted) =>
          ok := (fk in tx.db.files) == adopted.None?;
        case Removal(_) =>
          ok := true;
      }
    }

    method CheckAttempts(attempts: seq<Download>, id: InstId, held: seq<Key>) returns (ok: bool)
      ensures ok <==> ValidAttempts(attempts) && AttemptsFit(attempts, id, held)
    {
      if attempts == [] {
        return false;
      }
      for i := 0 to |attempts|
        invariant forall j | 0 <= j < i :: attempts[j].items != [] && attempts[j].inst == id
      {
        if attempts[i].items == [] || attempts[i].inst != id {
          return false;
        }
      }
      var named := attempts[0].items;
      for i := 0 to |named|
        invariant forall j | 0 <= j < i :: named[j] in held
      {
        if named[i] !in held {
          return false;
        }
      }
      ok := true;
    }

    method EndWrite(fk: FileKey, want: Op, landed: bool, now: Time) returns (e: Outcome<StoreError>)
      requires Valid()
      modifies tx
      ensures Valid()
      ensures Commits(e, old(tx.db), tx.db, CommitDb(End(old(tx.db), active, fk, want, landed, now)))
    {
      hide Inv, End, Staged;
      var before := tx.db;
      EndKeeps(before, active, fk, want, landed, now);
      if fk in before.intents {
        StagedAt(before, active, fk);
        StagedAttempts(before.instances[fk.inst], fk, before.intents[fk]);
      }
      var w := new Ending(tx);
      e := w.Settle(active, fk, want, landed, now);
      if e.Fail? {
        tx.Rollback(before);
      }
    }

    /* ---------- Inventory, locks and the log ---------- */

    method StoreProbe(id: InstId, tracks: seq<Track>) returns (e: Outcome<StoreError>)
      requires Valid()
      modifies tx
      ensures Valid()
      ensures Commits(e, old(tx.db), tx.db, PutEmbedded(old(tx.db), active, id, tracks))
    {
      hide Inv, Recompute, ItemsOf;
      PutEmbeddedKeeps(tx.db, active, id, tracks);
      if active.None? {
        return Fail(NoActivation);
      } else if id !in tx.db.instances {
        return Fail(UnknownInstance);
      }
      tx.db := tx.db.(embedded := tx.db.embedded[id := tracks]);
      ItemsOfIs(old(tx.db), tx.db, id);
      e := RecomputeInstance(tx, active.value, id, false);
    }

    /** A scanned directory's listing: sorted, and refused if a name is empty
        or comes twice. */
    method StoreListing(id: InstId, files: seq<LocalFile>) returns (e: Outcome<StoreError>)
      requires Valid()
      modifies tx
      ensures Valid()
      ensures Commits(e, old(tx.db), tx.db, PutExternal(old(tx.db), active, id, files))
    {
      hide Inv, Recompute, ItemsOf, ByName, ValidListing;
      PutExternalKeeps(tx.db, active, id, files);
      if !ValidListing(files) {
        return Fail(BadWrite);
      } else if active.None? {
        return Fail(NoActivation);
      } else if id !in tx.db.instances {
        return Fail(UnknownInstance);
      }
      tx.db := tx.db.(local := tx.db.local[id := ByName(files)]);
      ItemsOfIs(old(tx.db), tx.db, id);
      e := RecomputeInstance(tx, active.value, id, true);
    }

    method Lock(id: InstId, pair: Pair, locked: bool, now: Time) returns (e: Outcome<StoreError>)
      requires Valid()
      modifies tx
      ensures Valid()
      ensures Commits(e, old(tx.db), tx.db, SetLock(old(tx.db), active, id, pair, locked, now))
    {
      hide Inv, Locking, Servable, Configuring;
      if SetLock(tx.db, active, id, pair, locked, now).Success? {
        SetLockKeeps(tx.db, active, id, pair, locked, now);
      }
      if active.None? {
        return Fail(NoActivation);
      } else if id !in tx.db.instances || tx.db.instances[id].owner.None? {
        return Fail(NotLockable);
      }
      var ks := CollectConfiguring(active.value, id, pair);
      if ks == {} {
        return Fail(NotLockable);
      }
      if locked {
        var ev, complete := CollectEvidence(tx, active.value.codecs, id);
        var c, servable := JudgePair(active.value.policy, pair, ev);
        if !servable {
          return Fail(NotLockable);
        }
      }
      var lks := set k | k in ks :: LockKey(k, pair);
      if locked {
        SetLocks(tx, lks, now);
      } else {
        tx.db := tx.db.(locks := tx.db.locks - lks);
      }
      e := Pass;
    }

    /** The items of an instance that configure a pair. */
    method CollectConfiguring(a: Activation, id: InstId, pair: Pair) returns (ks: set<Key>)
      requires id in tx.db.instances
      ensures ks == Configuring(tx.db, a, id, pair)
    {
      var items := tx.db.instances[id].items;
      ks := {};
      for i := 0 to |items|
        invariant forall k :: k in ks <==> k in items[..i] && k in Configuring(tx.db, a, id, pair)
      {
        assert items[..i + 1] == items[..i] + [items[i]];
        var k := items[i];
        if k in tx.db.items && tx.db.items[k].ref in tx.db.sightings {
          var at := IndexOf(Configured(a.policy, tx.db.sightings[tx.db.items[k].ref]), pair);
          if at >= 0 {
            ks := ks + {k};
          }
        }
      }
      assert items[..|items|] == items;
    }

    method LogAttempts(attempts: seq<Download>) returns (e: Outcome<StoreError>)
      requires Valid()
      modifies tx
      ensures Valid()
      ensures Commits(e, old(tx.db), tx.db, RecordAttempts(old(tx.db), attempts))
    {
      hide Inv;
      for i := 0 to |attempts|
        invariant tx.db == old(tx.db) && forall j | 0 <= j < i :: !attempts[j].delivered && attempts[j].items != []
      {
        if attempts[i].delivered || attempts[i].items == [] {
          return Fail(BadWrite);
        }
      }
      RecordAttemptsKeeps(tx.db, active, attempts);
      AppendDownloads(tx, attempts);
      e := Pass;
    }
  }

  /* ---------- What the methods use of the invariant ---------- */

  lemma ValidIdentified(root: Root, items: seq<Item>)
    requires ValidReport(root, items)
    ensures Identified(items)
  {
  }

  lemma AgreesAt(db: Db, active: Option<Activation>)
    requires Inv(db, active) && active.Some?
    ensures Inv(db, Some(active.value))
  {
  }

  lemma InvZero(db: Db, active: Option<Activation>)
    requires Inv(db, active)
    ensures 0 !in db.instances
  {
  }

  lemma StagedAttempts(inst: Instance, fk: FileKey, it: Intent)
    requires Staged(inst, fk, it)
    ensures it.Delivery? ==> it.attempts != []
  {
  }

  lemma ItemsOfIs(db: Db, db1: Db, id: InstId)
    requires db1.instances == db.instances && id in db.instances
    ensures ItemsOf(db, id) == set k | k in db1.instances[id].items
  {
  }

  /** Retiring adds no instance. */
  lemma {:induction false} RetireZero(o: Obs, refs: seq<ItemRef>)
    requires 0 !in o.db.instances
    ensures RetireAll(o, refs).Success? ==> 0 !in RetireAll(o, refs).value.db.instances
  {
    hide RetireOne;
    if refs != [] && RetireAll(o, refs).Success? {
      RetireZero(o, refs[..|refs| - 1]);
      ReleaseZero(RetireAll(o, refs[..|refs| - 1]).value, refs[|refs| - 1]);
    }
  }

  lemma ReleaseZero(o: Obs, ref: ItemRef)
    requires 0 !in o.db.instances && RetireOne(o, ref).Success?
    ensures 0 !in RetireOne(o, ref).value.db.instances
  {
    hide Release;
    var o1 := o.(db := o.db.(stamps := o.db.stamps - {ref}));
    if ref.item != "" && ref in o1.db.sightings {
      GiveUpZero(o1, ref, o1.db.sightings[ref]);
    }
  }

  lemma GiveUpZero(o: Obs, ref: ItemRef, was: Sighting)
    requires 0 !in o.db.instances && Release(o, ref, was).Success?
    ensures 0 !in Release(o, ref, was).value.db.instances
  {
    hide Detach;
    var o1 := o.(db := o.db.(overlaps := o.db.overlaps - {ref}));
    if was.key.Some? && was.key.value in o.db.items && o.db.items[was.key.value].ref == ref && o.db.items[was.key.value].inst != 0 {
      DetachZero(o1, o.db.items[was.key.value].inst, was.key.value);
    }
  }

  lemma DetachZero(o: Obs, id: InstId, k: Key)
    requires 0 !in o.db.instances && Detach(o, id, k).Success?
    ensures 0 !in Detach(o, id, k).value.db.instances
  {
    hide Without, Pinned;
  }

  /* ---------- Steps of a removal ---------- */

  function FactsOutside(db: Db, removed: set<SourceId>): Db {
    db.(roots := RootsOutside(db.roots, removed), sightings := RefsOutside(db.sightings, removed),
        stamps := RefsOutside(db.stamps, removed), overlaps := RefsOutside(db.overlaps, removed), passes := db.passes - removed)
  }

  lemma FactsNone(db: Db)
    ensures FactsOutside(db, {}) == db
  {
    assert RootsOutside(db.roots, {}) == db.roots && RefsOutside(db.sightings, {}) == db.sightings;
    assert RefsOutside(db.stamps, {}) == db.stamps && RefsOutside(db.overlaps, {}) == db.overlaps && db.passes - {} == db.passes;
    assert db.(roots := db.roots, sightings := db.sightings, stamps := db.stamps, overlaps := db.overlaps, passes := db.passes) == db;
  }

  lemma RefsMore<V>(rows: map<ItemRef, V>, done: set<SourceId>, src: SourceId)
    ensures RefsOutside(RefsOutside(rows, done), {src}) == RefsOutside(rows, done + {src})
  {
  }

  lemma FactsMore(db: Db, done: set<SourceId>, src: SourceId)
    ensures FactsOutside(FactsOutside(db, done), {src}) == FactsOutside(db, done + {src})
  {
    hide RefsOutside;
    RefsMore(db.sightings, done, src);
    RefsMore(db.stamps, done, src);
    RefsMore(db.overlaps, done, src);
    assert RootsOutside(RootsOutside(db.roots, done), {src}) == RootsOutside(db.roots, done + {src});
    assert db.passes - done - {src} == db.passes - (done + {src});
  }

  lemma PurgedParts(db: Db, removed: set<SourceId>, now: Time)
    ensures Purged(db, removed, now) == FactsOutside(db, removed).(instances := OrphanAll(db.instances, removed, now))
  {
    hide RefsOutside, RootsOutside, OrphanAll;
  }

  lemma StrandedStored(db: Db, removed: set<SourceId>)
    ensures Stranded(db, removed) <= db.items.Keys
  {
  }

  lemma RemovalSucceeds(db: Db, next: Activation, removed: set<SourceId>, now: Time)
    ensures Activations.RemoveSources(db, next, removed, now).Success?
  {
    hide HandOn, Purged, Stranded, OverlapsOutside;
    HandOnSucceeds(Purged(db, removed, now), next, Stranded(Purged(db, removed, now), removed));
  }
}
