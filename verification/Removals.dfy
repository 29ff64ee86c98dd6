/** What installing an activation leaves: the removed sources' facts gone, what
    they owned ownerless from now on, and everything else as it was. */
module Removals {
  import opened Wrappers
  import opened Media
  import opened Tables
  import opened Claims
  import opened Judging
  import opened Settlement
  import opened Activations
  import opened Heirs
  import Pins

  predicate SameRow<K, V(==)>(rows: map<K, V>, after: map<K, V>, x: K) {
    (x in after <==> x in rows) && (x in rows ==> after[x] == rows[x])
  }

  /** Only rows of other sources are left, as they were; of the overlaps, only
      those that name no removed source either. */
  ghost predicate FactsRemoved(db: Db, after: Db, removed: set<SourceId>) {
    && (forall rr: RootRef :: if rr.source in removed then rr !in after.roots else SameRow(db.roots, after.roots, rr))
    && (forall ref: ItemRef :: if ref.root.source in removed then ref !in after.sightings else SameRow(db.sightings, after.sightings, ref))
    && (forall ref: ItemRef :: if ref.root.source in removed then ref !in after.stamps else SameRow(db.stamps, after.stamps, ref))
    && (forall src :: if src in removed then src !in after.passes else SameRow(db.passes, after.passes, src))
    && (forall ref: ItemRef ::
          if ref.root.source in removed || (ref in db.overlaps && db.overlaps[ref].owner in removed) then ref !in after.overlaps
          else SameRow(db.overlaps, after.overlaps, ref))
  }

  /** No instance goes: a removed source's has no owner from now on. */
  ghost predicate InstancesOrphaned(db: Db, after: Db, removed: set<SourceId>, now: Time) {
    && after.instances.Keys == db.instances.Keys && after.lastInst == db.lastInst
    && forall id | id in db.instances ::
         after.instances[id] == match db.instances[id].owner
                                case Some(src) => if src in removed then db.instances[id].(owner := None, orphaned := now) else db.instances[id]
                                case None => db.instances[id]
  }

  /** A key with no video whose record a removed source had is handed on; every
      other record stays, even of an instance now ownerless. A key forgotten
      loses its locks. */
  ghost predicate KeysLeft(db: Db, after: Db, removed: set<SourceId>) {
    && (forall k ::
          if k in db.items && db.items[k].inst == 0 && db.items[k].ref.root.source in removed then Inherits(after.sightings, after.items, k)
          else RecordOf(after.items, k) == RecordOf(db.items, k))
    && (forall lk | lk in after.locks ::
          lk in db.locks && after.locks[lk] == db.locks[lk] && (lk.key in db.items ==> lk.key in after.items))
  }

  ghost predicate WritesKept(db: Db, after: Db) {
    && after.files == db.files && after.baselines == db.baselines && after.local == db.local && after.embedded == db.embedded
    && after.intents == db.intents && after.downloads == db.downloads && after.lastPass == db.lastPass
  }

  ghost predicate SourcesRemoved(db: Db, after: Db, removed: set<SourceId>, now: Time) {
    FactsRemoved(db, after, removed) && InstancesOrphaned(db, after, removed, now) && KeysLeft(db, after, removed) && WritesKept(db, after)
  }

  lemma PurgedFacts(db: Db, removed: set<SourceId>, now: Time)
    ensures var after := Purged(db, removed, now);
            FactsRemoved(db, after.(overlaps := OverlapsOutside(after.overlaps, removed)), removed)
  {
    hide RefsOutside, RootsOutside, OverlapsOutside, OrphanAll;
    RefsLeft(db.sightings, removed);
    RefsLeft(db.stamps, removed);
    RefsLeft(db.overlaps, removed);
    OthersLeft(db, RefsOutside(db.overlaps, removed), removed);
  }

  lemma RefsLeft<V>(rows: map<ItemRef, V>, removed: set<SourceId>)
    ensures forall ref: ItemRef :: if ref.root.source in removed then ref !in RefsOutside(rows, removed) else SameRow(rows, RefsOutside(rows, removed), ref)
  {
  }

  lemma OthersLeft(db: Db, overlaps: map<ItemRef, Overlap>, removed: set<SourceId>)
    ensures forall rr: RootRef :: if rr.source in removed then rr !in RootsOutside(db.roots, removed) else SameRow(db.roots, RootsOutside(db.roots, removed), rr)
    ensures forall ref :: if ref in overlaps && overlaps[ref].owner in removed then ref !in OverlapsOutside(overlaps, removed)
                          else SameRow(overlaps, OverlapsOutside(overlaps, removed), ref)
  {
  }

  lemma PurgedInstances(db: Db, removed: set<SourceId>, now: Time)
    ensures InstancesOrphaned(db, Purged(db, removed, now), removed, now)
  {
  }

  lemma HandOnLocks(db: Db, a: Activation, lost: set<Key>)
    requires HandOn(db, a, lost).Success?
    ensures var after := HandOn(db, a, lost).value;
            forall lk | lk in after.locks :: lk in db.locks && after.locks[lk] == db.locks[lk] && (lk.key in db.items ==> lk.key in after.items)
  {
    hide Heir, KeepsLock, NewCoverage;
  }

  lemma RecomputeFewer(db: Db, a: Activation, ks: set<Key>, inventory: bool)
    requires Recompute(db, a, ks, inventory).Success?
    ensures forall lk | lk in Recompute(db, a, ks, inventory).value.locks :: lk in db.locks && Recompute(db, a, ks, inventory).value.locks[lk] == db.locks[lk]
  {
    hide KeepsLock, NewCoverage;
  }

  lemma RemoveSourcesLeaves(db: Db, next: Activation, removed: set<SourceId>, now: Time)
    requires RemoveSources(db, next, removed, now).Success?
    ensures SourcesRemoved(db, RemoveSources(db, next, removed, now).value, removed, now)
  {
    hide HandOn, FactsRemoved, InstancesOrphaned, OrphanAll, RefsOutside, RootsOutside, OverlapsOutside, Inherits, Inherited;
    var db1 := Purged(db, removed, now);
    var lost := Stranded(db1, removed);
    var db2 := HandOn(db1, next, lost).value;
    PurgedFacts(db, removed, now);
    PurgedInstances(db, removed, now);
    Pins.HandOnFrame(db1, next, lost);
    HandOnItems(db1, next, lost);
    HandOnLocks(db1, next, lost);
    forall k
      ensures if k in db1.items && k in lost then Inherits(db1.sightings, Inherited(db1, lost), k)
              else RecordOf(Inherited(db1, lost), k) == RecordOf(db1.items, k)
    {
      InheritedRecord(db1, lost, k);
    }
    var after := db2.(overlaps := OverlapsOutside(db2.overlaps, removed));
    FactsOn(db, db1.(overlaps := OverlapsOutside(db1.overlaps, removed)), after, removed);
    InstancesOn(db, db1, after, removed, now);
  }

  lemma FactsOn(db: Db, after: Db, after1: Db, removed: set<SourceId>)
    requires FactsRemoved(db, after, removed)
    requires after1 == after.(items := after1.items, coverage := after1.coverage, locks := after1.locks)
    ensures FactsRemoved(db, after1, removed)
  {
  }

  lemma InstancesOn(db: Db, after: Db, after1: Db, removed: set<SourceId>, now: Time)
    requires InstancesOrphaned(db, after, removed, now) && after1.instances == after.instances && after1.lastInst == after.lastInst
    ensures InstancesOrphaned(db, after1, removed, now)
  {
  }

  lemma NoneRemoved(db: Db, now: Time)
    ensures SourcesRemoved(db, db, {}, now)
  {
    hide Inherits;
  }

  lemma RemovedOn(db: Db, after: Db, after1: Db, removed: set<SourceId>, now: Time)
    requires SourcesRemoved(db, after, removed, now)
    requires after1 == after.(stored := after1.stored, coverage := after1.coverage, locks := after1.locks)
    requires forall lk | lk in after1.locks :: lk in after.locks && after1.locks[lk] == after.locks[lk]
    ensures SourcesRemoved(db, after1, removed, now)
  {
    hide Inherits;
  }

  lemma AppliedRemoves(db: Db, next: Activation, now: Time)
    requires Applied(db, next, now).Success?
    ensures SourcesRemoved(db, Applied(db, next, now).value, db.stored.sources - next.sources, now)
    ensures Applied(db, next, now).value.stored == StoredOf(next)
  {
    hide RemoveSources, SourcesRemoved;
    var removed := db.stored.sources - next.sources;
    var db1 := Applied(db, next, now).value;
    if db.stored == StoredOf(next) {
      assert removed == {};
      NoneRemoved(db, now);
    } else if removed == {} {
      NoneRemoved(db, now);
      RemovedOn(db, db, db1, removed, now);
    } else {
      RemoveSourcesLeaves(db, next, removed, now);
      RemovedOn(db, RemoveSources(db, next, removed, now).value, db1, removed, now);
    }
  }

  /** Whatever was in force before, an activation that is installed removes just
      the sources it no longer names, and is the one stored. */
  lemma ActivateRemoves(db: Db, active: Option<Activation>, next: Activation, now: Time)
    requires Activate(db, active, next, now).Success?
    ensures var after := Activate(db, active, next, now).value;
            && SourcesRemoved(db, after, db.stored.sources - next.sources, now)
            && after.stored == Stored(next.sources, next.codecs, Some(next.policy.digest))
  {
    hide Applied, SourcesRemoved, Recompute, Recomputes;
    AppliedRemoves(db, next, now);
    if Recomputes(db, active, next) {
      var db1 := Applied(db, next, now).value;
      Pins.RecomputeFrame(db1, next, db1.items.Keys, false);
      RecomputeFewer(db1, next, db1.items.Keys, false);
      RemovedOn(db, db1, Activate(db, active, next, now).value, db.stored.sources - next.sources, now);
    }
  }
}
