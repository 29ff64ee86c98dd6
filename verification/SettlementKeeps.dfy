/** Settling an observing write makes the suspended invariant whole again. */
module SettlementKeeps {
  import opened Wrappers
  import opened Media
  import opened Tables
  import opened Claims
  import opened Judging
  import opened Settlement
  import opened ClaimsKeep

  /* ---------- Emptied instances go ---------- */

  lemma DropLinks(items: map<Key, Record>, instances: map<InstId, Instance>, last: InstId, ids: set<InstId>)
    requires Linked(items, instances) && Owning(items, instances) && WellFormed(instances, last)
    requires forall id | id in ids && id in instances :: instances[id].items == []
    ensures Linked(items, instances - ids) && Owning(items, instances - ids) && WellFormed(instances - ids, last)
  {
  }

  lemma DropNamed(items: map<Key, Record>, instances: map<InstId, Instance>, sightings: map<ItemRef, Sighting>, released: set<Key>, ids: set<InstId>)
    requires Linked(items, instances) && Named(items, instances, sightings, released)
    requires forall id | id in ids && id in instances :: instances[id].items == []
    ensures Named(items, instances - ids, sightings, released)
  {
  }

  lemma DropRows(db: Db, ids: set<InstId>)
    requires Rows(db)
    requires forall id | id in ids && id in db.instances :: db.instances[id].items == []
    ensures Rows(DropInstances(db, ids))
  {
    hide Overlapping, NoStray;
    var after := DropInstances(db, ids);
    DropHeldMany(db, ids);
    DropStaging(db.instances, db.intents, ids);
  }

  lemma DropHeldMany(db: Db, ids: set<InstId>)
    requires Held(db.instances, db.files, db.baselines, db.local, db.embedded)
    ensures var after := DropInstances(db, ids);
            Held(after.instances, after.files, after.baselines, after.local, after.embedded)
  {
  }

  lemma DropStaging(instances: map<InstId, Instance>, intents: map<FileKey, Intent>, ids: set<InstId>)
    requires Staging(instances, intents)
    requires forall id | id in ids && id in instances :: instances[id].items == []
    ensures Staging(instances - ids, intents)
  {
  }

  lemma DropCurrent(db: Db, a: Activation, stale: set<Key>, ids: set<InstId>)
    requires Linked(db.items, db.instances) && Current(db, a, stale)
    requires forall id | id in ids && id in db.instances :: db.instances[id].items == []
    ensures Current(DropInstances(db, ids), a, stale)
  {
    hide Fresh;
    var after := DropInstances(db, ids);
    forall k | k in after.items && Live(after.instances, after.items[k]) && k !in stale
      ensures Fresh(after, a, k)
    {
      FreshSighting(db, a, k);
      if db.items[k].inst != 0 {
        DropEvidence(db, ids, a.codecs, db.items[k].inst);
      }
      FreshFrame(db, after, a, k);
    }
  }

  lemma FreshSighting(db: Db, a: Activation, k: Key)
    requires k in db.items && Fresh(db, a, k)
    ensures db.items[k].ref in db.sightings
  {
  }

  lemma DropEmptiedKeeps(o: Obs, a: Activation)
    requires Weak(o, a)
    ensures Weak(DropEmptied(o), a) && NonEmpty(DropEmptied(o).db.instances)
  {
    hide Linked, Owning, WellFormed, Named, Kept, Rows, Stamped, Current, EmptiedRoots;
    var ids := StillEmpty(o);
    DropLinks(o.db.items, o.db.instances, o.db.lastInst, ids);
    DropNamed(o.db.items, o.db.instances, o.db.sightings, o.released, ids);
    DropRows(o.db, ids);
    DropCurrent(o.db, a, o.touched, ids);
  }

  /* ---------- The key-loss rule ---------- */

  /** The keys handed on or lost are recorded and name no instance. */
  ghost predicate Loose(db: Db, lost: set<Key>) {
    forall k | k in lost :: k in db.items && db.items[k].inst == 0
  }

  lemma BequeathLinks(db: Db, lost: set<Key>)
    requires Linked(db.items, db.instances) && Owning(db.items, db.instances) && Loose(db, lost) && 0 !in db.instances
    ensures Linked(Bequeathed(db, lost).items, db.instances) && Owning(Bequeathed(db, lost).items, db.instances)
  {
  }

  lemma BequeathNamed(db: Db, lost: set<Key>)
    requires Named(db.items, db.instances, db.sightings, lost)
    ensures Named(Bequeathed(db, lost).items, db.instances, db.sightings, {})
  {
    var after := Bequeathed(db, lost);
    forall k | k in after.items && Live(db.instances, after.items[k])
      ensures NamesClaim(db.sightings, db.instances, k, after.items[k])
    {
      if k in lost {
        assert after.items[k].ref in Claimants(db.sightings, k);
      }
    }
  }

  /** A key is lost only when no sighting claims it with no video. */
  lemma BequeathKept(db: Db, lost: set<Key>)
    requires Kept(db.items, db.sightings)
    ensures Kept(Bequeathed(db, lost).items, db.sightings)
  {
    forall ref, k | ref in db.sightings && db.sightings[ref].ClaimsBare(k)
      ensures k in Bequeathed(db, lost).items
    {
      HeirExists(db.sightings, k, ref);
    }
  }

  lemma BequeathNoStray(db: Db, lost: set<Key>)
    requires NoStray(db.coverage, db.items)
    ensures NoStray(Bequeathed(db, lost).coverage, Bequeathed(db, lost).items)
  {
  }

  lemma BequeathCurrent(db: Db, a: Activation, stale: set<Key>, lost: set<Key>)
    requires Current(db, a, stale)
    ensures Current(Bequeathed(db, lost), a, stale + lost)
  {
    var after := Bequeathed(db, lost);
    forall k | k in after.items && Live(after.instances, after.items[k]) && k !in stale + lost
      ensures Fresh(after, a, k)
    {
      assert Fresh(db, a, k);
      assert EvidenceOf(after, a.codecs, db.items[k].inst) == EvidenceOf(db, a.codecs, db.items[k].inst);
    }
  }

  lemma NoneBroken(db: Db, ks: set<Key>)
    requires Linked(db.items, db.instances)
    requires Named(db.items, db.instances, db.sightings, {})
    ensures !AnyBroken(db, ks)
    ensures forall k | k in ks && k in db.items && Live(db.instances, db.items[k]) :: db.items[k].ref in db.sightings
  {
  }

  /** Ownership as it is at a commit, but for which instances are empty. */
  ghost predicate Whole(db: Db) {
    && Linked(db.items, db.instances)
    && Owning(db.items, db.instances)
    && WellFormed(db.instances, db.lastInst)
    && Named(db.items, db.instances, db.sightings, {})
    && Kept(db.items, db.sightings)
    && NoStray(db.coverage, db.items)
  }

  /** Handing on never meets a row that is gone, and leaves ownership whole. */
  lemma HandOnKeeps(db: Db, a: Activation, stale: set<Key>, lost: set<Key>)
    requires Linked(db.items, db.instances) && Owning(db.items, db.instances) && WellFormed(db.instances, db.lastInst)
    requires Named(db.items, db.instances, db.sightings, lost) && Kept(db.items, db.sightings) && NoStray(db.coverage, db.items)
    requires Loose(db, lost) && Current(db, a, stale)
    ensures HandOn(db, a, lost).Success?
    ensures var after := HandOn(db, a, lost).value;
            && Whole(after) && Current(after, a, stale - lost)
            && after == db.(items := Bequeathed(db, lost).items, coverage := after.coverage, locks := after.locks)
  {
    hide Linked, Owning, WellFormed, Named, Kept, NoStray, Current, Inherited, NewCoverage, KeptLocks, LocksWithout;
    var mid := Bequeathed(db, lost);
    var ks := lost - Heirless(db.sightings, lost);
    ZeroUnused(db.instances, db.lastInst);
    BequeathLinks(db, lost);
    BequeathNamed(db, lost);
    BequeathKept(db, lost);
    BequeathNoStray(db, lost);
    BequeathCurrent(db, a, stale, lost);
    NoneBroken(mid, ks);
    RecomputedNoStray(mid, a, ks, false);
    RecomputedCurrent(mid, a, stale + lost, ks, false);
    GoneUnrecorded(db, lost);
    CurrentNarrow(Recomputed(mid, a, ks, false), a, stale + lost - ks, stale - lost);
  }

  lemma ZeroUnused(instances: map<InstId, Instance>, last: InstId)
    requires WellFormed(instances, last)
    ensures 0 !in instances
  {
  }

  lemma GoneUnrecorded(db: Db, lost: set<Key>)
    ensures forall k | k in Bequeathed(db, lost).items :: k !in Heirless(db.sightings, lost)
  {
  }

  lemma CurrentNarrow(db: Db, a: Activation, stale: set<Key>, less: set<Key>)
    requires Current(db, a, stale)
    requires forall k | k in stale && k in db.items :: k in less
    ensures Current(db, a, less)
  {
  }

  /* ---------- The whole of settling ---------- */

  lemma UnheldNamed(o: Obs)
    requires Named(o.db.items, o.db.instances, o.db.sightings, o.released)
    ensures Named(o.db.items, o.db.instances, o.db.sightings, Unheld(o)) && Loose(o.db, Unheld(o))
  {
  }

  lemma RecomputeKeeps(db: Db, a: Activation, stale: set<Key>, ks: set<Key>, inventory: bool)
    requires Whole(db) && Current(db, a, stale)
    ensures Recompute(db, a, ks, inventory).Success?
    ensures var after := Recompute(db, a, ks, inventory).value;
            && Whole(after) && Current(after, a, stale - ks)
            && after == db.(coverage := after.coverage, locks := after.locks)
  {
    hide Linked, Owning, WellFormed, Named, Kept, NoStray, Current, NewCoverage, KeptLocks;
    NoneBroken(db, ks);
    RecomputedNoStray(db, a, ks, inventory);
    RecomputedCurrent(db, a, stale, ks, inventory);
  }

  /** From the suspended invariant, settling always succeeds and restores the
      invariant every commit keeps. */
  lemma SettleKeeps(o: Obs, a: Activation)
    requires Weak(o, a)
    ensures Settle(o, a).Success?
    ensures Inv(Settle(o, a).value.db, Some(a))
    ensures var after := Settle(o, a).value.db;
            after.sightings == o.db.sightings && after.stamps == o.db.stamps && after.roots == o.db.roots && after.intents == o.db.intents
            && after.instances == DropEmptied(o).db.instances && after.files == DropEmptied(o).db.files && after.passes == o.db.passes
            && after.stored == o.db.stored && after.lastPass == o.db.lastPass && after.downloads == o.db.downloads
  {
    hide Linked, Owning, WellFormed, Named, Kept, Stamped, Sourced, Overlapping, Held, Staging, NonEmpty, NoStray, Current;
    hide HandOn, Recompute, Unheld, EmptiedRoots, RowsWithout;
    var o1 := DropEmptied(o);
    DropEmptiedKeeps(o, a);
    var lost := Unheld(o1);
    UnheldNamed(o1);
    HandOnKeeps(o1.db, a, o1.touched, lost);
    var db1 := HandOn(o1.db, a, lost).value;
    RecomputeKeeps(db1, a, o1.touched - lost, o1.touched - lost, false);
    assert o1.touched - lost - (o1.touched - lost) == {};
  }
}
