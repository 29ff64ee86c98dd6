/** Every activation commits the invariant, judged under the new activation. */
module ActivationsKeep {
  import opened Wrappers
  import opened Media
  import opened Tables
  import opened Judging
  import opened Settlement
  import opened ClaimsKeep
  import opened SettlementKeeps
  import opened ObserveKeeps
  import opened Activations

  /** Equal digests name one policy. */
  ghost predicate DigestNames(active: Option<Activation>, next: Activation) {
    active.Some? && active.value.policy.digest == next.policy.digest ==> active.value.policy == next.policy
  }

  lemma PurgedLinks(db: Db, removed: set<SourceId>, now: Time)
    requires Linked(db.items, db.instances) && Owning(db.items, db.instances) && WellFormed(db.instances, db.lastInst) && NonEmpty(db.instances)
    ensures var instances := OrphanAll(db.instances, removed, now);
            Linked(db.items, instances) && Owning(db.items, instances) && WellFormed(instances, db.lastInst) && NonEmpty(instances)
  {
  }

  lemma PurgedNamed(db: Db, removed: set<SourceId>, now: Time)
    requires Linked(db.items, db.instances) && Owning(db.items, db.instances) && Named(db.items, db.instances, db.sightings, {})
    ensures Named(db.items, OrphanAll(db.instances, removed, now), RefsOutside(db.sightings, removed), Stranded(db, removed))
  {
    var instances := OrphanAll(db.instances, removed, now);
    forall k | k in db.items && Live(instances, db.items[k])
      ensures NamesClaim(RefsOutside(db.sightings, removed), instances, k, db.items[k]) || (db.items[k].inst == 0 && k in Stranded(db, removed))
    {
      assert Live(db.instances, db.items[k]);
      assert NamesClaim(db.sightings, db.instances, k, db.items[k]);
    }
  }

  lemma PurgedKept(db: Db, removed: set<SourceId>)
    requires Kept(db.items, db.sightings)
    ensures Kept(db.items, RefsOutside(db.sightings, removed))
  {
  }

  lemma PurgedStamped(db: Db, removed: set<SourceId>)
    requires Stamped(db.sightings, db.stamps, db.roots, db.passes, db.lastPass)
    ensures Stamped(RefsOutside(db.sightings, removed), RefsOutside(db.stamps, removed), RootsOutside(db.roots, removed), db.passes - removed, db.lastPass)
  {
    var stamps := RefsOutside(db.stamps, removed);
    forall rr | rr in RootsOutside(db.roots, removed)
      ensures ItemRef(rr, "") in stamps
    {
      assert ItemRef(rr, "").root == rr;
    }
  }

  lemma PurgedSourced(db: Db, next: set<SourceId>, now: Time)
    requires Sourced(db.stored.sources, db.roots, db.passes, db.instances)
    ensures var removed := db.stored.sources - next;
            Sourced(next, RootsOutside(db.roots, removed), db.passes - removed, OrphanAll(db.instances, removed, now))
  {
  }

  lemma PurgedOverlapping(db: Db, next: set<SourceId>)
    requires Overlapping(db.stored.sources, db.overlaps, db.sightings)
    ensures var removed := db.stored.sources - next;
            Overlapping(next, OverlapsOutside(RefsOutside(db.overlaps, removed), removed), RefsOutside(db.sightings, removed))
  {
  }

  lemma PurgedHeld(db: Db, removed: set<SourceId>, now: Time)
    requires Held(db.instances, db.files, db.baselines, db.local, db.embedded) && Staging(db.instances, db.intents)
    ensures Held(OrphanAll(db.instances, removed, now), db.files, db.baselines, db.local, db.embedded)
    ensures Staging(OrphanAll(db.instances, removed, now), db.intents)
  {
  }

  lemma PurgedCurrent(db: Db, a: Activation, removed: set<SourceId>, now: Time)
    requires Linked(db.items, db.instances) && Owning(db.items, db.instances) && Current(db, a, {})
    ensures Current(Purged(db, removed, now), a, Stranded(db, removed))
  {
    var after := Purged(db, removed, now);
    forall k | k in after.items && Live(after.instances, after.items[k]) && k !in Stranded(db, removed)
      ensures Fresh(after, a, k)
    {
      assert Live(db.instances, db.items[k]);
      assert Fresh(db, a, k);
      assert db.items[k].ref.root.source !in removed;
      FreshFrame(db, after, a, k);
    }
  }

  /** Judgement rests on an activation's policy and codecs alone. */
  lemma CurrentUnder(db: Db, a: Activation, next: Activation, stale: set<Key>)
    requires Current(db, a, stale) && next.policy == a.policy && next.codecs == a.codecs
    ensures Current(db, next, stale)
  {
    forall k | k in db.items && Live(db.instances, db.items[k]) && k !in stale
      ensures Fresh(db, next, k)
    {
      assert Fresh(db, a, k);
    }
  }

  lemma CurrentNone(db: Db, a: Activation)
    ensures Current(db, a, db.items.Keys)
  {
  }

  /** Everything but coverage, for the sources given. */
  ghost predicate SoundFor(db: Db, sources: set<SourceId>) {
    && Whole(db) && NonEmpty(db.instances)
    && Stamped(db.sightings, db.stamps, db.roots, db.passes, db.lastPass)
    && Sourced(sources, db.roots, db.passes, db.instances)
    && Overlapping(sources, db.overlaps, db.sightings)
    && Held(db.instances, db.files, db.baselines, db.local, db.embedded)
    && Staging(db.instances, db.intents)
  }

  lemma RemoveSourcesKeeps(db: Db, next: Activation, now: Time, stale: set<Key>)
    requires Sound(db) && Current(Purged(db, db.stored.sources - next.sources, now), next, stale)
    ensures var removed := db.stored.sources - next.sources;
            var r := RemoveSources(db, next, removed, now);
            && r.Success? && SoundFor(r.value, next.sources) && Current(r.value, next, stale - Stranded(db, removed))
            && r.value.stored == db.stored && r.value.items.Keys <= db.items.Keys
  {
    hide Linked, Owning, WellFormed, Named, Kept, Stamped, Sourced, Overlapping, Held, Staging, NoStray, NonEmpty, Current, HandOn;
    hide OrphanAll, RefsOutside, RootsOutside, Stranded, OverlapsOutside;
    var removed := db.stored.sources - next.sources;
    var db1 := Purged(db, removed, now);
    PurgedLinks(db, removed, now);
    PurgedNamed(db, removed, now);
    PurgedKept(db, removed);
    PurgedStamped(db, removed);
    PurgedSourced(db, next.sources, now);
    PurgedOverlapping(db, next.sources);
    PurgedHeld(db, removed, now);
    StrandedLoose(db, db1, removed);
    HandOnKeeps(db1, next, stale, Stranded(db1, removed));
    var db2 := HandOn(db1, next, Stranded(db1, removed)).value;
    BequeathFewer(db1, Stranded(db1, removed));
    WholeOn(db2, db2.(overlaps := OverlapsOutside(db2.overlaps, removed)));
    CurrentOn(db2, db2.(overlaps := OverlapsOutside(db2.overlaps, removed)), next, stale - Stranded(db1, removed));
  }

  lemma StrandedLoose(db: Db, db1: Db, removed: set<SourceId>)
    requires db1.items == db.items
    ensures Stranded(db1, removed) == Stranded(db, removed) && Loose(db1, Stranded(db1, removed))
  {
  }

  lemma BequeathFewer(db: Db, lost: set<Key>)
    ensures Bequeathed(db, lost).items.Keys <= db.items.Keys
  {
  }

  lemma WholeOn(db: Db, db1: Db)
    requires Whole(db) && db1 == db.(overlaps := db1.overlaps)
    ensures Whole(db1)
  {
  }

  lemma WholeStored(db: Db, db1: Db, sources: set<SourceId>)
    requires SoundFor(db, sources) && db1 == db.(stored := db1.stored)
    ensures SoundFor(db1, sources)
  {
  }

  lemma SoundForWider(db: Db, next: Activation)
    requires Sound(db) && db.stored.sources <= next.sources
    ensures SoundFor(db, next.sources)
  {
    hide Linked, Owning, WellFormed, Named, Kept, Stamped, Held, Staging, NoStray, NonEmpty;
  }

  lemma AppliedSound(db: Db, next: Activation, now: Time, stale: set<Key>)
    requires Sound(db) && Current(db, next, stale) && Current(Purged(db, db.stored.sources - next.sources, now), next, stale + Stranded(db, db.stored.sources - next.sources))
    ensures var r := Applied(db, next, now);
            && r.Success? && SoundFor(r.value, next.sources) && Current(r.value, next, stale)
            && r.value.stored == StoredOf(next) && r.value.items.Keys <= db.items.Keys
  {
    hide Sound, SoundFor, RemoveSources, Current, Purged, Stranded;
    var removed := db.stored.sources - next.sources;
    if removed == {} {
      assert forall s | s in db.stored.sources :: s in removed || s in next.sources;
      SoundForWider(db, next);
      WholeStored(db, db.(stored := StoredOf(next)), next.sources);
      CurrentOn(db, db.(stored := StoredOf(next)), next, stale);
    } else {
      RemoveSourcesKeeps(db, next, now, stale + Stranded(db, removed));
      var d := RemoveSources(db, next, removed, now).value;
      WholeStored(d, d.(stored := StoredOf(next)), next.sources);
      CurrentWider(d, next, stale + Stranded(db, removed) - Stranded(db, removed), stale);
      CurrentOn(d, d.(stored := StoredOf(next)), next, stale);
    }
  }

  lemma CurrentWider(db: Db, a: Activation, stale: set<Key>, more: set<Key>)
    requires Current(db, a, stale) && stale <= more
    ensures Current(db, a, more)
  {
  }

  lemma SoundForIs(db: Db, a: Activation)
    requires SoundFor(db, a.sources) && db.stored == StoredOf(a) && Current(db, a, {})
    ensures Inv(db, Some(a))
  {
    hide Linked, Owning, WellFormed, Named, Kept, Stamped, Sourced, Overlapping, Held, Staging, NoStray, NonEmpty, Current;
  }

  /** No activation is refused once normalized: coverage is then exactly what
      the new activation judges, whatever was in force before. */
  lemma ActivateKeeps(db: Db, active: Option<Activation>, next: Activation, now: Time)
    requires Inv(db, active) && DigestNames(active, next)
    ensures Activate(db, active, next, now).Success?
    ensures Inv(Activate(db, active, next, now).value, Some(next))
  {
    hide Sound, SoundFor, Current, Purged, Stranded, Applied, Recompute;
    var removed := db.stored.sources - next.sources;
    if Recomputes(db, active, next) {
      var all := db.items.Keys;
      CurrentNone(db, next);
      PurgedNone(db, next, removed, now);
      AppliedSound(db, next, now, all);
      var db1 := Applied(db, next, now).value;
      CurrentNone(db1, next);
      RecomputeAllKeeps(db1, next);
    } else {
      CurrentUnder(db, active.value, next, {});
      SoundParts(db);
      PurgedCurrent(db, next, removed, now);
      assert {} + Stranded(db, removed) == Stranded(db, removed);
      AppliedSound(db, next, now, {});
      SoundForIs(Applied(db, next, now).value, next);
    }
  }

  lemma SoundParts(db: Db)
    requires Sound(db)
    ensures Linked(db.items, db.instances) && Owning(db.items, db.instances)
  {
  }

  lemma PurgedNone(db: Db, next: Activation, removed: set<SourceId>, now: Time)
    ensures Current(Purged(db, removed, now), next, db.items.Keys + Stranded(db, removed))
  {
  }

  lemma RecomputeAllKeeps(db: Db, a: Activation)
    requires SoundFor(db, a.sources) && db.stored == StoredOf(a) && Current(db, a, db.items.Keys)
    ensures Recompute(db, a, db.items.Keys, false).Success?
    ensures Inv(Recompute(db, a, db.items.Keys, false).value, Some(a))
  {
    hide Whole, Stamped, Sourced, Overlapping, Held, Staging, NonEmpty, Current, Recompute;
    RecomputeKeeps(db, a, db.items.Keys, db.items.Keys, false);
    var after := Recompute(db, a, db.items.Keys, false).value;
    assert db.items.Keys - db.items.Keys == {};
    SoundForIs(after, a);
  }
}
