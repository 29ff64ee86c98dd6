/** Installing an activation: removed sources' facts go, their instances stay. */
module Activations {
  import opened Wrappers
  import opened Media
  import opened Languages
  import opened Tables
  import opened Claims
  import opened Judging
  import opened Settlement

  /** The activation a configuration asks for; a source named twice, or with
      no name, is refused. */
  function Normalize(policy: Policy, sources: seq<SourceId>, codecs: seq<string>): Result<Activation, StoreError> {
    if !NoRepeat(sources) || "" in sources then Failure(BadActivation)
    else Success(Activation(policy, set s | s in sources, set c | c in codecs))
  }

  function StoredOf(a: Activation): Stored {
    Stored(a.sources, a.codecs, Some(a.policy.digest))
  }

  function Orphaned(inst: Instance, removed: set<SourceId>, now: Time): Instance {
    if inst.owner.Some? && inst.owner.value in removed then inst.(owner := None, orphaned := now) else inst
  }

  function OrphanAll(instances: map<InstId, Instance>, removed: set<SourceId>, now: Time): map<InstId, Instance> {
    map id | id in instances :: Orphaned(instances[id], removed, now)
  }

  function RefsOutside<V>(rows: map<ItemRef, V>, removed: set<SourceId>): map<ItemRef, V> {
    map ref | ref in rows && ref.root.source !in removed :: rows[ref]
  }

  function RootsOutside(roots: map<RootRef, Root>, removed: set<SourceId>): map<RootRef, Root> {
    map rr | rr in roots && rr.source !in removed :: roots[rr]
  }

  /** The tables without what some sources reported; what they own is ownerless. */
  function Purged(db: Db, removed: set<SourceId>, now: Time): Db {
    db.(roots := RootsOutside(db.roots, removed),
        sightings := RefsOutside(db.sightings, removed),
        stamps := RefsOutside(db.stamps, removed),
        overlaps := RefsOutside(db.overlaps, removed),
        passes := db.passes - removed,
        instances := OrphanAll(db.instances, removed, now))
  }

  /** The recorded keys with no video that rested on a removed source. */
  function Stranded(db: Db, removed: set<SourceId>): set<Key> {
    set k | k in db.items && db.items[k].inst == 0 && db.items[k].ref.root.source in removed
  }

  function OverlapsOutside(overlaps: map<ItemRef, Overlap>, removed: set<SourceId>): map<ItemRef, Overlap> {
    map ref | ref in overlaps && overlaps[ref].owner !in removed :: overlaps[ref]
  }

  ghost function RemoveSources(db: Db, next: Activation, removed: set<SourceId>, now: Time): Result<Db, StoreError> {
    var db1 := Purged(db, removed, now);
    var db2 :- HandOn(db1, next, Stranded(db1, removed));
    Success(db2.(overlaps := OverlapsOutside(db2.overlaps, removed)))
  }

  predicate Recomputes(db: Db, active: Option<Activation>, next: Activation) {
    active.None? || db.stored.digest != Some(next.policy.digest) || db.stored.codecs != next.codecs
  }

  /** The tables once the removals, if any, are done. */
  ghost function Applied(db: Db, next: Activation, now: Time): Result<Db, StoreError> {
    var removed := db.stored.sources - next.sources;
    if db.stored == StoredOf(next) then Success(db)
    else
      var d :- (if removed == {} then Success(db) else RemoveSources(db, next, removed, now));
      Success(d.(stored := StoredOf(next)))
  }

  /** One write under the new activation: removals when the stored one differs,
      every key's coverage when the policy or codecs do, or on the first call
      after Open. */
  ghost function Activate(db: Db, active: Option<Activation>, next: Activation, now: Time): Result<Db, StoreError> {
    var db1 :- Applied(db, next, now);
    if Recomputes(db, active, next) then Recompute(db1, next, db1.items.Keys, false) else Success(db1)
  }
}
