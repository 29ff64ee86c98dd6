/** Rewriting stored coverage and locks from what is stored. */
module Judging {
  import opened Wrappers
  import opened Media
  import opened Tables
  import opened Claims

  /** A record naming an instance or, being live, a sighting that is gone. */
  predicate Broken(db: Db, rec: Record) {
    (rec.inst != 0 && rec.inst !in db.instances) || (Live(db.instances, rec) && rec.ref !in db.sightings)
  }

  ghost predicate AnyBroken(db: Db, ks: set<Key>) {
    exists k :: k in ks && k in db.items && Broken(db, db.items[k])
  }

  /** The keys of ks a recompute rewrites: recorded and live. */
  ghost function Judgeable(db: Db, ks: set<Key>): set<Key> {
    set k | k in ks && k in db.items && Live(db.instances, db.items[k]) && db.items[k].ref in db.sightings
  }

  ghost function JudgedAt(db: Db, a: Activation, k: Key): seq<Covering>
    requires k in db.items && db.items[k].ref in db.sightings
  {
    Judged(a.policy, db.sightings[db.items[k].ref], RecordEvidence(db, a.codecs, db.items[k]))
  }

  ghost function NewCoverage(db: Db, a: Activation, js: set<Key>): map<Key, seq<Covering>>
    requires forall k | k in js :: k in db.items && db.items[k].ref in db.sightings
  {
    map k | k in db.coverage.Keys + js && (k in js ==> JudgedAt(db, a, k) != []) ::
      if k in js then JudgedAt(db, a, k) else db.coverage[k]
  }

  /** Whether instance id's inventory is complete: probed and listed. */
  predicate Complete(db: Db, id: InstId) {
    id != 0 && id in db.local && id in db.embedded
  }

  /** Whether a recompute of its key keeps a lock. */
  ghost predicate KeepsLock(db: Db, a: Activation, lk: LockKey, inventory: bool)
    requires lk.key in db.items && db.items[lk.key].ref in db.sightings
  {
    var rec := db.items[lk.key];
    && lk.pair in Configured(a.policy, db.sightings[rec.ref])
    && (inventory && Complete(db, rec.inst) ==> Servable(a.policy, lk.pair, RecordEvidence(db, a.codecs, rec)))
  }

  ghost function KeptLocks(db: Db, a: Activation, js: set<Key>, inventory: bool): map<LockKey, Time>
    requires forall k | k in js :: k in db.items && db.items[k].ref in db.sightings
  {
    map lk | lk in db.locks && (lk.key in js ==> KeepsLock(db, a, lk, inventory)) :: db.locks[lk]
  }

  ghost function Recomputed(db: Db, a: Activation, ks: set<Key>, inventory: bool): Db {
    var js := Judgeable(db, ks);
    db.(coverage := NewCoverage(db, a, js), locks := KeptLocks(db, a, js, inventory))
  }

  /** The coverage of every live record of ks rewritten, and its locks judged. */
  ghost function Recompute(db: Db, a: Activation, ks: set<Key>, inventory: bool): Result<Db, StoreError> {
    if AnyBroken(db, ks) then Failure(Dangling) else Success(Recomputed(db, a, ks, inventory))
  }

  /** A recomputed key is fresh. */
  lemma RecomputedFresh(db: Db, a: Activation, ks: set<Key>, inventory: bool, k: Key)
    requires k in Judgeable(db, ks)
    ensures Fresh(Recomputed(db, a, ks, inventory), a, k)
  {
    var after := Recomputed(db, a, ks, inventory);
    assert EvidenceOf(after, a.codecs, db.items[k].inst) == EvidenceOf(db, a.codecs, db.items[k].inst);
  }

  /** Any other key keeps its rows. */
  lemma RecomputedElsewhere(db: Db, a: Activation, ks: set<Key>, inventory: bool, k: Key)
    requires k !in Judgeable(db, ks) && k in db.items && Fresh(db, a, k)
    ensures Fresh(Recomputed(db, a, ks, inventory), a, k)
  {
    var after := Recomputed(db, a, ks, inventory);
    assert EvidenceOf(after, a.codecs, db.items[k].inst) == EvidenceOf(db, a.codecs, db.items[k].inst);
  }

  lemma RecomputedNoStray(db: Db, a: Activation, ks: set<Key>, inventory: bool)
    requires NoStray(db.coverage, db.items)
    ensures NoStray(Recomputed(db, a, ks, inventory).coverage, db.items)
  {
  }

  /** Recomputing some keys makes them current and leaves the rest so. */
  lemma RecomputedCurrent(db: Db, a: Activation, stale: set<Key>, ks: set<Key>, inventory: bool)
    requires Current(db, a, stale)
    requires forall k | k in ks && k in db.items && Live(db.instances, db.items[k]) :: db.items[k].ref in db.sightings
    ensures Current(Recomputed(db, a, ks, inventory), a, stale - ks)
  {
    hide Fresh;
    var after := Recomputed(db, a, ks, inventory);
    forall k | k in after.items && Live(after.instances, after.items[k]) && k !in stale - ks
      ensures Fresh(after, a, k)
    {
      if k in ks {
        RecomputedFresh(db, a, ks, inventory, k);
      } else {
        RecomputedElsewhere(db, a, ks, inventory, k);
      }
    }
  }
}
