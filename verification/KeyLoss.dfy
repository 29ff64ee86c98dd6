/** The key-loss rule in place: keys nothing holds are handed to a sighting
    that still claims them, or lost. */
module KeyLoss {
  import opened Wrappers
  import opened Media
  import opened Tables
  import opened RefKeys
  import opened Claims
  import opened Judging
  import opened Settlement
  import opened Transactions
  import opened Coverages

  /** Those of refs that claim k with no video. */
  ghost function ClaimantsIn(sightings: map<ItemRef, Sighting>, refs: set<ItemRef>, k: Key): set<ItemRef> {
    set ref | ref in refs && ref in sightings && sightings[ref].ClaimsBare(k)
  }

  /** The heir met so far: the first of k's claimants, once any was met. */
  ghost predicate HeirSoFar(sightings: map<ItemRef, Sighting>, met: set<ItemRef>, heirs: map<Key, ItemRef>, k: Key) {
    if k in heirs then IsFirst(Claimants(sightings, k), heirs[k]) else ClaimantsIn(sightings, met, k) == {}
  }

  lemma HeirStep(sightings: map<ItemRef, Sighting>, met: set<ItemRef>, rest: set<ItemRef>, heirs: map<Key, ItemRef>, ref: ItemRef, k: Key)
    requires met + rest == sightings.Keys && IsFirst(rest, ref) && HeirSoFar(sightings, met, heirs, k)
    ensures HeirSoFar(sightings, met + {ref}, if sightings[ref].ClaimsBare(k) && k !in heirs then heirs[k := ref] else heirs, k)
  {
    if k !in heirs && sightings[ref].ClaimsBare(k) {
      forall x | x in Claimants(sightings, k)
        ensures x == ref || Before(ref, x)
      {
        assert x in met ==> x in ClaimantsIn(sightings, met, k);
      }
    }
  }

  /** The first stored sighting claiming each key with no video. */
  method NoVideoSightings(tx: Tx, keys: set<Key>) returns (heirs: map<Key, ItemRef>)
    ensures forall k | k in keys :: Heir(tx.db.sightings, k) == if k in heirs then Some(heirs[k]) else None
  {
    hide HeirSoFar, Heir, IsFirst;
    heirs := map[];
    var rest := tx.db.sightings.Keys;
    ghost var met: set<ItemRef> := {};
    NoHeirs(tx.db.sightings);
    while rest != {}
      invariant met + rest == tx.db.sightings.Keys
      invariant forall k | k in keys :: HeirSoFar(tx.db.sightings, met, heirs, k)
      decreases |rest|
    {
      var ref := NextOf(rest);
      FirstIn(rest, ref);
      var sg := tx.db.sightings[ref];
      forall k | k in keys
        ensures HeirSoFar(tx.db.sightings, met + {ref}, if sg.ClaimsBare(k) && k !in heirs then heirs[k := ref] else heirs, k)
      {
        HeirStep(tx.db.sightings, met, rest, heirs, ref, k);
      }
      if sg.key.Some? && sg.item.path == "" && sg.key.value in keys && sg.key.value !in heirs {
        forall k | k in keys && k != sg.key.value
          ensures HeirSoFar(tx.db.sightings, met + {ref}, heirs[sg.key.value := ref], k)
        {
          HeirOther(tx.db.sightings, met + {ref}, heirs, sg.key.value, ref, k);
        }
        heirs := heirs[sg.key.value := ref];
      }
      met, rest := met + {ref}, rest - {ref};
    }
    assert met == tx.db.sightings.Keys;
    forall k | k in keys
      ensures Heir(tx.db.sightings, k) == if k in heirs then Some(heirs[k]) else None
    {
      HeirMet(tx.db.sightings, met, heirs, k);
    }
  }

  lemma NoHeirs(sightings: map<ItemRef, Sighting>)
    ensures forall k :: HeirSoFar(sightings, {}, map[], k)
  {
  }

  lemma HeirOther(sightings: map<ItemRef, Sighting>, met: set<ItemRef>, heirs: map<Key, ItemRef>, x: Key, ref: ItemRef, k: Key)
    requires HeirSoFar(sightings, met, heirs, k) && k != x
    ensures HeirSoFar(sightings, met, heirs[x := ref], k)
  {
  }

  lemma HeirMet(sightings: map<ItemRef, Sighting>, met: set<ItemRef>, heirs: map<Key, ItemRef>, k: Key)
    requires met == sightings.Keys && HeirSoFar(sightings, met, heirs, k)
    ensures Heir(sightings, k) == if k in heirs then Some(heirs[k]) else None
  {
    if k in heirs {
      assert IsFirst(Claimants(sightings, k), heirs[k]);
      FirstUnique(Claimants(sightings, k), Heir(sightings, k).value, heirs[k]);
    } else {
      assert forall ref | ref in Claimants(sightings, k) :: ref in ClaimantsIn(sightings, met, k);
    }
  }

  /* ---------- Handing on, key by key ---------- */

  lemma HandOnNone(db: Db, a: Activation)
    ensures HandOn(db, a, {}) == Success(db)
  {
    hide Recompute;
    assert Heirless(db.sightings, {}) == {} && Inherited(db, {}) == db.items && LocksWithout(db.locks, {}) == db.locks && db.coverage - {} == db.coverage;
    assert {} - Heirless(db.sightings, {}) == {};
    assert db.(items := db.items, coverage := db.coverage, locks := db.locks) == db;
    assert Bequeathed(db, {}) == db;
    RecomputeEmpty(db, a, false);
  }

  lemma HeirlessMore(sightings: map<ItemRef, Sighting>, done: set<Key>, k: Key)
    ensures Heirless(sightings, done + {k}) == Heirless(sightings, done) + (if Heir(sightings, k).None? then {k} else {})
  {
  }

  /** With no heir, all that is stored under the key goes. */
  function Lost(db: Db, k: Key): Db {
    db.(items := db.items - {k}, coverage := db.coverage - {k}, locks := LocksWithout(db.locks, {k}))
  }

  lemma BequeathLost(db: Db, done: set<Key>, k: Key)
    requires Heir(db.sightings, k).None? && k !in done
    ensures Bequeathed(db, done + {k}) == Lost(Bequeathed(db, done), k)
  {
    HeirlessMore(db.sightings, done, k);
    assert Inherited(db, done + {k}) == Inherited(db, done) - {k};
    var gone := Heirless(db.sightings, done);
    assert db.coverage - (gone + {k}) == db.coverage - gone - {k};
    assert LocksWithout(db.locks, gone + {k}) == LocksWithout(LocksWithout(db.locks, gone), {k});
  }

  lemma BequeathHeir(db: Db, done: set<Key>, k: Key)
    requires Heir(db.sightings, k).Some? && k !in done && k in db.items
    ensures var mid := Bequeathed(db, done);
            Bequeathed(db, done + {k}) == mid.(items := mid.items[k := Record(Heir(db.sightings, k).value, 0)])
  {
    HeirlessMore(db.sightings, done, k);
    assert Heirless(db.sightings, done + {k}) == Heirless(db.sightings, done);
    assert Inherited(db, done + {k}) == Inherited(db, done)[k := Record(Heir(db.sightings, k).value, 0)];
  }

  /** Recomputing other keys first, then rewriting k's record, or the reverse. */
  lemma RecomputeThenPut(db: Db, a: Activation, ks: set<Key>, k: Key, rec: Record)
    requires k !in ks && Recompute(db, a, ks, false).Success?
    ensures var mid := Recompute(db, a, ks, false).value;
            Recompute(db.(items := db.items[k := rec]), a, ks, false) == Success(mid.(items := mid.items[k := rec]))
  {
    hide JudgedAt, KeepsLock, NewCoverage, KeptLocks;
    var after := db.(items := db.items[k := rec]);
    assert Judgeable(after, ks) == Judgeable(db, ks);
    assert !AnyBroken(after, ks);
    CoveragePut(db, after, a, Judgeable(db, ks));
    LocksPut(db, after, a, Judgeable(db, ks));
  }

  /** Records other than those recomputed play no part. */
  ghost predicate SameRecords(db: Db, after: Db, js: set<Key>) {
    && after == db.(items := after.items)
    && forall j | j in js :: j in db.items && db.items[j].ref in db.sightings && j in after.items && after.items[j] == db.items[j]
  }

  lemma CoveragePut(db: Db, after: Db, a: Activation, js: set<Key>)
    requires SameRecords(db, after, js)
    ensures NewCoverage(after, a, js) == NewCoverage(db, a, js)
  {
    hide JudgedAt;
    forall j | j in js
      ensures JudgedAt(after, a, j) == JudgedAt(db, a, j)
    {
      JudgedOn(db, after, a, j);
    }
  }

  lemma LocksPut(db: Db, after: Db, a: Activation, js: set<Key>)
    requires SameRecords(db, after, js)
    ensures KeptLocks(after, a, js, false) == KeptLocks(db, a, js, false)
  {
    hide KeepsLock;
    forall lk: LockKey | lk.key in js
      ensures KeepsLock(after, a, lk, false) == KeepsLock(db, a, lk, false)
    {
      KeepsOn(db, after, a, lk);
    }
  }

  lemma RecomputeThenLose(db: Db, a: Activation, ks: set<Key>, k: Key)
    requires k !in ks && Recompute(db, a, ks, false).Success?
    ensures Recompute(Lost(db, k), a, ks, false) == Success(Lost(Recompute(db, a, ks, false).value, k))
  {
    hide JudgedAt, KeepsLock, NewCoverage, KeptLocks;
    var after := Lost(db, k);
    var js := Judgeable(db, ks);
    assert Judgeable(after, ks) == js;
    assert !AnyBroken(after, ks);
    CoverageLost(db, a, js, k);
    LocksLost(db, a, js, k);
  }

  lemma CoverageLost(db: Db, a: Activation, js: set<Key>, k: Key)
    requires forall j | j in js :: j in db.items && db.items[j].ref in db.sightings && j != k
    ensures NewCoverage(Lost(db, k), a, js) == NewCoverage(db, a, js) - {k}
  {
    hide JudgedAt;
    var after := Lost(db, k);
    forall j | j in js
      ensures JudgedAt(after, a, j) == JudgedAt(db, a, j)
    {
      JudgedOn(db, after, a, j);
    }
  }

  lemma LocksLost(db: Db, a: Activation, js: set<Key>, k: Key)
    requires forall j | j in js :: j in db.items && db.items[j].ref in db.sightings && j != k
    ensures KeptLocks(Lost(db, k), a, js, false) == LocksWithout(KeptLocks(db, a, js, false), {k})
  {
    hide KeepsLock;
    var after := Lost(db, k);
    forall lk: LockKey | lk.key in js
      ensures KeepsLock(after, a, lk, false) == KeepsLock(db, a, lk, false)
    {
      KeepsOn(db, after, a, lk);
    }
    KeptLocksOn(db, after, a, js, k);
  }

  lemma KeptLocksOn(db: Db, after: Db, a: Activation, js: set<Key>, k: Key)
    requires forall j | j in js :: j in db.items && db.items[j].ref in db.sightings && j in after.items && after.items[j].ref in after.sightings && j != k
    requires after.locks == LocksWithout(db.locks, {k})
    requires forall lk: LockKey | lk.key in js :: KeepsLock(after, a, lk, false) == KeepsLock(db, a, lk, false)
    ensures KeptLocks(after, a, js, false) == LocksWithout(KeptLocks(db, a, js, false), {k})
  {
    hide KeepsLock;
  }

  lemma JudgedOn(db: Db, db1: Db, a: Activation, k: Key)
    requires k in db.items && k in db1.items && db1.items[k] == db.items[k] && db1.sightings == db.sightings && db.items[k].ref in db.sightings
    requires db1.files == db.files && db1.local == db.local && db1.embedded == db.embedded
    ensures JudgedAt(db1, a, k) == JudgedAt(db, a, k)
  {
    EvidenceFrame(db, db1, a.codecs, db.items[k].inst);
  }

  lemma KeepsOn(db: Db, db1: Db, a: Activation, lk: LockKey)
    requires lk.key in db.items && lk.key in db1.items && db1.items[lk.key] == db.items[lk.key] && db1.sightings == db.sightings
    requires db.items[lk.key].ref in db.sightings
    requires db1.files == db.files && db1.local == db.local && db1.embedded == db.embedded
    ensures KeepsLock(db1, a, lk, false) == KeepsLock(db, a, lk, false)
  {
  }

  /** The rule for some keys, then for one more, is the rule for them all. */
  lemma HandOnLost(db: Db, a: Activation, done: set<Key>, k: Key)
    requires k !in done && HandOn(db, a, done).Success? && Heir(db.sightings, k).None?
    ensures HandOn(db, a, done + {k}) == Success(Lost(HandOn(db, a, done).value, k))
  {
    hide Bequeathed, Recompute, Heir;
    HeirlessMore(db.sightings, done, k);
    BequeathLost(db, done, k);
    var ks := done - Heirless(db.sightings, done);
    assert done + {k} - Heirless(db.sightings, done + {k}) == ks;
    RecomputeThenLose(Bequeathed(db, done), a, ks, k);
  }

  lemma HandOnHeir(db: Db, a: Activation, done: set<Key>, k: Key)
    requires k !in done && k in db.items && HandOn(db, a, done).Success? && Heir(db.sightings, k).Some?
    ensures var mid := HandOn(db, a, done).value;
            Recompute(mid.(items := mid.items[k := Record(Heir(db.sightings, k).value, 0)]), a, {k}, false) == HandOn(db, a, done + {k})
  {
    hide Bequeathed, Recompute, Heir;
    HeirlessMore(db.sightings, done, k);
    BequeathHeir(db, done, k);
    var ks := done - Heirless(db.sightings, done);
    assert k !in Heirless(db.sightings, done);
    assert done + {k} - Heirless(db.sightings, done + {k}) == ks + {k};
    RecomputeThenPut(Bequeathed(db, done), a, ks, k, Record(Heir(db.sightings, k).value, 0));
    RecomputeJoin(Bequeathed(db, done + {k}), a, ks, {k}, false);
  }

  lemma HandOnKept(db: Db, a: Activation, done: set<Key>, k: Key)
    requires k in db.items && k !in done && HandOn(db, a, done).Success?
    ensures k in HandOn(db, a, done).value.items && HandOn(db, a, done).value.sightings == db.sightings
  {
    hide Heir, NewCoverage, KeptLocks;
  }

  /** An heir's record is never broken: it names a stored sighting and no
      instance. */
  lemma HandOnSucceeds(db: Db, a: Activation, lost: set<Key>)
    ensures HandOn(db, a, lost).Success?
  {
    hide NewCoverage, KeptLocks;
  }

  /** k's record, coverage and locks are deleted. */
  method LoseKey(tx: Tx, k: Key)
    modifies tx
    ensures tx.db == Lost(old(tx.db), k)
  {
    tx.db := tx.db.(items := tx.db.items - {k});
    tx.db := tx.db.(coverage := tx.db.coverage - {k});
    tx.db := tx.db.(locks := LocksWithout(tx.db.locks, {k}));
  }

  /** Decides each lost key in turn. */
  method HandOnKeys(tx: Tx, a: Activation, lost: set<Key>) returns (e: Outcome<StoreError>)
    requires lost <= tx.db.items.Keys
    modifies tx
    ensures Yields(e, tx.db, HandOn(old(tx.db), a, lost))
  {
    hide HandOn, Lost, Recompute, Heir;
    ghost var db := tx.db;
    var heirs := NoVideoSightings(tx, lost);
    ghost var done: set<Key> := {};
    var rest := lost;
    HandOnNone(db, a);
    while rest != {}
      invariant done + rest == lost && done !! rest
      invariant HandOn(db, a, done) == Success(tx.db)
      decreases |rest|
    {
      var k :| k in rest;
      HandOnKept(db, a, done, k);
      if k !in heirs {
        HandOnLost(db, a, done, k);
        LoseKey(tx, k);
      } else {
        HandOnHeir(db, a, done, k);
        tx.db := tx.db.(items := tx.db.items[k := Record(heirs[k], 0)]);
        e := RecomputeKey(tx, a, k, false);
        HandOnSucceeds(db, a, done + {k});
      }
      done, rest := done + {k}, rest - {k};
    }
    assert done == lost;
    e := Pass;
  }
}
