/** The end of a pending write in place: its outcome written, its locks set,
    and what it supersedes removed. */
module Endings {
  import opened Wrappers
  import opened Media
  import opened Tables
  import opened Claims
  import opened Judging
  import opened Intents
  import opened Transactions
  import opened Coverages
  import Landings

  /** A lock set, one already held keeping its time. */
  method SetOneLock(tx: Tx, lk: LockKey, now: Time)
    modifies tx
    ensures tx.db == old(tx.db).(locks := Locking(old(tx.db).locks, {lk}, now))
  {
    if lk in tx.db.locks {
      assert Locking(tx.db.locks, {lk}, now) == tx.db.locks;
      assert tx.db.(locks := tx.db.locks) == tx.db;
    } else {
      assert Locking(tx.db.locks, {lk}, now) == tx.db.locks[lk := now];
      tx.db := tx.db.(locks := tx.db.locks[lk := now]);
    }
  }

  lemma LockingNone(locks: map<LockKey, Time>, now: Time)
    ensures Locking(locks, {}, now) == locks
  {
  }

  lemma LockingMore(locks: map<LockKey, Time>, some: set<LockKey>, more: set<LockKey>, now: Time)
    ensures Locking(Locking(locks, some, now), more, now) == Locking(locks, some + more, now)
  {
  }

  method SetLocks(tx: Tx, lks: set<LockKey>, now: Time)
    modifies tx
    ensures tx.db == old(tx.db).(locks := Locking(old(tx.db).locks, lks, now))
  {
    hide Locking;
    ghost var db := tx.db;
    ghost var done: set<LockKey> := {};
    var rest := lks;
    LockingNone(db.locks, now);
    assert db.(locks := db.locks) == db;
    while rest != {}
      invariant done + rest == lks && tx.db == db.(locks := Locking(db.locks, done, now))
      decreases |rest|
    {
      var lk :| lk in rest;
      LockingMore(db.locks, done, {lk}, now);
      SetOneLock(tx, lk, now);
      done, rest := done + {lk}, rest - {lk};
    }
    assert done == lks;
  }

  /** Each attempt joins the log under the next number. */
  method AppendDownloads(tx: Tx, rows: seq<Download>)
    modifies tx
    ensures tx.db == old(tx.db).(downloads := old(tx.db).downloads + rows)
  {
    assert tx.db.downloads + [] == tx.db.downloads && tx.db.(downloads := tx.db.downloads) == tx.db;
    for i := 0 to |rows|
      invariant tx.db == old(tx.db).(downloads := old(tx.db).downloads + rows[..i])
    {
      assert old(tx.db).downloads + rows[..i] + [rows[i]] == old(tx.db).downloads + rows[..i + 1];
      tx.db := tx.db.(downloads := tx.db.downloads + [rows[i]]);
    }
    assert rows[..|rows|] == rows;
  }

  class Ending {
    const tx: Tx
    var written: set<RootKey>

    function Value(): Commit
      reads this, tx
    {
      Commit(tx.db, written)
    }

    constructor (tx: Tx)
      ensures this.tx == tx && Value() == Commit(tx.db, {})
    {
      this.tx, written := tx, {};
    }

    /** What a landed write stores: its record, one generation up, and any
        baseline staged with it. */
    method PutStaged(fk: FileKey, record: File, baseline: Option<string>)
      modifies tx
      ensures Value() == old(Value()).(db := PutRecord(old(tx.db), fk, record, baseline))
    {
      var generation := (if fk in tx.db.files then tx.db.files[fk].generation else 0) + 1;
      tx.db := tx.db.(files := tx.db.files[fk := record.(generation := generation)]);
      if baseline.Some? {
        tx.db := tx.db.(baselines := tx.db.baselines[fk := baseline.value]);
      }
    }

    /** A managed file goes, or an unmanaged name leaves the local-file set. */
    method Remove(fk: FileKey)
      modifies this, tx
      ensures Value() == RemoveFile(old(Value()), fk)
    {
      hide RootsHeld;
      var managed := fk in tx.db.files;
      tx.db := tx.db.(files := tx.db.files - {fk});
      tx.db := tx.db.(baselines := tx.db.baselines - {fk});
      if managed || fk.inst !in tx.db.local {
        return;
      }
      var kept := Unnamed(tx.db.local[fk.inst], fk.name);
      if |kept| == |tx.db.local[fk.inst]| {
        return;
      }
      RootsHeldSame(old(tx.db), tx.db, fk.inst);
      written := written + RootsHeld(tx.db, fk.inst);
      tx.db := tx.db.(local := tx.db.local[fk.inst := kept]);
    }

    /** The names a delivery supersedes, other than its own. */
    method RemoveAll(fk: FileKey, names: seq<string>)
      modifies this, tx
      ensures Value() == RemoveFiles(old(Value()), fk, names)
    {
      hide RemoveFile;
      for i := 0 to |names|
        invariant Value() == RemoveFiles(old(Value()), fk, names[..i])
      {
        assert names[..i + 1][..i] == names[..i];
        if names[i] != fk.name {
          Remove(FileKey(fk.inst, names[i]));
        }
      }
      assert names[..|names|] == names;
    }

    method LandDelivery(fk: FileKey, it: Intent, now: Time)
      requires it.Delivery? && it.attempts != [] && written == {}
      modifies this, tx
      ensures Value() == LandDeliver(old(tx.db), fk, it, now)
      ensures fk in tx.db.files && fk in tx.db.baselines && tx.db.baselines[fk] == it.baseline
      ensures forall name | name in it.removes && name != fk.name :: FileKey(fk.inst, name) !in tx.db.files && FileKey(fk.inst, name) !in tx.db.baselines
    {
      hide PutRecord, RemoveFiles, Locking, DeliveredLocks;
      ghost var db1 := PutRecord(tx.db, fk, it.record, Some(it.baseline));
      PutStaged(fk, it.record, Some(it.baseline));
      FirstLocks(it);
      if it.record.locked {
        SetLocks(tx, LocksOn(it.attempts[0].items, it.attempts[0].pair), now);
      } else {
        LockingNone(tx.db.locks, now);
        assert tx.db.(locks := tx.db.locks) == tx.db;
      }
      AppendDownloads(tx, it.attempts);
      RemoveAll(fk, it.removes);
      DeliveryClears(old(tx.db), fk, it, now);
    }

    /** The locks of an adopted file, over the items of its instance. */
    method LockAdopted(a: Activation, id: InstId, file: Evidence, now: Time)
      modifies tx
      ensures Value() == old(Value()).(db := old(tx.db).(locks := Locking(old(tx.db).locks, AdoptedLocks(old(tx.db), a, id, file), now)))
    {
      hide Locking, Servable, Judge;
      var lks: set<LockKey> := {};
      if id in tx.db.instances && tx.db.instances[id].owner.Some? {
        var items := tx.db.instances[id].items;
        for i := 0 to |items|
          invariant tx.db == old(tx.db) && lks == AdoptedOn(tx.db, a, items[..i], file)
        {
          var more := AdoptedItem(a, items[i], file);
          AdoptedMore(tx.db, a, items, i, file);
          lks := lks + more;
        }
        assert items[..|items|] == items;
      }
      AdoptedWhole(tx.db, a, id, file);
      SetLocks(tx, lks, now);
    }

    method AdoptedItem(a: Activation, k: Key, file: Evidence) returns (lks: set<LockKey>)
      ensures lks == AdoptedOn(tx.db, a, [k], file)
    {
      hide Servable, Judge;
      lks := {};
      if k in tx.db.items && tx.db.items[k].ref in tx.db.sightings {
        var pairs := Configured(a.policy, tx.db.sightings[tx.db.items[k].ref]);
        for i := 0 to |pairs|
          invariant forall lk :: lk in lks <==> lk.key == k && lk.pair in pairs[..i] && Servable(a.policy, lk.pair, {file})
        {
          var c, servable := JudgePair(a.policy, pairs[i], [file]);
          assert Found([file]) == {file};
          assert pairs[..i + 1] == pairs[..i] + [pairs[i]];
          if servable {
            lks := lks + {LockKey(k, pairs[i])};
          }
        }
        assert pairs[..|pairs|] == pairs;
      }
    }

    method LandRetiming(a: Activation, fk: FileKey, it: Intent, now: Time)
      requires it.Retiming? && written == {}
      modifies this, tx
      ensures Value() == LandRetime(old(tx.db), a, fk, it, now)
    {
      hide PutRecord, Locking, AdoptedLocks;
      PutStaged(fk, it.record, it.adopted);
      if it.adopted.Some? {
        LockAdopted(a, fk.inst, Evidence(it.record.tag, it.record.flags), now);
      } else {
        LockingNone(tx.db.locks, now);
        assert tx.db.(locks := tx.db.locks) == tx.db;
      }
    }

    /** The outcome of the write that was pending, by its operation. */
    method LandIntent(a: Activation, fk: FileKey, it: Intent, now: Time)
      requires (it.Delivery? ==> it.attempts != []) && written == {}
      modifies this, tx
      ensures Value() == Land(old(tx.db), a, fk, it, now)
    {
      hide LandDeliver, LandRetime, RemoveFile;
      match it {
        case Delivery(_, _, _, _) => LandDelivery(fk, it, now);
        case Retiming(_, _) => LandRetiming(a, fk, it, now);
        case Removal(_) => Remove(fk);
      }
    }

    /** The intent is taken, and what it staged settled. */
    method Settle(active: Option<Activation>, fk: FileKey, want: Op, landed: bool, now: Time) returns (e: Outcome<StoreError>)
      requires written == {} && (fk in tx.db.intents && tx.db.intents[fk].Delivery? ==> tx.db.intents[fk].attempts != [])
      modifies this, tx
      ensures Yields(e, Value(), End(old(tx.db), active, fk, want, landed, now))
    {
      hide Land, Recompute, Undelivered;
      if fk !in tx.db.intents {
        return Pass;
      }
      var it := tx.db.intents[fk];
      if it.OpOf() != want {
        return Fail(WrongOp);
      }
      tx.db := tx.db.(intents := tx.db.intents - {fk});
      if !landed {
        if it.Delivery? {
          AppendDownloads(tx, Undelivered(it.attempts));
        }
        return Pass;
      }
      if active.None? {
        return Fail(NoActivation);
      }
      LandIntent(active.value, fk, it, now);
      e := RecomputeInstance(tx, active.value, fk.inst, true);
    }
  }

  lemma RootsHeldSame(db: Db, db1: Db, id: InstId)
    requires db1.instances == db.instances
    ensures RootsHeld(db1, id) == RootsHeld(db, id)
  {
  }

  lemma FirstLocks(it: Intent)
    requires it.Delivery? && it.attempts != []
    ensures DeliveredLocks(it.record, it.attempts) == if it.record.locked then LocksOn(it.attempts[0].items, it.attempts[0].pair) else {}
  {
  }

  ghost function AdoptedOn(db: Db, a: Activation, ks: seq<Key>, file: Evidence): set<LockKey> {
    set k, pair | k in ks && k in db.items && db.items[k].ref in db.sightings
                  && pair in Configured(a.policy, db.sightings[db.items[k].ref]) && Servable(a.policy, pair, {file}) :: LockKey(k, pair)
  }

  lemma AdoptedMore(db: Db, a: Activation, ks: seq<Key>, i: nat, file: Evidence)
    requires i < |ks|
    ensures AdoptedOn(db, a, ks[..i + 1], file) == AdoptedOn(db, a, ks[..i], file) + AdoptedOn(db, a, [ks[i]], file)
  {
    hide Servable;
    assert ks[..i + 1] == ks[..i] + [ks[i]];
  }

  lemma AdoptedWhole(db: Db, a: Activation, id: InstId, file: Evidence)
    ensures AdoptedLocks(db, a, id, file)
         == if id in db.instances && db.instances[id].owner.Some? then AdoptedOn(db, a, db.instances[id].items, file) else {}
  {
    hide Servable;
  }

  /** A delivery leaves its own record and baseline, and none of the files it
      supersedes. */
  lemma DeliveryClears(db: Db, fk: FileKey, it: Intent, now: Time)
    requires it.Delivery?
    ensures var after := LandDeliver(db, fk, it, now).db;
            && fk in after.files && fk in after.baselines && after.baselines[fk] == it.baseline
            && forall name | name in it.removes && name != fk.name :: FileKey(fk.inst, name) !in after.files && FileKey(fk.inst, name) !in after.baselines
  {
    hide RemoveFiles, Locking;
    var db1 := PutRecord(db, fk, it.record, Some(it.baseline));
    var db2 := db1.(locks := Locking(db1.locks, DeliveredLocks(it.record, it.attempts), now), downloads := db1.downloads + it.attempts);
    Landings.ClearsAll(db2, Commit(db2, {}), fk, it.removes);
  }
}
