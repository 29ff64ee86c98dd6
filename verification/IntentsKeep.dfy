/** The write protocol and the inventory writes keep the invariant. */
module IntentsKeep {
  import opened Wrappers
  import opened Tables
  import opened Judging
  import opened SettlementKeeps
  import opened ObserveKeeps
  import opened Intents
  import opened Inventory

  /* ---------- What a write of one instance may move ---------- */

  /** Only the rows of instance id, locks on the keys it lists, and the log moved. */
  ghost predicate Local(db: Db, db1: Db, id: InstId) {
    && db1 == db.(locks := db1.locks, files := db1.files, baselines := db1.baselines, local := db1.local, embedded := db1.embedded,
                  downloads := db1.downloads)
    && (forall fk: FileKey | fk.inst != id :: (fk in db1.files <==> fk in db.files) && (fk in db.files ==> db1.files[fk] == db.files[fk]))
    && (forall fk | fk in db1.baselines && fk.inst != id :: fk in db.baselines)
    && (forall i | i != id :: (i in db1.local <==> i in db.local) && (i in db.local ==> db1.local[i] == db.local[i]))
    && (forall i | i != id :: (i in db1.embedded <==> i in db.embedded) && (i in db.embedded ==> db1.embedded[i] == db.embedded[i]))
    && (forall lk: LockKey | lk.key !in ItemsOf(db, id) :: lk in db1.locks <==> lk in db.locks)
  }

  lemma LocalEvidence(db: Db, db1: Db, id: InstId, codecs: set<string>, other: InstId)
    requires Local(db, db1, id) && other != id
    ensures EvidenceOf(db1, codecs, other) == EvidenceOf(db, codecs, other)
  {
    assert (set fk | fk in db1.files && fk.inst == other :: Evidence(db1.files[fk].tag, db1.files[fk].flags))
        == (set fk | fk in db.files && fk.inst == other :: Evidence(db.files[fk].tag, db.files[fk].flags));
  }

  lemma LocalCurrent(db: Db, db1: Db, a: Activation, id: InstId)
    requires Local(db, db1, id) && Linked(db.items, db.instances) && Current(db, a, {})
    ensures Current(db1, a, ItemsOf(db, id))
  {
    forall k | k in db1.items && Live(db1.instances, db1.items[k]) && k !in ItemsOf(db, id)
      ensures Fresh(db1, a, k)
    {
      assert Fresh(db, a, k);
      if db.items[k].inst != 0 {
        LocalEvidence(db, db1, id, a.codecs, db.items[k].inst);
      }
    }
  }

  lemma LocalHeld(db: Db, db1: Db, id: InstId)
    requires Local(db, db1, id) && id in db.instances && Held(db.instances, db.files, db.baselines, db.local, db.embedded)
    ensures Held(db1.instances, db1.files, db1.baselines, db1.local, db1.embedded)
  {
  }

  /** After such a write, recomputing the instance restores the invariant. */
  lemma LocalKeeps(db: Db, db1: Db, a: Activation, id: InstId, inventory: bool)
    requires Inv(db, Some(a)) && Local(db, db1, id) && id in db.instances
    ensures var r := Recompute(db1, a, ItemsOf(db1, id), inventory);
            r.Success? && Inv(r.value, Some(a)) && r.value == db1.(coverage := r.value.coverage, locks := r.value.locks)
  {
    hide Linked, Owning, WellFormed, Named, Kept, Stamped, Sourced, Overlapping, Held, Staging, NonEmpty, NoStray, Current, Recompute;
    LocalSame(db, db1, id);
    LocalCurrent(db, db1, a, id);
    LocalHeld(db, db1, id);
    hide Local;
    RecomputeKeeps(db1, a, ItemsOf(db, id), ItemsOf(db1, id), inventory);
    assert ItemsOf(db, id) - ItemsOf(db1, id) == {};
  }

  lemma LocalSame(db: Db, db1: Db, id: InstId)
    requires Local(db, db1, id)
    ensures db1 == db.(locks := db1.locks, files := db1.files, baselines := db1.baselines, local := db1.local, embedded := db1.embedded,
                       downloads := db1.downloads)
    ensures ItemsOf(db1, id) == ItemsOf(db, id)
  {
  }

  /* ---------- Landing ---------- */

  lemma LocalTransitive(db: Db, db1: Db, db2: Db, id: InstId)
    requires Local(db, db1, id) && Local(db1, db2, id)
    ensures Local(db, db2, id)
  {
    LocalSame(db, db1, id);
    LocalSame(db1, db2, id);
  }

  lemma PutRecordLocal(db: Db, fk: FileKey, record: File, baseline: Option<string>)
    ensures Local(db, PutRecord(db, fk, record, baseline), fk.inst)
  {
  }

  lemma LockingLocal(db: Db, id: InstId, more: set<LockKey>, now: Time, log: seq<Download>)
    requires forall lk | lk in more :: lk.key in ItemsOf(db, id)
    ensures Local(db, db.(locks := Locking(db.locks, more, now), downloads := log), id)
  {
  }

  lemma RemoveFileLocal(c: Commit, fk: FileKey)
    ensures Local(c.db, RemoveFile(c, fk).db, fk.inst)
    ensures RemoveFile(c, fk).db.downloads == c.db.downloads
  {
  }

  lemma {:induction false} RemoveFilesLocal(c: Commit, fk: FileKey, names: seq<string>)
    ensures Local(c.db, RemoveFiles(c, fk, names).db, fk.inst)
    ensures RemoveFiles(c, fk, names).db.downloads == c.db.downloads
  {
    hide RemoveFile, Local;
    if names == [] {
      LocalRefl(c.db, fk.inst);
    } else {
      var c1 := RemoveFiles(c, fk, names[..|names| - 1]);
      var name := names[|names| - 1];
      RemoveFilesLocal(c, fk, names[..|names| - 1]);
      if name != fk.name {
        RemoveFileLocal(c1, FileKey(fk.inst, name));
        LocalTransitive(c.db, c1.db, RemoveFile(c1, FileKey(fk.inst, name)).db, fk.inst);
      }
    }
  }

  lemma LocalRefl(db: Db, id: InstId)
    ensures Local(db, db, id)
  {
  }

  lemma LandDeliverLocal(db: Db, fk: FileKey, it: Intent, now: Time)
    requires it.Delivery? && fk.inst in db.instances && Staged(db.instances[fk.inst], fk, it)
    ensures Local(db, LandDeliver(db, fk, it, now).db, fk.inst)
    ensures LandDeliver(db, fk, it, now).db.downloads == db.downloads + it.attempts
  {
    hide Local, RemoveFiles, PutRecord, Locking;
    var db1 := PutRecord(db, fk, it.record, Some(it.baseline));
    PutRecordLocal(db, fk, it.record, Some(it.baseline));
    LocalSame(db, db1, fk.inst);
    var more := DeliveredLocks(it.record, it.attempts);
    var db2 := db1.(locks := Locking(db1.locks, more, now), downloads := db1.downloads + it.attempts);
    LockingLocal(db1, fk.inst, more, now, db1.downloads + it.attempts);
    LocalTransitive(db, db1, db2, fk.inst);
    RemoveFilesLocal(Commit(db2, {}), fk, it.removes);
    LocalTransitive(db, db2, RemoveFiles(Commit(db2, {}), fk, it.removes).db, fk.inst);
    PutRecordLog(db, fk, it.record, Some(it.baseline));
  }

  lemma PutRecordLog(db: Db, fk: FileKey, record: File, baseline: Option<string>)
    ensures PutRecord(db, fk, record, baseline).downloads == db.downloads
  {
  }

  lemma AdoptedItems(db: Db, a: Activation, id: InstId, file: Evidence)
    ensures forall lk | lk in AdoptedLocks(db, a, id, file) :: lk.key in ItemsOf(db, id)
  {
    hide Servable;
  }

  lemma LandRetimeLocal(db: Db, a: Activation, fk: FileKey, it: Intent, now: Time)
    requires fk.inst in db.instances && it.Retiming?
    ensures Local(db, LandRetime(db, a, fk, it, now).db, fk.inst)
  {
    hide Local, PutRecord, Locking, AdoptedLocks, ItemsOf;
    var db1 := PutRecord(db, fk, it.record, it.adopted);
    PutRecordLocal(db, fk, it.record, it.adopted);
    LocalSame(db, db1, fk.inst);
    PutRecordLog(db, fk, it.record, it.adopted);
    assert db1.(locks := db1.locks) == db1;
    var more := if it.adopted.None? then {} else AdoptedLocks(db1, a, fk.inst, Evidence(it.record.tag, it.record.flags));
    AdoptedItems(db1, a, fk.inst, Evidence(it.record.tag, it.record.flags));
    LockingLocal(db1, fk.inst, more, now, db1.downloads);
    LocalTransitive(db, db1, db1.(locks := Locking(db1.locks, more, now)), fk.inst);
  }

  lemma LandRetimeLog(db: Db, a: Activation, fk: FileKey, it: Intent, now: Time)
    requires it.Retiming?
    ensures LandRetime(db, a, fk, it, now).db.downloads == db.downloads
  {
    hide Locking, AdoptedLocks;
  }

  lemma LandLocal(db: Db, a: Activation, fk: FileKey, it: Intent, now: Time)
    requires fk.inst in db.instances && Staged(db.instances[fk.inst], fk, it)
    ensures Local(db, Land(db, a, fk, it, now).db, fk.inst)
    ensures Land(db, a, fk, it, now).db.downloads == db.downloads + (if it.Delivery? then it.attempts else [])
  {
    hide Local, RemoveFile, LandDeliver, LandRetime;
    match it
    case Delivery(_, _, _, _) =>
      LandDeliverLocal(db, fk, it, now);
    case Retiming(_, _) =>
      LandRetimeLocal(db, a, fk, it, now);
      LandRetimeLog(db, a, fk, it, now);
    case Removal(_) =>
      RemoveFileLocal(Commit(db, {}), fk);
  }

  /* ---------- The protocol ---------- */

  lemma BeginKeeps(db: Db, active: Option<Activation>, fk: FileKey, it: Intent)
    requires Inv(db, active) && Begin(db, fk, it).Success?
    ensures Inv(Begin(db, fk, it).value, active)
  {
    hide Linked, Owning, WellFormed, Named, Kept, Stamped, Sourced, Overlapping, Held, NoStray, Current;
    var db1 := Begin(db, fk, it).value;
    if active.Some? {
      CurrentOn(db, db1, active.value, {});
    }
  }

  lemma StagingLess(instances: map<InstId, Instance>, intents: map<FileKey, Intent>, fk: FileKey)
    requires Staging(instances, intents)
    ensures Staging(instances, intents - {fk})
  {
  }

  /** Taking an intent, or adding to the log, moves nothing judged. */
  lemma LogKeeps(db: Db, active: Option<Activation>, fk: FileKey, log: seq<Download>)
    requires Inv(db, active)
    ensures Inv(db.(intents := db.intents - {fk}, downloads := log), active)
    ensures Inv(db.(intents := db.intents - {fk}), active)
    ensures Inv(db.(downloads := log), active)
  {
    hide Linked, Owning, WellFormed, Named, Kept, Stamped, Sourced, Overlapping, Held, Staging, NonEmpty, NoStray, Current;
    StagingLess(db.instances, db.intents, fk);
    if active.Some? {
      CurrentOn(db, db.(intents := db.intents - {fk}), active.value, {});
      CurrentOn(db, db.(intents := db.intents - {fk}, downloads := log), active.value, {});
      CurrentOn(db, db.(downloads := log), active.value, {});
    }
  }

  lemma StagedAt(db: Db, active: Option<Activation>, fk: FileKey)
    requires Inv(db, active) && fk in db.intents
    ensures fk.inst in db.instances && Staged(db.instances[fk.inst], fk, db.intents[fk])
  {
  }

  /** An End is refused only for another operation, or landed before the first
      activation; it never meets a row that is gone, and commits the invariant. */
  lemma EndKeeps(db: Db, active: Option<Activation>, fk: FileKey, want: Op, landed: bool, now: Time)
    requires Inv(db, active)
    ensures var r := End(db, active, fk, want, landed, now);
            && (r.Failure? <==> fk in db.intents && (db.intents[fk].OpOf() != want || (landed && active.None?)))
            && (r.Success? ==> Inv(r.value.db, active))
  {
    hide Inv, Staged, Land, Recompute, ItemsOf;
    if fk in db.intents && db.intents[fk].OpOf() == want {
      var it := db.intents[fk];
      LogKeeps(db, active, fk, db.downloads + if it.Delivery? then Undelivered(it.attempts) else []);
      if landed && active.Some? {
        var db1 := db.(intents := db.intents - {fk});
        StagedAt(db, active, fk);
        LandLocal(db1, active.value, fk, it, now);
        LocalKeeps(db1, Land(db1, active.value, fk, it, now).db, active.value, fk.inst, true);
      }
    }
  }

  /* ---------- The inventory ---------- */

  lemma PutEmbeddedKeeps(db: Db, active: Option<Activation>, id: InstId, tracks: seq<Track>)
    requires Inv(db, active)
    ensures var r := PutEmbedded(db, active, id, tracks);
            && (r.Failure? <==> active.None? || id !in db.instances)
            && (r.Success? ==> Inv(r.value, active))
  {
    hide Inv, Recompute;
    if active.Some? && id in db.instances {
      LocalKeeps(db, db.(embedded := db.embedded[id := tracks]), active.value, id, false);
    }
  }

  lemma PutExternalKeeps(db: Db, active: Option<Activation>, id: InstId, files: seq<LocalFile>)
    requires Inv(db, active)
    ensures var r := PutExternal(db, active, id, files);
            && (r.Failure? <==> !ValidListing(files) || active.None? || id !in db.instances)
            && (r.Success? ==> Inv(r.value, active))
  {
    hide Inv, Recompute, ValidListing, ByName;
    if active.Some? && id in db.instances {
      LocalKeeps(db, db.(local := db.local[id := ByName(files)]), active.value, id, true);
    }
  }

  /** Locking moves only locks, on configured pairs. */
  lemma SetLockKeeps(db: Db, active: Option<Activation>, id: InstId, pair: Pair, locked: bool, now: Time)
    requires Inv(db, active) && SetLock(db, active, id, pair, locked, now).Success?
    ensures Inv(SetLock(db, active, id, pair, locked, now).value, active)
  {
    hide Linked, Owning, WellFormed, Named, Kept, Stamped, Sourced, Overlapping, Held, Staging, NonEmpty, NoStray, EvidenceOf, Servable;
    var db1 := SetLock(db, active, id, pair, locked, now).value;
    forall k | k in db1.items && Live(db1.instances, db1.items[k])
      ensures Fresh(db1, active.value, k)
    {
      assert Fresh(db, active.value, k);
      SameEvidence(db, db1, active.value.codecs, db.items[k].inst);
    }
  }

  lemma SameEvidence(db: Db, db1: Db, codecs: set<string>, id: InstId)
    requires db1 == db.(locks := db1.locks)
    ensures EvidenceOf(db1, codecs, id) == EvidenceOf(db, codecs, id)
  {
  }

  lemma RecordAttemptsKeeps(db: Db, active: Option<Activation>, attempts: seq<Download>)
    requires Inv(db, active) && RecordAttempts(db, attempts).Success?
    ensures Inv(RecordAttempts(db, attempts).value, active)
  {
    hide Inv;
    LogKeeps(db, active, FileKey(0, ""), db.downloads + attempts);
  }
}
