/** The write protocol: Begin stages a write, End settles it once. */
module Intents {
  import opened Wrappers
  import opened Media
  import opened Tables
  import opened Claims
  import opened Judging

  /** What a write leaves: the tables, and the roots whose files it touched. */
  datatype Commit = Commit(db: Db, written: set<RootKey>)

  /* ---------- Begin ---------- */

  predicate ValidAttempts(attempts: seq<Download>) {
    forall i | 0 <= i < |attempts| :: attempts[i].items != []
  }

  /** The staged attempts are for inst, and the first names only items it holds. */
  predicate AttemptsFit(attempts: seq<Download>, id: InstId, held: seq<Key>) {
    && attempts != []
    && (forall i | 0 <= i < |attempts| :: attempts[i].inst == id)
    && (forall k | k in attempts[0].items :: k in held)
  }

  /** The checks of one operation against the stored tables. */
  predicate Stageable(db: Db, fk: FileKey, it: Intent, held: seq<Key>) {
    match it
    case Delivery(_, _, attempts, _) => ValidAttempts(attempts) && AttemptsFit(attempts, fk.inst, held)
    case Retiming(_, adopted) => fk in db.files <==> adopted.None?
    case Removal(_) => true
  }

  function Begin(db: Db, fk: FileKey, it: Intent): Result<Db, StoreError> {
    if fk.name == "" then Failure(BadWrite)
    else if fk.inst !in db.instances then Failure(UnknownInstance)
    else if fk in db.intents then Failure(AlreadyPending)
    else if !Stageable(db, fk, it, db.instances[fk.inst].items) then Failure(BadWrite)
    else Success(db.(intents := db.intents[fk := it]))
  }

  /* ---------- End ---------- */

  function Undelivered(attempts: seq<Download>): (r: seq<Download>)
    ensures |r| == |attempts|
  {
    seq(|attempts|, i requires 0 <= i < |attempts| => attempts[i].(delivered := false))
  }

  function Generation(db: Db, fk: FileKey): nat {
    if fk in db.files then db.files[fk].generation else 0
  }

  /** The record one generation on, and its baseline when one is staged. */
  function PutRecord(db: Db, fk: FileKey, record: File, baseline: Option<string>): Db {
    db.(files := db.files[fk := record.(generation := Generation(db, fk) + 1)],
        baselines := if baseline.Some? then db.baselines[fk := baseline.value] else db.baselines)
  }

  function LocksOn(ks: seq<Key>, pair: Pair): set<LockKey> {
    set k | k in ks :: LockKey(k, pair)
  }

  /** Locks are only added: the time a lock was set survives setting it again.
      */
  function Locking(locks: map<LockKey, Time>, more: set<LockKey>, now: Time): map<LockKey, Time> {
    map lk | lk in locks.Keys + more :: if lk in locks then locks[lk] else now
  }

  function Unnamed(files: seq<LocalFile>, name: string): (r: seq<LocalFile>)
    ensures |r| <= |files|
  {
    if files == [] then []
    else if files[0].name == name then Unnamed(files[1..], name) else [files[0]] + Unnamed(files[1..], name)
  }

  function RootsHeld(db: Db, id: InstId): set<RootKey> {
    if id in db.instances then RootsOf(db.instances[id].items) else {}
  }

  /** A managed file's record and baseline go, or an unmanaged name leaves the
      local-file set. */
  function RemoveFile(c: Commit, fk: FileKey): Commit {
    var db := c.db.(files := c.db.files - {fk}, baselines := c.db.baselines - {fk});
    if fk in c.db.files || fk.inst !in c.db.local then c.(db := db)
    else
      var kept := Unnamed(c.db.local[fk.inst], fk.name);
      if |kept| == |c.db.local[fk.inst]| then c.(db := db)
      else Commit(db.(local := db.local[fk.inst := kept]), c.written + RootsHeld(c.db, fk.inst))
  }

  function RemoveFiles(c: Commit, fk: FileKey, names: seq<string>): Commit {
    if names == [] then c
    else
      var c1 := RemoveFiles(c, fk, names[..|names| - 1]);
      var name := names[|names| - 1];
      if name == fk.name then c1 else RemoveFile(c1, FileKey(fk.inst, name))
  }

  /** The locks a locked delivery sets: its first attempt's pair, on its items. */
  function DeliveredLocks(record: File, attempts: seq<Download>): set<LockKey> {
    if record.locked && attempts != [] then LocksOn(attempts[0].items, attempts[0].pair) else {}
  }

  function LandDeliver(db: Db, fk: FileKey, it: Intent, now: Time): Commit
    requires it.Delivery?
  {
    var db1 := PutRecord(db, fk, it.record, Some(it.baseline));
    var db2 := db1.(locks := Locking(db1.locks, DeliveredLocks(it.record, it.attempts), now), downloads := db1.downloads + it.attempts);
    RemoveFiles(Commit(db2, {}), fk, it.removes)
  }

  /** The locks that adopting a file sets: for each item of an owned instance,
      on the pairs it configures that this file can serve unaided. */
  ghost function AdoptedLocks(db: Db, a: Activation, id: InstId, file: Evidence): set<LockKey> {
    if OwnerOf(db.instances, id).None? then {}
    else
      set k, pair | k in db.instances[id].items && k in db.items && db.items[k].ref in db.sightings
                    && pair in Configured(a.policy, db.sightings[db.items[k].ref]) && Servable(a.policy, pair, {file}) :: LockKey(k, pair)
  }

  ghost function LandRetime(db: Db, a: Activation, fk: FileKey, it: Intent, now: Time): Commit
    requires it.Retiming?
  {
    var db1 := PutRecord(db, fk, it.record, it.adopted);
    var more := if it.adopted.None? then {} else AdoptedLocks(db1, a, fk.inst, Evidence(it.record.tag, it.record.flags));
    Commit(db1.(locks := Locking(db1.locks, more, now)), {})
  }

  ghost function Land(db: Db, a: Activation, fk: FileKey, it: Intent, now: Time): Commit {
    match it
    case Delivery(_, _, _, _) => LandDeliver(db, fk, it, now)
    case Retiming(_, _) => LandRetime(db, a, fk, it, now)
    case Removal(_) => RemoveFile(Commit(db, {}), fk)
  }

  /** The keys an instance lists. */
  function ItemsOf(db: Db, id: InstId): set<Key> {
    if id in db.instances then set k | k in db.instances[id].items else {}
  }

  /** A write that did not land leaves the intent gone, and a delivery's
      attempts logged undelivered. */
  function Unlanded(db: Db, fk: FileKey, it: Intent): Db {
    var db1 := db.(intents := db.intents - {fk});
    if it.Delivery? then db1.(downloads := db1.downloads + Undelivered(it.attempts)) else db1
  }

  /** A write that landed: its outcome, and its instance's coverage recomputed. */
  ghost function Landed(db: Db, a: Activation, fk: FileKey, it: Intent, now: Time): Result<Commit, StoreError> {
    var c := Land(db.(intents := db.intents - {fk}), a, fk, it, now);
    var db2 :- Recompute(c.db, a, ItemsOf(c.db, fk.inst), true);
    Success(c.(db := db2))
  }

  /** End of a pending write of op want: with none pending nothing changes,
      not landed a delivery's attempts are logged undelivered, landed its
      outcome is written and the instance's coverage recomputed. */
  ghost function End(db: Db, active: Option<Activation>, fk: FileKey, want: Op, landed: bool, now: Time): Result<Commit, StoreError> {
    if fk !in db.intents then Success(Commit(db, {}))
    else if db.intents[fk].OpOf() != want then Failure(WrongOp)
    else if !landed then Success(Commit(Unlanded(db, fk, db.intents[fk]), {}))
    else if active.None? then Failure(NoActivation)
    else Landed(db, active.value, fk, db.intents[fk], now)
  }
}
