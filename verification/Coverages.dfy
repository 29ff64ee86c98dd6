/** Recomputing coverage in place: a pair, a key, an instance's keys. */
module Coverages {
  import opened Wrappers
  import opened Media
  import opened Languages
  import opened Tables
  import opened Claims
  import opened Judging
  import opened Transactions

  /** A call that wrote what r says, or was refused as r says. */
  predicate Yields<T(==)>(e: Outcome<StoreError>, after: T, r: Result<T, StoreError>) {
    match r
    case Success(v) => e.Pass? && after == v
    case Failure(x) => e == Fail(x)
  }

  function Found(ev: seq<Evidence>): set<Evidence> {
    set e | e in ev
  }

  lemma FoundMore(ev: seq<Evidence>, e: Evidence)
    ensures Found(ev + [e]) == Found(ev) + {e}
  {
    assert e in ev + [e];
  }

  /* ---------- One pair ---------- */

  predicate Best(p: Policy, pair: Pair, e: Evidence, c: Class) {
    e.flags.Serves(pair.variant) && p.grade(pair.tag, e.tag) == c
  }

  lemma ServingMore(p: Policy, pair: Pair, ev: set<Evidence>, e: Evidence, c: Class)
    ensures Serving(p, pair, ev + {e}, c) <==> Serving(p, pair, ev, c) || Best(p, pair, e, c)
  {
  }

  /** A pair graded against the evidence in turn; servable is whether any of
      it, serving the variant, is related to the tag. */
  method JudgePair(p: Policy, pair: Pair, ev: seq<Evidence>) returns (c: Coverage, servable: bool)
    ensures c == Judge(p, pair, Found(ev)) && servable == Servable(p, pair, Found(ev))
    ensures c == Covered <==> exists i :: 0 <= i < |ev| && ev[i].flags.Serves(pair.variant) && p.grade(pair.tag, ev[i].tag) == Exact
    ensures c == Missing <==> forall i | 0 <= i < |ev| && ev[i].flags.Serves(pair.variant) :: p.grade(pair.tag, ev[i].tag) !in {Exact, Substitute}
    ensures !servable <==> forall i | 0 <= i < |ev| && ev[i].flags.Serves(pair.variant) :: p.grade(pair.tag, ev[i].tag) == Unrelated
  {
    c, servable := Missing, false;
    var i := 0;
    while i < |ev|
      invariant 0 <= i <= |ev|
      invariant c == Covered <==> exists j :: 0 <= j < i && ev[j].flags.Serves(pair.variant) && p.grade(pair.tag, ev[j].tag) == Exact
      invariant c == Missing <==> forall j | 0 <= j < i && ev[j].flags.Serves(pair.variant) :: p.grade(pair.tag, ev[j].tag) !in {Exact, Substitute}
      invariant !servable <==> forall j | 0 <= j < i && ev[j].flags.Serves(pair.variant) :: p.grade(pair.tag, ev[j].tag) == Unrelated
      invariant c == Judge(p, pair, Found(ev[..i])) && servable == Servable(p, pair, Found(ev[..i]))
    {
      var e := ev[i];
      assert ev[..i + 1] == ev[..i] + [e];
      FoundMore(ev[..i], e);
      forall x: Class
        ensures Serving(p, pair, Found(ev[..i]) + {e}, x) <==> Serving(p, pair, Found(ev[..i]), x) || Best(p, pair, e, x)
      {
        ServingMore(p, pair, Found(ev[..i]), e, x);
      }
      if e.flags.Serves(pair.variant) {
        match p.grade(pair.tag, e.tag) {
          case Exact => c, servable := Covered, true;
          case Substitute => c, servable := (if c == Covered then Covered else Substituted), true;
          case ManualOnly => servable := true;
          case Unrelated =>
        }
      }
      i := i + 1;
    }
    assert ev[..i] == ev;
  }

  /* ---------- An instance's evidence ---------- */

  /** The managed files' evidence, in any order of a scan. */
  method FilesEvidence(tx: Tx, id: InstId) returns (ev: seq<Evidence>)
    ensures Found(ev) == set fk | fk in tx.db.files && fk.inst == id :: Evidence(tx.db.files[fk].tag, tx.db.files[fk].flags)
  {
    ev := [];
    var rest := set fk | fk in tx.db.files && fk.inst == id;
    ghost var met: set<FileKey> := {};
    while rest != {}
      invariant met + rest == set fk | fk in tx.db.files && fk.inst == id
      invariant Found(ev) == set fk | fk in met && fk in tx.db.files :: Evidence(tx.db.files[fk].tag, tx.db.files[fk].flags)
      decreases |rest|
    {
      var fk :| fk in rest;
      var e := Evidence(tx.db.files[fk].tag, tx.db.files[fk].flags);
      FoundMore(ev, e);
      ev := ev + [e];
      rest, met := rest - {fk}, met + {fk};
    }
  }

  method LocalEvidence(files: seq<LocalFile>) returns (ev: seq<Evidence>)
    ensures Found(ev) == set f | f in files :: Evidence(f.tag, f.flags)
  {
    ev := [];
    for i := 0 to |files|
      invariant Found(ev) == set f | f in files[..i] :: Evidence(f.tag, f.flags)
    {
      assert files[..i + 1] == files[..i] + [files[i]];
      FoundMore(ev, Evidence(files[i].tag, files[i].flags));
      ev := ev + [Evidence(files[i].tag, files[i].flags)];
    }
    assert files[..|files|] == files;
  }

  /** The tracks with a language whose codec coverage does not ignore. */
  method TrackEvidence(tracks: seq<Track>, codecs: set<string>) returns (ev: seq<Evidence>)
    ensures Found(ev) == set t | t in tracks && t.tag != "" && t.codec !in codecs :: Evidence(t.tag, t.flags)
  {
    ev := [];
    for i := 0 to |tracks|
      invariant Found(ev) == set t | t in tracks[..i] && t.tag != "" && t.codec !in codecs :: Evidence(t.tag, t.flags)
    {
      assert tracks[..i + 1] == tracks[..i] + [tracks[i]];
      if tracks[i].tag != "" && tracks[i].codec !in codecs {
        FoundMore(ev, Evidence(tracks[i].tag, tracks[i].flags));
        ev := ev + [Evidence(tracks[i].tag, tracks[i].flags)];
      }
    }
    assert tracks[..|tracks|] == tracks;
  }

  /** An instance's evidence, and whether it is both probed and listed. */
  method CollectEvidence(tx: Tx, codecs: set<string>, id: InstId) returns (ev: seq<Evidence>, complete: bool)
    ensures Found(ev) == EvidenceOf(tx.db, codecs, id)
    ensures complete <==> id in tx.db.local && id in tx.db.embedded
  {
    var managed := FilesEvidence(tx, id);
    var beside := LocalEvidence(if id in tx.db.local then tx.db.local[id] else []);
    var inside := TrackEvidence(if id in tx.db.embedded then tx.db.embedded[id] else [], codecs);
    ev := managed + beside + inside;
    assert Found(ev) == Found(managed) + Found(beside) + Found(inside);
    complete := id in tx.db.local && id in tx.db.embedded;
  }

  /* ---------- One key ---------- */

  lemma RecomputeNone(db: Db, a: Activation, k: Key, inventory: bool)
    requires k !in db.items || (!Live(db.instances, db.items[k]) && !Broken(db, db.items[k]))
    ensures Recompute(db, a, {k}, inventory) == Success(db)
  {
    hide JudgedAt, KeepsLock;
    assert !AnyBroken(db, {k});
    assert Judgeable(db, {k}) == {};
    RecomputedNone(db, a, inventory);
    assert db.(coverage := db.coverage, locks := db.locks) == db;
  }

  lemma RecomputedNone(db: Db, a: Activation, inventory: bool)
    ensures NewCoverage(db, a, {}) == db.coverage && KeptLocks(db, a, {}, inventory) == db.locks
  {
  }

  ghost function DroppedLocks(db: Db, a: Activation, k: Key, inventory: bool): set<LockKey>
    requires k in db.items && db.items[k].ref in db.sightings
  {
    set lk | lk in db.locks && lk.key == k && !KeepsLock(db, a, lk, inventory)
  }

  lemma RecomputeOne(db: Db, a: Activation, k: Key, inventory: bool)
    requires k in db.items && Live(db.instances, db.items[k]) && db.items[k].ref in db.sightings && !Broken(db, db.items[k])
    ensures var row := JudgedAt(db, a, k);
            Recompute(db, a, {k}, inventory)
            == Success(db.(coverage := if row == [] then db.coverage - {k} else db.coverage[k := row], locks := db.locks - DroppedLocks(db, a, k, inventory)))
  {
    hide JudgedAt, KeepsLock;
    assert Judgeable(db, {k}) == {k};
    var row := JudgedAt(db, a, k);
    assert NewCoverage(db, a, {k}) == if row == [] then db.coverage - {k} else db.coverage[k := row];
    assert KeptLocks(db, a, {k}, inventory) == db.locks - DroppedLocks(db, a, k, inventory);
  }

  /** The configured pairs in turn, each with whether anything serves it. */
  method JudgePairs(p: Policy, pairs: seq<Pair>, ev: seq<Evidence>) returns (row: seq<Covering>, servable: seq<bool>)
    ensures |row| == |servable| == |pairs|
    ensures forall i | 0 <= i < |pairs| :: row[i] == Covering(pairs[i], Judge(p, pairs[i], Found(ev))) && servable[i] == Servable(p, pairs[i], Found(ev))
  {
    hide Judge, Servable;
    row, servable := [], [];
    for i := 0 to |pairs|
      invariant |row| == |servable| == i
      invariant forall j | 0 <= j < i :: row[j] == Covering(pairs[j], Judge(p, pairs[j], Found(ev))) && servable[j] == Servable(p, pairs[j], Found(ev))
    {
      var c, s := JudgePair(p, pairs[i], ev);
      row, servable := row + [Covering(pairs[i], c)], servable + [s];
    }
  }

  method IndexOf(pairs: seq<Pair>, p: Pair) returns (at: int)
    ensures at == -1 <==> p !in pairs
    ensures at != -1 ==> 0 <= at < |pairs| && pairs[at] == p
  {
    at := 0;
    while at < |pairs|
      invariant 0 <= at <= |pairs| && p !in pairs[..at]
    {
      if pairs[at] == p {
        return;
      }
      at := at + 1;
    }
    at := -1;
  }

  predicate Unwanted(lk: LockKey, pairs: seq<Pair>, unservable: bool, serves: set<Pair>) {
    lk.pair !in pairs || (unservable && lk.pair !in serves)
  }

  function LocksOf(locks: map<LockKey, Time>, k: Key): set<LockKey> {
    set lk | lk in locks && lk.key == k
  }

  ghost function UnwantedLocks(locks: map<LockKey, Time>, k: Key, pairs: seq<Pair>, unservable: bool, serves: set<Pair>): set<LockKey> {
    set lk | lk in LocksOf(locks, k) && Unwanted(lk, pairs, unservable, serves)
  }

  /** Prunes k's locks: those off the configured pairs always, those nothing
      can serve when unservable is set. */
  method JudgeLocks(tx: Tx, k: Key, pairs: seq<Pair>, servable: seq<bool>, unservable: bool, ghost serves: set<Pair>)
    requires |servable| == |pairs|
    requires forall i | 0 <= i < |pairs| :: servable[i] == (pairs[i] in serves)
    modifies tx
    ensures tx.db == old(tx.db).(locks := old(tx.db).locks - UnwantedLocks(old(tx.db).locks, k, pairs, unservable, serves))
  {
    hide LocksOf;
    var drop: set<LockKey> := {};
    var rest := LocksOf(tx.db.locks, k);
    ghost var met: set<LockKey> := {};
    while rest != {}
      invariant tx.db == old(tx.db) && met + rest == LocksOf(tx.db.locks, k)
      invariant forall lk :: lk in drop <==> lk in met && Unwanted(lk, pairs, unservable, serves)
      decreases |rest|
    {
      var lk :| lk in rest;
      var i := IndexOf(pairs, lk.pair);
      if i < 0 || (unservable && !servable[i]) {
        drop := drop + {lk};
      }
      rest, met := rest - {lk}, met + {lk};
    }
    assert drop == UnwantedLocks(tx.db.locks, k, pairs, unservable, serves);
    tx.db := tx.db.(locks := tx.db.locks - drop);
  }

  /** k's coverage row and locks rewritten from its record's sighting and its
      instance's evidence; an ownerless instance's items keep their rows. */
  method RecomputeKey(tx: Tx, a: Activation, k: Key, inventory: bool) returns (e: Outcome<StoreError>)
    modifies tx
    ensures Yields(e, tx.db, Recompute(old(tx.db), a, {k}, inventory))
  {
    hide Recompute, EvidenceOf, Judge, Servable, KeepsLock, Judged;
    ghost var db := tx.db;
    if k !in tx.db.items {
      RecomputeNone(db, a, k, inventory);
      return Pass;
    }
    var rec := tx.db.items[k];
    var ev, complete := [], false;
    if rec.inst != 0 {
      if rec.inst !in tx.db.instances {
        RecomputeBroken(db, a, k, inventory);
        return Fail(Dangling);
      } else if tx.db.instances[rec.inst].owner.None? {
        RecomputeNone(db, a, k, inventory);
        return Pass;
      }
      ev, complete := CollectEvidence(tx, a.codecs, rec.inst);
    }
    assert Found(ev) == RecordEvidence(db, a.codecs, rec);
    if rec.ref !in tx.db.sightings {
      RecomputeBroken(db, a, k, inventory);
      return Fail(Dangling);
    }
    var pairs := Configured(a.policy, tx.db.sightings[rec.ref]);
    var row, servable := JudgePairs(a.policy, pairs, ev);
    JudgedRow(db, a, k, row);
    tx.db := tx.db.(coverage := if row == [] then tx.db.coverage - {k} else tx.db.coverage[k := row]);
    ghost var serves := set p | p in pairs && Servable(a.policy, p, Found(ev));
    JudgeLocks(tx, k, pairs, servable, inventory && complete, serves);
    RecomputeOne(db, a, k, inventory);
    LocksDropped(db, a, k, inventory, serves);
    e := Pass;
  }

  lemma RecomputeBroken(db: Db, a: Activation, k: Key, inventory: bool)
    requires k in db.items && Broken(db, db.items[k])
    ensures Recompute(db, a, {k}, inventory) == Failure(Dangling)
  {
    assert k in {k};
  }

  lemma JudgedRow(db: Db, a: Activation, k: Key, row: seq<Covering>)
    requires k in db.items && db.items[k].ref in db.sightings
    requires var pairs := Configured(a.policy, db.sightings[db.items[k].ref]);
             |row| == |pairs| && forall i | 0 <= i < |pairs| ::
               row[i] == Covering(pairs[i], Judge(a.policy, pairs[i], RecordEvidence(db, a.codecs, db.items[k])))
    ensures row == JudgedAt(db, a, k)
  {
  }

  lemma LocksDropped(db: Db, a: Activation, k: Key, inventory: bool, serves: set<Pair>)
    requires k in db.items && db.items[k].ref in db.sightings
    requires serves == set p | p in Configured(a.policy, db.sightings[db.items[k].ref]) && Servable(a.policy, p, RecordEvidence(db, a.codecs, db.items[k]))
    ensures var pairs, rec := Configured(a.policy, db.sightings[db.items[k].ref]), db.items[k];
            DroppedLocks(db, a, k, inventory)
            == UnwantedLocks(db.locks, k, pairs, inventory && Complete(db, rec.inst), serves)
  {
  }

  /* ---------- Several keys ---------- */

  lemma EvidenceFrame(db: Db, db1: Db, codecs: set<string>, id: InstId)
    requires db1.files == db.files && db1.local == db.local && db1.embedded == db.embedded
    ensures EvidenceOf(db1, codecs, id) == EvidenceOf(db, codecs, id)
  {
  }

  lemma JudgedFrame(db: Db, a: Activation, ks: set<Key>, inventory: bool, k: Key)
    requires k in db.items && db.items[k].ref in db.sightings
    ensures JudgedAt(Recomputed(db, a, ks, inventory), a, k) == JudgedAt(db, a, k)
  {
    EvidenceFrame(db, Recomputed(db, a, ks, inventory), a.codecs, db.items[k].inst);
  }

  lemma KeepsFrame(db: Db, a: Activation, ks: set<Key>, inventory: bool, lk: LockKey)
    requires lk.key in db.items && db.items[lk.key].ref in db.sightings
    ensures KeepsLock(Recomputed(db, a, ks, inventory), a, lk, inventory) == KeepsLock(db, a, lk, inventory)
  {
    EvidenceFrame(db, Recomputed(db, a, ks, inventory), a.codecs, db.items[lk.key].inst);
  }

  /** Recomputing in two parts is recomputing all at once. */
  lemma RecomputeJoin(db: Db, a: Activation, ks: set<Key>, more: set<Key>, inventory: bool)
    requires Recompute(db, a, ks, inventory).Success?
    ensures Recompute(Recompute(db, a, ks, inventory).value, a, more, inventory) == Recompute(db, a, ks + more, inventory)
  {
    hide JudgedAt, KeepsLock;
    var db1 := Recomputed(db, a, ks, inventory);
    BrokenJoin(db, db1, ks, more);
    if !AnyBroken(db, ks + more) {
      var js, ms := Judgeable(db, ks), Judgeable(db, more);
      assert Judgeable(db, ks + more) == js + ms;
      assert Judgeable(db1, more) == ms;
      CoverageJoin(db, a, ks, more, inventory);
      LocksJoin(db, a, ks, more, inventory);
    }
  }

  lemma BrokenJoin(db: Db, db1: Db, ks: set<Key>, more: set<Key>)
    requires db1.items == db.items && db1.instances == db.instances && db1.sightings == db.sightings
    ensures AnyBroken(db, ks + more) <==> AnyBroken(db, ks) || AnyBroken(db1, more)
  {
    if AnyBroken(db1, more) {
      var k :| k in more && k in db1.items && Broken(db1, db1.items[k]);
      assert k in ks + more && Broken(db, db.items[k]);
    }
    if AnyBroken(db, ks) {
      var k :| k in ks && k in db.items && Broken(db, db.items[k]);
      assert k in ks + more;
    }
    if AnyBroken(db, ks + more) {
      var k :| k in ks + more && k in db.items && Broken(db, db.items[k]);
      assert k in more ==> Broken(db1, db1.items[k]);
    }
  }

  lemma CoverageJoin(db: Db, a: Activation, ks: set<Key>, more: set<Key>, inventory: bool)
    ensures NewCoverage(Recomputed(db, a, ks, inventory), a, Judgeable(db, more)) == NewCoverage(db, a, Judgeable(db, ks) + Judgeable(db, more))
  {
    hide JudgedAt, KeptLocks;
    var db1 := Recomputed(db, a, ks, inventory);
    forall k | k in db.items && db.items[k].ref in db.sightings
      ensures JudgedAt(db1, a, k) == JudgedAt(db, a, k)
    {
      JudgedFrame(db, a, ks, inventory, k);
    }
  }

  lemma LocksJoin(db: Db, a: Activation, ks: set<Key>, more: set<Key>, inventory: bool)
    ensures KeptLocks(Recomputed(db, a, ks, inventory), a, Judgeable(db, more), inventory) == KeptLocks(db, a, Judgeable(db, ks) + Judgeable(db, more), inventory)
  {
    hide KeepsLock, NewCoverage;
    var db1 := Recomputed(db, a, ks, inventory);
    forall lk: LockKey | lk.key in db.items && db.items[lk.key].ref in db.sightings
      ensures KeepsLock(db1, a, lk, inventory) == KeepsLock(db, a, lk, inventory)
    {
      KeepsFrame(db, a, ks, inventory, lk);
    }
  }

  lemma RecomputeWider(db: Db, a: Activation, ks: set<Key>, more: set<Key>, inventory: bool)
    requires Recompute(db, a, ks, inventory).Failure? && ks <= more
    ensures Recompute(db, a, more, inventory) == Recompute(db, a, ks, inventory)
  {
  }

  lemma RecomputeEmpty(db: Db, a: Activation, inventory: bool)
    ensures Recompute(db, a, {}, inventory) == Success(db)
  {
    assert Judgeable(db, {}) == {};
    RecomputedNone(db, a, inventory);
    assert db.(coverage := db.coverage, locks := db.locks) == db;
  }

  /** Keys recomputed one after another, in any order; the first broken
      record stops the write. */
  method RecomputeKeys(tx: Tx, a: Activation, ks: set<Key>, inventory: bool) returns (e: Outcome<StoreError>)
    modifies tx
    ensures Yields(e, tx.db, Recompute(old(tx.db), a, ks, inventory))
  {
    hide Recompute;
    ghost var db := tx.db;
    ghost var done: set<Key> := {};
    var rest := ks;
    RecomputeEmpty(db, a, inventory);
    while rest != {}
      invariant done + rest == ks
      invariant Recompute(db, a, done, inventory) == Success(tx.db)
      decreases |rest|
    {
      var k :| k in rest;
      RecomputeJoin(db, a, done, {k}, inventory);
      e := RecomputeKey(tx, a, k, inventory);
      if e.Fail? {
        RecomputeWider(db, a, done + {k}, ks, inventory);
        return;
      }
      done, rest := done + {k}, rest - {k};
    }
    assert done == ks;
    e := Pass;
  }

  /** Every item an instance lists. */
  method RecomputeInstance(tx: Tx, a: Activation, id: InstId, inventory: bool) returns (e: Outcome<StoreError>)
    modifies tx
    ensures Yields(e, tx.db, Recompute(old(tx.db), a, if id in old(tx.db).instances then (set k | k in old(tx.db).instances[id].items) else {}, inventory))
  {
    if id !in tx.db.instances {
      RecomputeEmpty(tx.db, a, inventory);
      return Pass;
    }
    e := RecomputeKeys(tx, a, (set k | k in tx.db.instances[id].items), inventory);
  }
}
