/** What the End of a landed write leaves of its instance's files: the record
    it put, the files it superseded, and what those files' going touches. */
module Landings {
  import opened Wrappers
  import opened Media
  import opened Languages
  import opened Tables
  import opened Judging
  import opened Intents
  import opened IntentsKeep
  import opened Verdicts
  import Pins

  /* ---------- What a landed write clears ---------- */

  /** The names a list clears, but for one. */
  function NamesOf(removes: seq<string>, keep: string): set<string> {
    set name | name in removes && name != keep
  }

  /** The list has the name twice. */
  predicate Again(removes: seq<string>, name: string) {
    exists i, j :: 0 <= i < j < |removes| && removes[i] == name && removes[j] == name
  }

  /** Of the names a delivery clears, those that go from the listing: not
      managed, or already cleared earlier in the list. */
  function Unlisted(files: map<FileKey, File>, fk: FileKey, removes: seq<string>): set<string> {
    set name | name in NamesOf(removes, fk.name) && (FileKey(fk.inst, name) !in files || Again(removes, name))
  }

  /** The names a landed write clears of its instance: a delivery's superseded
      files, other than the one it delivers, or the file removed. */
  function ClearedNames(fk: FileKey, it: Intent): set<string> {
    match it
    case Delivery(_, _, _, removes) => NamesOf(removes, fk.name)
    case Retiming(_, _) => {}
    case Removal(_) => {fk.name}
  }

  /** Those that go from its listing. */
  function ClearedListed(files: map<FileKey, File>, fk: FileKey, it: Intent): set<string> {
    match it
    case Delivery(_, _, _, removes) => Unlisted(files, fk, removes)
    case Retiming(_, _) => {}
    case Removal(_) => if fk in files then {} else {fk.name}
  }

  /** A listing without some names. */
  function Others(files: seq<LocalFile>, gone: set<string>): seq<LocalFile> {
    if files == [] then [] else (if files[0].name in gone then [] else [files[0]]) + Others(files[1..], gone)
  }

  predicate Lists(local: map<InstId, seq<LocalFile>>, id: InstId, gone: set<string>) {
    id in local && exists f :: f in local[id] && f.name in gone
  }

  function RootsAt(db: Db, id: InstId): set<RootKey> {
    if id in db.instances then set k | k in db.instances[id].items :: k.root else {}
  }

  lemma {:induction false} OthersUnnamed(files: seq<LocalFile>, name: string)
    ensures Unnamed(files, name) == Others(files, {name})
  {
    if files != [] {
      OthersUnnamed(files[1..], name);
    }
  }

  lemma {:induction false} OthersTwice(files: seq<LocalFile>, gone: set<string>, more: set<string>)
    ensures Others(Others(files, gone), more) == Others(files, gone + more)
  {
    if files != [] {
      OthersTwice(files[1..], gone, more);
      if files[0].name !in gone {
        assert Others(files, gone)[1..] == Others(files[1..], gone);
      } else {
        assert Others(files, gone) == Others(files[1..], gone);
      }
    }
  }

  lemma {:induction false} OthersFewer(files: seq<LocalFile>, gone: set<string>)
    ensures |Others(files, gone)| <= |files|
    ensures |Others(files, gone)| == |files| <==> !exists f :: f in files && f.name in gone
    ensures |Others(files, gone)| == |files| ==> Others(files, gone) == files
    ensures forall f :: f in Others(files, gone) <==> f in files && f.name !in gone
  {
    if files != [] {
      OthersFewer(files[1..], gone);
      assert files == [files[0]] + files[1..];
    }
  }

  /* ---------- Clearing one name after another ---------- */

  /** rows without an instance's rows of some names. */
  function Besides<V>(rows: map<FileKey, V>, id: InstId, names: set<string>): map<FileKey, V> {
    map fx | fx in rows && !(fx.inst == id && fx.name in names) :: rows[fx]
  }

  /** c is db with some names cleared of instance id, some of them from its
      listing. */
  ghost predicate Cleared(db: Db, c: Commit, id: InstId, names: set<string>, gone: set<string>) {
    && c.db == db.(files := c.db.files, baselines := c.db.baselines, local := c.db.local)
    && c.db.files == Besides(db.files, id, names) && c.db.baselines == Besides(db.baselines, id, names)
    && c.db.local == (if id in db.local then db.local[id := Others(db.local[id], gone)] else db.local)
    && c.written == if Lists(db.local, id, gone) then RootsAt(db, id) else {}
  }

  lemma ClearedNone(db: Db, id: InstId)
    ensures Cleared(db, Commit(db, {}), id, {}, {})
  {
    if id in db.local {
      OthersFewer(db.local[id], {});
    }
  }

  lemma ClearedRows<V>(rows: map<FileKey, V>, id: InstId, names: set<string>, name: string)
    ensures Besides(rows, id, names) - {FileKey(id, name)} == Besides(rows, id, names + {name})
  {
  }

  /** One listing, its name dropped when it is not managed. */
  lemma ClearedListing(db: Db, id: InstId, gone: set<string>, name: string)
    requires id in db.local
    ensures var kept := Unnamed(Others(db.local[id], gone), name);
            && kept == Others(db.local[id], gone + {name})
            && (|kept| == |Others(db.local[id], gone)| <==> !exists f :: f in db.local[id] && f.name !in gone && f.name == name)
            && (|kept| == |Others(db.local[id], gone)| ==> kept == Others(db.local[id], gone))
  {
    OthersUnnamed(Others(db.local[id], gone), name);
    OthersTwice(db.local[id], gone, {name});
    OthersFewer(Others(db.local[id], gone), {name});
    OthersFewer(db.local[id], gone);
  }

  lemma RemoveFileRows(c: Commit, fk: FileKey)
    ensures var r := RemoveFile(c, fk);
            && r.db == c.db.(files := c.db.files - {fk}, baselines := c.db.baselines - {fk}, local := r.db.local)
            && if fk in c.db.files || fk.inst !in c.db.local || |Unnamed(c.db.local[fk.inst], fk.name)| == |c.db.local[fk.inst]|
               then r.db.local == c.db.local && r.written == c.written
               else r.db.local == c.db.local[fk.inst := Unnamed(c.db.local[fk.inst], fk.name)] && r.written == c.written + RootsAt(c.db, fk.inst)
  {
  }

  /** The listing's part of clearing one name. */
  lemma ClearsListed(db: Db, c: Commit, r: Commit, id: InstId, gone: set<string>, more: set<string>, name: string, managed: bool)
    requires c.db.local == (if id in db.local then db.local[id := Others(db.local[id], gone)] else db.local)
    requires c.written == if Lists(db.local, id, gone) then RootsAt(db, id) else {}
    requires more == if managed then gone else gone + {name}
    requires if managed || id !in c.db.local || |Unnamed(c.db.local[id], name)| == |c.db.local[id]|
             then r.db.local == c.db.local && r.written == c.written
             else r.db.local == c.db.local[id := Unnamed(c.db.local[id], name)] && r.written == c.written + RootsAt(db, id)
    ensures r.db.local == if id in db.local then db.local[id := Others(db.local[id], more)] else db.local
    ensures r.written == if Lists(db.local, id, more) then RootsAt(db, id) else {}
  {
    hide Unnamed, Others, RootsAt;
    if id in db.local {
      ClearedListing(db, id, gone, name);
    }
  }

  lemma ClearsOne(db: Db, c: Commit, id: InstId, names: set<string>, gone: set<string>, name: string)
    requires Cleared(db, c, id, names, gone)
    ensures Cleared(db, RemoveFile(c, FileKey(id, name)), id, names + {name},
                    if FileKey(id, name) in db.files && name !in names then gone else gone + {name})
  {
    hide Unnamed, Others, RemoveFile, Lists, RootsAt, Besides;
    var r := RemoveFile(c, FileKey(id, name));
    var managed := FileKey(id, name) in db.files && name !in names;
    RemoveFileRows(c, FileKey(id, name));
    ClearedRows(db.files, id, names, name);
    ClearedRows(db.baselines, id, names, name);
    BesidesHas(db.files, id, names, name);
    RootsSame(db, c.db, id);
    ClearsListed(db, c, r, id, gone, if managed then gone else gone + {name}, name, managed);
  }

  lemma BesidesHas<V>(rows: map<FileKey, V>, id: InstId, names: set<string>, name: string)
    ensures FileKey(id, name) in Besides(rows, id, names) <==> FileKey(id, name) in rows && name !in names
  {
  }

  lemma RootsSame(db: Db, db1: Db, id: InstId)
    requires db1.instances == db.instances
    ensures RootsAt(db1, id) == RootsAt(db, id)
  {
  }

  lemma UnlistedNext(files: map<FileKey, File>, fk: FileKey, removes: seq<string>)
    requires removes != []
    ensures var init, name := removes[..|removes| - 1], removes[|removes| - 1];
            && NamesOf(removes, fk.name) == (if name == fk.name then NamesOf(init, fk.name) else NamesOf(init, fk.name) + {name})
            && Unlisted(files, fk, removes) ==
               if name == fk.name || (FileKey(fk.inst, name) in files && name !in NamesOf(init, fk.name)) then Unlisted(files, fk, init)
               else Unlisted(files, fk, init) + {name}
  {
    var init, last := removes[..|removes| - 1], removes[|removes| - 1];
    assert removes == init + [last];
    forall name
      ensures Again(removes, name) <==> Again(init, name) || (name == last && name in init)
    {
      if name == last && name in init {
        var i :| 0 <= i < |init| && init[i] == name;
        assert removes[i] == name && removes[|init|] == name;
      }
      if Again(init, name) {
        var i, j :| 0 <= i < j < |init| && init[i] == name && init[j] == name;
        assert removes[i] == name && removes[j] == name;
      }
    }
  }

  lemma {:induction false} ClearsAll(db: Db, c: Commit, fk: FileKey, removes: seq<string>)
    requires c == Commit(db, {})
    ensures Cleared(db, RemoveFiles(c, fk, removes), fk.inst, NamesOf(removes, fk.name), Unlisted(db.files, fk, removes))
  {
    hide RemoveFile, Cleared, Again;
    if removes == [] {
      ClearedNone(db, fk.inst);
      assert NamesOf(removes, fk.name) == {} && Unlisted(db.files, fk, removes) == {};
    } else {
      var init, name := removes[..|removes| - 1], removes[|removes| - 1];
      ClearsAll(db, c, fk, init);
      UnlistedNext(db.files, fk, removes);
      hide NamesOf, Unlisted;
      if name != fk.name {
        ClearsOne(db, RemoveFiles(c, fk, init), fk.inst, NamesOf(init, fk.name), Unlisted(db.files, fk, init), name);
      }
    }
  }

  /* ---------- The End of a landed write ---------- */

  /** The rows of a file after a landed End: its own record and baseline as
      staged, one generation on, unless it was removed; a cleared name's gone;
      any other's as it was. */
  predicate RowsLanded(files: map<FileKey, File>, baselines: map<FileKey, string>, files1: map<FileKey, File>, baselines1: map<FileKey, string>,
                       fk: FileKey, it: Intent, fx: FileKey) {
    if fx == fk then
      match it
      case Delivery(record, baseline, _, _) => PutAt(files, files1, fk, record) && fk in baselines1 && baselines1[fk] == baseline
      case Retiming(record, adopted) =>
        && PutAt(files, files1, fk, record)
        && (if adopted.Some? then fk in baselines1 && baselines1[fk] == adopted.value else SameAt(baselines, baselines1, fk))
      case Removal(_) => fk !in files1 && fk !in baselines1
    else if fx.inst == fk.inst && fx.name in ClearedNames(fk, it) then fx !in files1 && fx !in baselines1
    else SameAt(files, files1, fx) && SameAt(baselines, baselines1, fx)
  }

  predicate SameAt<V(==)>(rows: map<FileKey, V>, after: map<FileKey, V>, fx: FileKey) {
    (fx in after <==> fx in rows) && (fx in rows ==> after[fx] == rows[fx])
  }

  predicate PutAt(files: map<FileKey, File>, after: map<FileKey, File>, fk: FileKey, record: File) {
    fk in after && after[fk] == record.(generation := if fk in files then files[fk].generation + 1 else 1)
  }

  /** The listing after a landed End, and the roots it touched: those of the
      instance's items, when the listing lost a name. */
  predicate ListingLanded(local: map<InstId, seq<LocalFile>>, files: map<FileKey, File>, roots: set<RootKey>,
                          local1: map<InstId, seq<LocalFile>>, written: set<RootKey>, fk: FileKey, it: Intent) {
    var gone := ClearedListed(files, fk, it);
    && local1 == (if fk.inst in local then local[fk.inst := Others(local[fk.inst], gone)] else local)
    && written == if Lists(local, fk.inst, gone) then roots else {}
  }

  ghost predicate FilesLanded(db: Db, c: Commit, fk: FileKey, it: Intent, fx: FileKey) {
    && RowsLanded(db.files, db.baselines, c.db.files, c.db.baselines, fk, it, fx)
    && ListingLanded(db.local, db.files, RootsAt(db, fk.inst), c.db.local, c.written, fk, it)
  }

  lemma PutRecordRows(db: Db, fk: FileKey, record: File, baseline: Option<string>)
    ensures var db1 := PutRecord(db, fk, record, baseline);
            && PutAt(db.files, db1.files, fk, record) && db1 == db.(files := db.files[fk := db1.files[fk]], baselines := db1.baselines)
            && db1.baselines == if baseline.Some? then db.baselines[fk := baseline.value] else db.baselines
  {
  }

  /** A delivery's rows, once its record is put and its list cleared. */
  lemma DeliveryRows(files: map<FileKey, File>, baselines: map<FileKey, string>, fk: FileKey, it: Intent, put: File, fx: FileKey)
    requires it.Delivery? && put == it.record.(generation := if fk in files then files[fk].generation + 1 else 1)
    ensures RowsLanded(files, baselines, Besides(files[fk := put], fk.inst, NamesOf(it.removes, fk.name)),
                       Besides(baselines[fk := it.baseline], fk.inst, NamesOf(it.removes, fk.name)), fk, it, fx)
  {
  }

  lemma LandsDelivery(db: Db, a: Activation, fk: FileKey, it: Intent, now: Time, fx: FileKey)
    requires it.Delivery?
    ensures var c := Land(db, a, fk, it, now);
            && FilesLanded(db, c, fk, it, fx)
            && c.db == db.(files := c.db.files, baselines := c.db.baselines, local := c.db.local, locks := c.db.locks, downloads := db.downloads + it.attempts)
  {
    hide RemoveFiles, Locking, Others, RootsAt, PutRecord, PutAt, Besides, NamesOf, Unlisted, Lists, RowsLanded;
    var db1 := PutRecord(db, fk, it.record, Some(it.baseline));
    var db2 := db1.(locks := Locking(db1.locks, DeliveredLocks(it.record, it.attempts), now), downloads := db1.downloads + it.attempts);
    PutRecordRows(db, fk, it.record, Some(it.baseline));
    ClearsAll(db2, Commit(db2, {}), fk, it.removes);
    RootsSame(db, db2, fk.inst);
    DeliveryUnlists(db.files, db2.files[fk], fk, it.removes);
    DeliveryRows(db.files, db.baselines, fk, it, db2.files[fk], fx) by { PutIs(db.files, db1.files, fk, it.record); }
  }

  lemma PutIs(files: map<FileKey, File>, after: map<FileKey, File>, fk: FileKey, record: File)
    requires PutAt(files, after, fk, record)
    ensures after[fk] == record.(generation := if fk in files then files[fk].generation + 1 else 1)
  {
  }

  /** Which names go from the listing does not hang on the file delivered. */
  lemma DeliveryUnlists(files: map<FileKey, File>, put: File, fk: FileKey, removes: seq<string>)
    ensures Unlisted(files[fk := put], fk, removes) == Unlisted(files, fk, removes)
  {
  }

  lemma LandsRetiming(db: Db, a: Activation, fk: FileKey, it: Intent, now: Time, fx: FileKey)
    requires it.Retiming?
    ensures var c := Land(db, a, fk, it, now);
            && FilesLanded(db, c, fk, it, fx) && c.db == db.(files := c.db.files, baselines := c.db.baselines, locks := c.db.locks)
  {
    hide Locking, AdoptedLocks, RootsAt, PutRecord, Others;
    PutRecordRows(db, fk, it.record, it.adopted);
    if fk.inst in db.local {
      OthersFewer(db.local[fk.inst], {});
    }
  }

  lemma LandsRemoval(db: Db, a: Activation, fk: FileKey, it: Intent, now: Time, fx: FileKey)
    requires it.Removal?
    ensures var c := Land(db, a, fk, it, now);
            && FilesLanded(db, c, fk, it, fx) && c.db == db.(files := c.db.files, baselines := c.db.baselines, local := c.db.local)
  {
    hide RemoveFile, RootsAt, Others, Lists;
    ClearedNone(db, fk.inst);
    ClearsOne(db, Commit(db, {}), fk.inst, {}, {}, fk.name);
    assert {} + {fk.name} == {fk.name};
  }

  lemma Lands(db: Db, a: Activation, fk: FileKey, it: Intent, now: Time, fx: FileKey)
    ensures var c := Land(db, a, fk, it, now);
            && FilesLanded(db, c, fk, it, fx)
            && c.db == db.(files := c.db.files, baselines := c.db.baselines, local := c.db.local, locks := c.db.locks,
                           downloads := db.downloads + (if it.Delivery? then it.attempts else []))
  {
    hide FilesLanded, Land;
    assert db.downloads + [] == db.downloads;
    match it
    case Delivery(_, _, _, _) => LandsDelivery(db, a, fk, it, now, fx);
    case Retiming(_, _) => LandsRetiming(db, a, fk, it, now, fx);
    case Removal(_) => LandsRemoval(db, a, fk, it, now, fx);
  }

  /** A landed End writes what its intent staged, and recomputes. */
  lemma EndLands(db: Db, a: Activation, fk: FileKey, now: Time)
    requires Inv(db, Some(a)) && fk in db.intents
    ensures End(db, Some(a), fk, db.intents[fk].OpOf(), true, now).Success?
    ensures var c, r := Land(db.(intents := db.intents - {fk}), a, fk, db.intents[fk], now), End(db, Some(a), fk, db.intents[fk].OpOf(), true, now).value;
            && Recompute(c.db, a, ItemsOf(c.db, fk.inst), true) == Success(r.db) && r.written == c.written
            && r.db == c.db.(coverage := r.db.coverage, locks := r.db.locks)
  {
    hide Inv, Land, Recompute, ItemsOf, Unlanded;
    EndKeeps(db, Some(a), fk, db.intents[fk].OpOf(), true, now);
    var c := Land(db.(intents := db.intents - {fk}), a, fk, db.intents[fk], now);
    Pins.RecomputeFrame(c.db, a, ItemsOf(c.db, fk.inst), true);
  }

  lemma FilesLandedOn(db: Db, db1: Db, c: Commit, c1: Commit, fk: FileKey, it: Intent, fx: FileKey)
    requires FilesLanded(db1, c, fk, it, fx) && c1.written == c.written
    requires db1.files == db.files && db1.baselines == db.baselines && db1.local == db.local && db1.instances == db.instances
    requires c1.db.files == c.db.files && c1.db.baselines == c.db.baselines && c1.db.local == c.db.local
    ensures FilesLanded(db, c1, fk, it, fx)
  {
    hide RowsLanded, ListingLanded, RootsAt;
    RootsSame(db, db1, fk.inst);
  }

  /** What a landed End leaves of every file, the listing and the log, and
      which roots it marks. */
  lemma LandedFiles(db: Db, a: Activation, fk: FileKey, now: Time, fx: FileKey)
    requires Inv(db, Some(a)) && fk in db.intents
    ensures End(db, Some(a), fk, db.intents[fk].OpOf(), true, now).Success?
    ensures var it, c := db.intents[fk], End(db, Some(a), fk, db.intents[fk].OpOf(), true, now).value;
            && FilesLanded(db, c, fk, it, fx)
            && c.db == db.(intents := db.intents - {fk}, files := c.db.files, baselines := c.db.baselines, local := c.db.local,
                           locks := c.db.locks, coverage := c.db.coverage, downloads := db.downloads + (if it.Delivery? then it.attempts else []))
  {
    hide Inv, Land, End, Recompute, ItemsOf, FilesLanded;
    var it := db.intents[fk];
    var db1 := db.(intents := db.intents - {fk});
    EndLands(db, a, fk, now);
    Lands(db1, a, fk, it, now, fx);
    FilesLandedOn(db, db1, Land(db1, a, fk, it, now), End(db, Some(a), fk, it.OpOf(), true, now).value, fk, it, fx);
  }

  /* ---------- Locks ---------- */

  /** The locks a landed write sets: a locked delivery's first pair, on the
      items it was fetched for; or, adopting a file, each pair that an item of
      its owned instance wants and the file alone is related to. */
  predicate SetsLock(db: Db, a: Activation, fk: FileKey, it: Intent, lk: LockKey) {
    match it
    case Delivery(record, _, attempts, _) => record.locked && attempts != [] && lk.key in attempts[0].items && lk.pair == attempts[0].pair
    case Retiming(record, adopted) =>
      && adopted.Some? && fk.inst in db.instances && db.instances[fk.inst].owner.Some?
      && lk.key in db.instances[fk.inst].items && lk.key in db.items && db.items[lk.key].ref in db.sightings
      && (var sight := db.sightings[db.items[lk.key].ref].item; lk.pair in AllPairs(a.policy.targets(sight.original, sight.audio)))
      && Graded(a.policy, lk.pair, record.tag, record.flags, {Exact, Substitute, ManualOnly})
    case Removal(_) => false
  }

  lemma AloneServable(p: Policy, pair: Pair, e: Evidence)
    ensures Servable(p, pair, {e}) <==> Graded(p, pair, e.tag, e.flags, {Exact, Substitute, ManualOnly})
  {
    ForServes(pair.variant, e.flags);
    if e.flags.Serves(pair.variant) {
      assert Serving(p, pair, {e}, p.grade(pair.tag, e.tag));
    }
  }

  lemma AdoptedSets(db: Db, a: Activation, id: InstId, e: Evidence, lk: LockKey)
    ensures lk in AdoptedLocks(db, a, id, e) <==>
            && id in db.instances && db.instances[id].owner.Some?
            && lk.key in db.instances[id].items && lk.key in db.items && db.items[lk.key].ref in db.sightings
            && lk.pair in Configured(a.policy, db.sightings[db.items[lk.key].ref]) && Servable(a.policy, lk.pair, {e})
  {
    hide Servable, Configured;
  }

  lemma LandsLock(db: Db, a: Activation, fk: FileKey, it: Intent, now: Time, lk: LockKey)
    ensures var locks := Land(db, a, fk, it, now).db.locks;
            && (lk in locks <==> lk in db.locks || SetsLock(db, a, fk, it, lk))
            && (lk in locks ==> locks[lk] == if lk in db.locks then db.locks[lk] else now)
  {
    hide RemoveFiles, RemoveFile, AdoptedLocks, Cleared, Graded, Servable;
    match it
    case Delivery(record, baseline, attempts, removes) =>
      var db1 := PutRecord(db, fk, record, Some(baseline));
      var db2 := db1.(locks := Locking(db1.locks, DeliveredLocks(record, attempts), now), downloads := db1.downloads + attempts);
      ClearsAll(db2, Commit(db2, {}), fk, removes);
      ClearedLocks(db2, RemoveFiles(Commit(db2, {}), fk, removes), fk.inst, NamesOf(removes, fk.name), Unlisted(db2.files, fk, removes));
    case Retiming(record, adopted) =>
      var db1 := PutRecord(db, fk, record, adopted);
      AdoptedSets(db1, a, fk.inst, Evidence(record.tag, record.flags), lk);
      AloneServable(a.policy, lk.pair, Evidence(record.tag, record.flags));
    case Removal(_) =>
      RemoveFileRows(Commit(db, {}), fk);
  }

  lemma ClearedLocks(db: Db, c: Commit, id: InstId, names: set<string>, gone: set<string>)
    requires Cleared(db, c, id, names, gone)
    ensures c.db.locks == db.locks
  {
  }

  /** k is recorded and live, and instance id lists it. */
  predicate LiveItem(db: Db, id: InstId, k: Key) {
    id in db.instances && k in db.instances[id].items && k in db.items && Live(db.instances, db.items[k])
  }

  /** lk after a landed End: set or as it was, unless it is on one of the
      instance's live items and on no wanted pair, or lapses. */
  ghost predicate LockLanded(db: Db, after: Db, a: Activation, fk: FileKey, it: Intent, now: Time, lk: LockKey) {
    && (lk in after.locks ==> after.locks[lk] == if lk in db.locks then db.locks[lk] else now)
    && (lk in after.locks <==> (lk in db.locks || SetsLock(db, a, fk, it, lk)) && (LiveItem(after, fk.inst, lk.key) ==> KeepsPair(after, a, lk, true)))
  }

  /** A landed End sets the locks its write calls for, each dated now unless it
      was set already, and drops, of the locks on its instance's live items,
      those on no wanted pair and those that lapse. */
  lemma EndLocks(db: Db, a: Activation, fk: FileKey, now: Time, lk: LockKey)
    requires Inv(db, Some(a)) && fk in db.intents
    ensures End(db, Some(a), fk, db.intents[fk].OpOf(), true, now).Success?
    ensures LockLanded(db, End(db, Some(a), fk, db.intents[fk].OpOf(), true, now).value.db, a, fk, db.intents[fk], now, lk)
  {
    hide Inv, Land, End, Recompute, FilesLanded, SetsLock, KeepsPair;
    var it := db.intents[fk];
    var db1 := db.(intents := db.intents - {fk});
    var c := Land(db1, a, fk, it, now);
    EndLands(db, a, fk, now);
    Lands(db1, a, fk, it, now, fk);
    LandsLock(db1, a, fk, it, now, lk);
    SetsLockOn(db, db1, a, fk, it, lk);
    RecomputeLock(c.db, a, ItemsOf(c.db, fk.inst), true, lk);
    if lk.key in c.db.items {
      KeepsPairOn(c.db, End(db, Some(a), fk, it.OpOf(), true, now).value.db, a, lk);
    }
  }

  lemma SetsLockOn(db: Db, db1: Db, a: Activation, fk: FileKey, it: Intent, lk: LockKey)
    requires db1.instances == db.instances && db1.items == db.items && db1.sightings == db.sightings
    ensures SetsLock(db1, a, fk, it, lk) <==> SetsLock(db, a, fk, it, lk)
  {
    hide Graded;
  }

  lemma KeepsPairOn(db: Db, db1: Db, a: Activation, lk: LockKey)
    requires lk.key in db.items && db1 == db.(coverage := db1.coverage, locks := db1.locks)
    ensures KeepsPair(db1, a, lk, true) <==> KeepsPair(db, a, lk, true)
  {
    hide Subtitled;
    LapsesOn(db, db1, a, db.items[lk.key].inst, lk);
  }
}
