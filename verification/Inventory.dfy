/** What a scan of an instance stores, the user's locks, and the attempt log. */
module Inventory {
  import opened Wrappers
  import opened Media
  import opened Bytes
  import opened Tables
  import opened Claims
  import opened Judging
  import opened Intents

  /** A probe is stored and the instance's coverage recomputed; it keeps locks
      that nothing serves, since it runs before the listing. */
  ghost function PutEmbedded(db: Db, active: Option<Activation>, id: InstId, tracks: seq<Track>): Result<Db, StoreError> {
    if active.None? then Failure(NoActivation)
    else if id !in db.instances then Failure(UnknownInstance)
    else Recompute(db.(embedded := db.embedded[id := tracks]), active.value, ItemsOf(db, id), false)
  }

  /** Names compare bytewise. */
  predicate NameLess(f: LocalFile, g: LocalFile) {
    Less(Codes(f.name), Codes(g.name))
  }

  function Inserted(f: LocalFile, files: seq<LocalFile>): seq<LocalFile> {
    if files == [] || NameLess(f, files[0]) then [f] + files else [files[0]] + Inserted(f, files[1..])
  }

  function ByName(files: seq<LocalFile>): seq<LocalFile> {
    if files == [] then [] else Inserted(files[|files| - 1], ByName(files[..|files| - 1]))
  }

  predicate Rising(files: seq<LocalFile>) {
    forall i, j | 0 <= i < j < |files| :: !NameLess(files[j], files[i])
  }

  lemma {:induction false} InsertedSame(f: LocalFile, files: seq<LocalFile>)
    ensures multiset(Inserted(f, files)) == multiset(files) + multiset{f}
  {
    hide NameLess;
    if files != [] {
      assert files == [files[0]] + files[1..];
      InsertedSame(f, files[1..]);
    }
  }

  lemma {:induction false} InsertedRising(f: LocalFile, files: seq<LocalFile>)
    requires Rising(files)
    ensures Rising(Inserted(f, files))
  {
    if files != [] {
      NotLess(files[0], files[0], f);
      hide NameLess;
      if NameLess(f, files[0]) {
        forall j | 0 < j < |files|
          ensures !NameLess(files[j], f)
        {
          NotLess(files[j], files[0], f);
        }
      } else {
        InsertedRising(f, files[1..]);
        InsertedSame(f, files[1..]);
        forall g | g in Inserted(f, files[1..])
          ensures !NameLess(g, files[0])
        {
          assert g in multiset(files[1..]) + multiset{f};
        }
      }
    }
  }

  lemma NotLess(a: LocalFile, b: LocalFile, c: LocalFile)
    ensures !NameLess(b, b)
    ensures !NameLess(a, b) && NameLess(c, b) ==> !NameLess(a, c)
  {
    LessTotal(Codes(b.name), Codes(b.name));
    if NameLess(a, c) && NameLess(c, b) {
      LessTransitive(Codes(a.name), Codes(c.name), Codes(b.name));
    }
  }

  /** A listing is stored whole, in bytewise name order. */
  lemma {:induction false} ListingByName(files: seq<LocalFile>)
    ensures Rising(ByName(files)) && multiset(ByName(files)) == multiset(files)
  {
    hide Inserted, NameLess;
    if files != [] {
      var n := |files| - 1;
      ListingByName(files[..n]);
      InsertedRising(files[n], ByName(files[..n]));
      InsertedSame(files[n], ByName(files[..n]));
      assert files == files[..n] + [files[n]];
    }
  }

  predicate ValidListing(files: seq<LocalFile>) {
    && (forall i | 0 <= i < |files| :: files[i].name != "")
    && (forall i, j | 0 <= i < j < |files| :: files[i].name != files[j].name)
  }

  /** A listing is stored by name and coverage recomputed; with a probe stored
      the inventory is complete, and a lock nothing serves goes. */
  ghost function PutExternal(db: Db, active: Option<Activation>, id: InstId, files: seq<LocalFile>): Result<Db, StoreError> {
    if !ValidListing(files) then Failure(BadWrite)
    else if active.None? then Failure(NoActivation)
    else if id !in db.instances then Failure(UnknownInstance)
    else Recompute(db.(local := db.local[id := ByName(files)]), active.value, ItemsOf(db, id), true)
  }

  /** The items of an instance whose sighting configures a pair. */
  function Configuring(db: Db, a: Activation, id: InstId, pair: Pair): set<Key>
    requires id in db.instances
  {
    set k | k in db.instances[id].items && k in db.items && db.items[k].ref in db.sightings
            && pair in Configured(a.policy, db.sightings[db.items[k].ref])
  }

  ghost function SetLock(db: Db, active: Option<Activation>, id: InstId, pair: Pair, locked: bool, now: Time): Result<Db, StoreError> {
    if active.None? then Failure(NoActivation)
    else if OwnerOf(db.instances, id).None? then Failure(NotLockable)
    else
      var ks := Configuring(db, active.value, id, pair);
      if ks == {} then Failure(NotLockable)
      else if locked && !Servable(active.value.policy, pair, EvidenceOf(db, active.value.codecs, id)) then Failure(NotLockable)
      else
        var lks := set k | k in ks :: LockKey(k, pair);
        Success(db.(locks := if locked then Locking(db.locks, lks, now) else db.locks - lks))
  }

  /** Attempts that delivered nothing join the log. */
  function RecordAttempts(db: Db, attempts: seq<Download>): Result<Db, StoreError> {
    if exists i :: 0 <= i < |attempts| && (attempts[i].delivered || attempts[i].items == []) then Failure(BadWrite)
    else Success(db.(downloads := db.downloads + attempts))
  }
}
