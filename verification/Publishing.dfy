/** A run of the store with its feed: each commit published as it happens, and
    what a reader that comes back is told. */
module Publishing {
  import opened Wrappers
  import opened Media
  import opened Tables
  import opened Feed
  import opened ChangeLog
  import opened Languages
  import opened Runs

  /* ---------- From touched rows to a journal ---------- */

  /** A commit's own change tells what it did. */
  lemma CommitTells(db: Db, db1: Db, touched: seq<Touched>, marks: set<Mark>, c: Change)
    requires TouchesAll(db, db1, touched)
    requires Config in marks ==> c == Change([], marks)
    requires Config !in marks ==> forall s :: s in c.subjects <==> exists i :: 0 <= i < |touched| && StandsFor(db1, touched[i], s)
    ensures Tells(db, db1, c)
  {
    hide TouchesAll, StandsFor;
  }

  /** Tables that differ only where nothing is published. */
  predicate SameShown(db: Db, db1: Db) {
    && db1.items == db.items && db1.coverage == db.coverage && db1.locks == db.locks && db1.instances == db.instances
    && db1.local == db.local && db1.embedded == db.embedded && db1.files == db.files && db1.roots == db.roots
    && db1.sightings == db.sightings && db1.downloads == db.downloads
  }

  lemma TouchesNothing(db: Db, db1: Db)
    requires TouchesAll(db, db1, []) && db.downloads <= db1.downloads
    ensures SameShown(db, db1)
  {
    var next := DownloadRow(|db.downloads|);
    assert |db1.downloads| > |db.downloads| ==> Touches([], next);
    assert forall t :: !Touches([], t);
    forall id: InstId
      ensures !Differs(db.instances, db1.instances, id) && !Differs(db.local, db1.local, id) && !Differs(db.embedded, db1.embedded, id)
    {
      assert !RowDiffers(db, db1, id);
    }
    NoneDiffers(db.items, db1.items);
    NoneDiffers(db.coverage, db1.coverage);
    NoneDiffers(db.locks, db1.locks);
    NoneDiffers(db.instances, db1.instances);
    NoneDiffers(db.local, db1.local);
    NoneDiffers(db.embedded, db1.embedded);
    NoneDiffers(db.files, db1.files);
    NoneDiffers(db.roots, db1.roots);
    NoneDiffers(db.sightings, db1.sightings);
    assert db1.downloads == db.downloads;
  }

  lemma NoneDiffers<K, V>(m: map<K, V>, m1: map<K, V>)
    ensures (forall k :: !Differs(m, m1, k)) ==> m1 == m
  {
    if forall k :: !Differs(m, m1, k) {
      forall k
        ensures k in m <==> k in m1
        ensures k in m ==> m1[k] == m[k]
      {
        assert !Differs(m, m1, k);
      }
    }
  }

  lemma StandsOn(db: Db, db1: Db, t: Touched, s: Subject)
    requires SameShown(db, db1)
    ensures StandsFor(db, t, s) <==> StandsFor(db1, t, s)
  {
  }

  /** A change still tells after a write that publishes nothing. */
  lemma TellsOn(db: Db, mid: Db, last: Db, c: Change)
    requires Tells(db, mid, c) && SameShown(mid, last)
    ensures Tells(db, last, c)
  {
    hide SameShown, StandsFor, TouchesAll;
    if Config !in c.marks {
      var touched :| TouchesAll(db, mid, touched)
        && forall s :: s in c.subjects <==> exists i :: 0 <= i < |touched| && StandsFor(mid, touched[i], s);
      TouchesOn(db, mid, last, touched);
      forall t, s
        ensures StandsFor(mid, t, s) <==> StandsFor(last, t, s)
      {
        StandsOn(mid, last, t, s);
      }
    }
  }

  lemma TouchesOn(db: Db, mid: Db, last: Db, touched: seq<Touched>)
    requires TouchesAll(db, mid, touched) && SameShown(mid, last)
    ensures TouchesAll(db, last, touched)
  {
  }

  /** The last revision's tables replaced by later ones that show the same. */
  lemma JournalOn(dbs: seq<Db>, changes: seq<Change>, last: Db)
    requires Journal(dbs, changes) && SameShown(dbs[|changes|], last) && Sound(last)
    ensures Journal(dbs[..|changes|] + [last], changes)
  {
    hide Sound, Tells;
    var n := |changes|;
    var later := dbs[..n] + [last];
    if n > 0 {
      TellsOn(dbs[n - 1], dbs[n], last, changes[n - 1]);
    }
    assert forall i | 0 <= i < n :: later[i] == dbs[i];
  }

  lemma ShownItem(db: Db, db1: Db, k: Key)
    requires SameShown(db, db1)
    ensures Listed(db1, k) == Listed(db, k) && (k in db.items ==> ViewOf(db1, k) == ViewOf(db, k))
  {
    hide FilesAt, LockedPairs;
  }

  /** Between revisions a reader sees nothing change. */
  lemma ShownViews(db: Db, db1: Db, r: RootKey)
    requires SameShown(db, db1)
    ensures View(db1, r) == View(db, r)
  {
    hide Listed, ViewOf;
    ListedRecorded(db);
    ListedRecorded(db1);
    forall k: Key
      ensures Listed(db, k) <==> Listed(db1, k)
      ensures Listed(db, k) ==> ViewOf(db, k) == ViewOf(db1, k)
    {
      ShownItem(db, db1, k);
    }
    assert ItemsView(db1, r) == ItemsView(db, r);
  }

  /* ---------- A store and its feed ---------- */

  /** Whether a call installs another configuration, which its commit marks. */
  ghost predicate Reconfigures(s: State, c: Call, now: Time) {
    c.Configure? && Step(s, c, now).db.stored != s.db.stored
  }

  ghost predicate AllPaired(changes: seq<Change>) {
    forall i | 0 <= i < |changes| :: Paired(changes[i])
  }

  class Published {
    const log: Log
    /** The tables at each revision, the last as they are now. */
    ghost var dbs: seq<Db>
    ghost var now: State
    ghost var calls: seq<Call>
    ghost const books: nat -> (nat -> Policy)

    ghost predicate Valid()
      reads this, log
    {
      && log.Valid() && Good(now, books(Opens(calls)))
      && Journal(dbs, log.changes) && dbs[|log.changes|] == now.db
      && AllPaired(log.changes)
    }

    /** A new store, at revision 0. */
    constructor (epoch: nat, ghost books: nat -> (nat -> Policy))
      ensures Valid() && fresh(log) && log.epoch == epoch && log.changes == [] && calls == [] && now == State(EmptyDb(), None)
    {
      var l := new Log(epoch);
      EmptyGood(books(0));
      log := l;
      now, calls, dbs := State(EmptyDb(), None), [], [EmptyDb()];
      this.books := books;
    }

    /** A call and, when it touched a row or set a mark, the revision it
        allocates. */
    method Call(c: Runs.Call, ghost at: Time, db: Db, touched: seq<Touched>, marks: set<Mark>)
      requires Valid() && ByBook(books(Opens(calls)), c)
      requires db == Step(now, c, at).db && TouchesAll(now.db, db, touched)
      requires Config in marks <==> Reconfigures(now, c, at)
      modifies this, log
      ensures Valid() && now == Step(old(now), c, at) && calls == old(calls) + [c] && log.floor == old(log.floor)
      ensures touched == [] && marks == {} ==> log.changes == old(log.changes) && dbs[..|log.changes|] == old(dbs)[..|log.changes|]
      ensures !(touched == [] && marks == {}) ==> |log.changes| == |old(log.changes)| + 1 && dbs[..|old(dbs)|] == old(dbs)
    {
      hide Sound, Step, Tells, TouchesAll, StandsFor, Good, Journal, Paired;
      GoodParts(now, books(Opens(calls)));
      StepLogGrows(now, c, at);
      NextGood(now, c, at, books, calls);
      ghost var n := |log.changes|;
      JournalLength(dbs, log.changes);
      if touched == [] && marks == {} {
        TouchesNothing(now.db, db);
        GoodParts(Step(now, c, at), books(Opens(calls + [c])));
        JournalOn(dbs, log.changes, db);
        dbs := dbs[..n] + [db];
      } else {
        var ch := BeforeCommit(db, touched, marks);
        CommitTells(now.db, db, touched, marks, ch);
        NonePaired(marks);
        GoodParts(Step(now, c, at), books(Opens(calls + [c])));
        StepJournal(now, c, at, books(Opens(calls)), dbs, log.changes, ch);
        log.Publish(ch);
        dbs := dbs + [db];
      }
      now := Step(now, c, at);
      calls := calls + [c];
    }

    /** What a reader that read the store at a revision is told: unless it is
        to read everything again, every root not named is as it was. */
    method CatchUp(after: nat, ghost r: RootKey) returns (d: Delta)
      requires Valid() && after <= |log.changes|
      ensures |dbs| == |log.changes| + 1
      ensures d.rev == |log.changes| && NoRepeat(d.roots)
      ensures !d.full && r !in d.roots ==> View(dbs[after], r) == View(now.db, r)
      ensures !d.full && r in d.written ==> r in d.roots
      ensures d.full <==> after == 0 || after < log.configRev || after < log.floor
    {
      hide Sound, View, Tells, Good, Paired;
      d := ChangeLog.CatchUp(log, dbs, after, r);
      WrittenListed(Delta(false, |log.changes|, [], [], {}), log.Rest(after), r);
    }
  }

  lemma NonePaired(marks: set<Mark>)
    ensures Paired(Change([], marks))
  {
  }

  lemma GoodParts(s: State, book: nat -> Policy)
    requires Good(s, book)
    ensures Inv(s.db, s.active) && Sound(s.db)
  {
  }

  lemma JournalLength(dbs: seq<Db>, changes: seq<Change>)
    requires Journal(dbs, changes)
    ensures |dbs| == |changes| + 1
  {
  }

  lemma NextGood(s: State, c: Call, at: Time, books: nat -> (nat -> Policy), calls: seq<Call>)
    requires Good(s, books(Opens(calls))) && ByBook(books(Opens(calls)), c)
    ensures Good(Step(s, c, at), books(Opens(calls + [c])))
  {
    hide Good, Step;
    assert (calls + [c])[..|calls|] == calls;
    if c.Reopen? {
      ReopenGood(s, at, books(Opens(calls)), books(Opens(calls + [c])));
    } else {
      StepKeeps(s, c, at, books(Opens(calls)));
    }
  }
}
