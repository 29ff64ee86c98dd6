/** What each commit publishes, and what a reader that has fallen behind is
    told to read again. */
module ChangeLog {
  import opened Media
  import opened Tables
  import opened Claims
  import opened Feed
  import opened Languages
  import opened Intents
  import opened Passes
  import opened Activations
  import opened Pins
  import opened Runs
  import opened Protocol

  /* ---------- One commit's subjects ---------- */

  /** A library root whose rows changed, or whose managed files did. */
  datatype Subject = Rows(root: RootKey) | Files(root: RootKey)

  /** A row a write touched; InstanceRow is an instance's own row, its listing
      or its probe. */
  datatype Touched =
    | Synthetic(subject: Subject)
    | KeyRow(key: Key)
    | LockRow(lock: LockKey)
    | InstanceRow(id: InstId)
    | FileRow(file: FileKey)
    | RootRow(root: RootRef)
    | SightingRow(ref: ItemRef)
    | DownloadRow(index: nat)

  datatype Mark = History | Unidentified | Config

  /** A changed row's subjects, found in the tables the write leaves. */
  ghost predicate StandsFor(db: Db, t: Touched, s: Subject) {
    match t
    case Synthetic(x) => s == x || (x.Files? && s == Rows(x.root))
    case KeyRow(k) => s == Rows(k.root)
    case LockRow(lk) => s == Rows(lk.key.root)
    case InstanceRow(id) => s.Rows? && s.root in InstanceRoots(db, id)
    case FileRow(fk) => s.root in InstanceRoots(db, fk.inst)
    case RootRow(rr) => s.Rows? && exists ref :: ref in db.sightings && ref.root == rr && s.root in SightingRoots(db, ref)
    case SightingRow(ref) => s.Rows? && s.root in SightingRoots(db, ref)
    case DownloadRow(i) => s.Rows? && i < |db.downloads| && s.root in RootsOf(db.downloads[i].items)
  }

  predicate Marks(touched: seq<Touched>) {
    exists i :: 0 <= i < |touched| && touched[i].DownloadRow?
  }

  /** The subjects of one commit, each once, in the order first met. */
  class Subjects {
    var seen: set<Subject>
    var list: seq<Subject>

    ghost predicate Valid()
      reads this
    {
      NoRepeat(list) && forall s :: s in list <==> s in seen
    }

    constructor ()
      ensures Valid() && seen == {}
    {
      seen, list := {}, [];
    }

    method AddOne(s: Subject)
      requires Valid()
      modifies this
      ensures Valid() && seen == old(seen) + {s} && old(list) <= list
    {
      if s !in seen {
        seen := seen + {s};
        list := list + [s];
      }
    }

    /** A files subject brings its rows subject with it. */
    method Add(s: Subject)
      requires Valid()
      modifies this
      ensures Valid() && old(list) <= list
      ensures seen == old(seen) + {s, Rows(s.root)}
    {
      AddOne(s);
      if s.Files? {
        AddOne(Rows(s.root));
      }
    }

    method AddRoots(ks: seq<Key>, files: bool)
      requires Valid()
      modifies this
      ensures Valid() && old(list) <= list
      ensures forall s :: s in seen <==> s in old(seen) || (s.root in RootsOf(ks) && (files || s.Rows?))
    {
      var i := 0;
      while i < |ks|
        invariant 0 <= i <= |ks| && Valid() && old(list) <= list
        invariant forall s :: s in seen <==> s in old(seen) || (s.root in RootsOf(ks[..i]) && (files || s.Rows?))
      {
        Add(if files then Files(ks[i].root) else Rows(ks[i].root));
        assert ks[..i + 1] == ks[..i] + [ks[i]];
        RootsOfMore(ks[..i], ks[i]);
        i := i + 1;
      }
      assert ks[..i] == ks;
    }

    method AddInstance(db: Db, id: InstId, files: bool)
      requires Valid()
      modifies this
      ensures Valid() && old(list) <= list
      ensures forall s :: s in seen <==> s in old(seen) || (s.root in InstanceRoots(db, id) && (files || s.Rows?))
    {
      if id in db.instances {
        AddRoots(db.instances[id].items, files);
      }
    }

    method AddSighting(db: Db, ref: ItemRef)
      requires Valid()
      modifies this
      ensures Valid() && old(list) <= list
      ensures forall s :: s in seen <==> s in old(seen) || (s.Rows? && s.root in SightingRoots(db, ref))
    {
      if ref in db.sightings && db.sightings[ref].key.Some? {
        Add(Rows(db.sightings[ref].key.value.root));
      }
    }

    /** A changed source root stands for the media roots its sightings are
        keyed under. */
    method AddRootFacts(db: Db, rr: RootRef)
      requires Valid()
      modifies this
      ensures Valid() && old(list) <= list
      ensures forall s :: s in seen <==>
                s in old(seen) || (s.Rows? && exists ref :: ref in db.sightings && ref.root == rr && s.root in SightingRoots(db, ref))
    {
      var rest := set ref | ref in db.sightings && ref.root == rr;
      ghost var done: set<ItemRef> := {};
      while rest != {}
        invariant Valid() && old(list) <= list
        invariant done + rest == set ref | ref in db.sightings && ref.root == rr
        invariant forall s :: s in seen <==> s in old(seen) || (s.Rows? && exists ref :: ref in done && s.root in SightingRoots(db, ref))
        decreases |rest|
      {
        var ref :| ref in rest;
        AddSighting(db, ref);
        rest, done := rest - {ref}, done + {ref};
      }
      assert done == set ref | ref in db.sightings && ref.root == rr;
    }

    method Map(db: Db, t: Touched)
      requires Valid()
      modifies this
      ensures Valid() && old(list) <= list
      ensures forall s :: s in seen <==> s in old(seen) || StandsFor(db, t, s)
    {
      match t {
        case Synthetic(s) => Add(s);
        case KeyRow(k) => Add(Rows(k.root));
        case LockRow(lk) => Add(Rows(lk.key.root));
        case InstanceRow(id) => AddInstance(db, id, false);
        case FileRow(fk) => AddInstance(db, fk.inst, true);
        case RootRow(rr) => AddRootFacts(db, rr);
        case SightingRow(ref) => AddSighting(db, ref);
        case DownloadRow(i) =>
          if i < |db.downloads| {
            AddRoots(db.downloads[i].items, false);
          }
      }
    }
  }

  lemma RootsOfMore(ks: seq<Key>, k: Key)
    ensures RootsOf(ks + [k]) == RootsOf(ks) + {k.root}
  {
    assert k in ks + [k];
  }

  /** A commit's subjects and marks: none but the mark for a change of
      configuration, every touched row's roots for any other. */
  method BeforeCommit(db: Db, touched: seq<Touched>, marks: set<Mark>) returns (c: Change)
    ensures Config in marks ==> c == Change([], marks)
    ensures Config !in marks ==>
              && NoRepeat(c.subjects) && c.marks == marks + (if Marks(touched) then {History} else {})
              && (forall s :: s in c.subjects <==> exists i :: 0 <= i < |touched| && StandsFor(db, touched[i], s))
              && Paired(c)
  {
    if Config in marks {
      return Change([], marks);
    }
    var out := new Subjects();
    var more := marks;
    var i := 0;
    while i < |touched|
      invariant 0 <= i <= |touched| && fresh(out) && out.Valid()
      invariant more == marks + (if Marks(touched[..i]) then {History} else {})
      invariant forall s :: s in out.seen <==> exists j :: 0 <= j < i && StandsFor(db, touched[j], s)
    {
      out.Map(db, touched[i]);
      if touched[i].DownloadRow? {
        assert touched[..i + 1][i].DownloadRow?;
        more := more + {History};
      }
      MarksMore(touched, i);
      i := i + 1;
    }
    assert touched[..i] == touched;
    c := Change(out.list, more);
    RowsBesideFiles(db, touched, c);
  }

  /** A root whose files changed is among those whose rows did. */
  ghost predicate Paired(c: Change) {
    forall r: RootKey | Files(r) in c.subjects :: Rows(r) in c.subjects
  }

  lemma RowsBesideFiles(db: Db, touched: seq<Touched>, c: Change)
    requires forall s :: s in c.subjects <==> exists i :: 0 <= i < |touched| && StandsFor(db, touched[i], s)
    ensures Paired(c)
  {
    forall r: RootKey | Files(r) in c.subjects
      ensures Rows(r) in c.subjects
    {
      var i :| 0 <= i < |touched| && StandsFor(db, touched[i], Files(r));
      assert StandsFor(db, touched[i], Rows(r));
    }
  }

  lemma MarksMore(touched: seq<Touched>, i: nat)
    requires i < |touched|
    ensures Marks(touched[..i + 1]) <==> Marks(touched[..i]) || touched[i].DownloadRow?
  {
    if Marks(touched[..i + 1]) {
      var j :| 0 <= j < i + 1 && touched[..i + 1][j].DownloadRow?;
      assert j < i ==> touched[..i][j].DownloadRow?;
    }
    if Marks(touched[..i]) {
      var j :| 0 <= j < i && touched[..i][j].DownloadRow?;
      assert touched[..i + 1][j].DownloadRow?;
    }
    if touched[i].DownloadRow? {
      assert touched[..i + 1][i].DownloadRow?;
    }
  }

  /* ---------- What a commit must touch ---------- */

  predicate Touches(touched: seq<Touched>, t: Touched) {
    t in touched
  }

  /** Every row a write changed is among those it touched. */
  ghost predicate TouchesAll(db: Db, db1: Db, touched: seq<Touched>) {
    && (forall k: Key | Differs(db.items, db1.items, k) || Differs(db.coverage, db1.coverage, k) :: Touches(touched, KeyRow(k)))
    && (forall lk: LockKey | Differs(db.locks, db1.locks, lk) :: Touches(touched, LockRow(lk)))
    && (forall id: InstId | RowDiffers(db, db1, id) ::
          Touches(touched, InstanceRow(id)))
    && (forall fk: FileKey | Differs(db.files, db1.files, fk) :: Touches(touched, FileRow(fk)))
    && (forall rr: RootRef | Differs(db.roots, db1.roots, rr) :: Touches(touched, RootRow(rr)))
    && (forall ref: ItemRef | Differs(db.sightings, db1.sightings, ref) :: Touches(touched, SightingRow(ref)))
    && (forall i: nat | |db.downloads| <= i < |db1.downloads| :: Touches(touched, DownloadRow(i)))
  }

  predicate RowDiffers(db: Db, db1: Db, id: InstId) {
    Differs(db.instances, db1.instances, id) || Differs(db.local, db1.local, id) || Differs(db.embedded, db1.embedded, id)
  }

  /** A root a commit names has its rows subject among the commit's. */
  lemma NamedRecorded(db: Db, db1: Db, touched: seq<Touched>, r: RootKey) returns (i: nat)
    requires TouchesAll(db, db1, touched) && Feed.Named(db, db1, {}, r)
    ensures i < |touched| && StandsFor(db1, touched[i], Rows(r))
  {
    var t: Touched;
    if k: Key :| k.root == r && (Differs(db.items, db1.items, k) || Differs(db.coverage, db1.coverage, k)) {
      t := KeyRow(k);
    } else if lk: LockKey :| lk.key.root == r && Differs(db.locks, db1.locks, lk) {
      t := LockRow(lk);
    } else if id: InstId :| r in InstanceRoots(db1, id) && RowDiffers(db, db1, id) {
      t := InstanceRow(id);
    } else if ref: ItemRef :| r in SightingRoots(db1, ref) && Differs(db.sightings, db1.sightings, ref) {
      t := SightingRow(ref);
    } else if ref: ItemRef :| r in SightingRoots(db1, ref) && Differs(db.roots, db1.roots, ref.root) {
      t := RootRow(ref.root);
    } else if n: nat :| |db.downloads| <= n < |db1.downloads| && r in RootsOf(db1.downloads[n].items) {
      t := DownloadRow(n);
    } else {
      var fk: FileKey :| r in InstanceRoots(db1, fk.inst) && Differs(db.files, db1.files, fk);
      t := FileRow(fk);
    }
    assert Touches(touched, t);
    i :| 0 <= i < |touched| && touched[i] == t;
  }

  /* ---------- The log, and a reader behind it ---------- */

  /** One revision: what it changed. Revision i is log[i - 1]. */
  datatype Change = Change(subjects: seq<Subject>, marks: set<Mark>)

  /** An answer to a reader: the roots to read again, or Full for all of them.
      */
  datatype Delta = Delta(full: bool, rev: nat, roots: seq<RootKey>, written: seq<RootKey>, marks: set<Mark>)

  const SINCE_LIMIT := 1000

  function Once<T(==, !new)>(list: seq<T>, v: T): (r: seq<T>)
    ensures NoRepeat(list) ==> NoRepeat(r)
    ensures forall x :: x in r <==> x in list || x == v
  {
    if v in list then list else list + [v]
  }

  /** A subject folded into a delta. */
  function WithSubject(d: Delta, s: Subject): Delta {
    match s
    case Rows(r) => d.(roots := Once(d.roots, r))
    case Files(r) => d.(written := Once(d.written, r))
  }

  function WithSubjects(d: Delta, subs: seq<Subject>): Delta {
    if subs == [] then d else WithSubject(WithSubjects(d, subs[..|subs| - 1]), subs[|subs| - 1])
  }

  function WithChange(d: Delta, c: Change): Delta {
    WithSubjects(d, c.subjects).(marks := d.marks + c.marks)
  }

  /** A run of changes read in one go. */
  function Collected(d: Delta, cs: seq<Change>): Delta {
    if cs == [] then d else WithChange(Collected(d, cs[..|cs| - 1]), cs[|cs| - 1])
  }

  /** The open store's log of revisions; those up to floor are no longer
      retained. */
  class Log {
    const epoch: nat
    var changes: seq<Change>
    var floor: nat
    var configRev: nat

    ghost predicate Valid()
      reads this
    {
      && floor <= |changes| && configRev <= |changes|
      && forall i | configRev <= i < |changes| :: Config !in changes[i].marks
    }

    constructor (epoch: nat)
      ensures Valid() && this.epoch == epoch && changes == []
    {
      this.epoch := epoch;
      changes, floor, configRev := [], 0, 0;
    }

    /** A commit with something to tell takes the next revision. */
    method Publish(c: Change)
      requires Valid()
      modifies this
      ensures Valid() && changes == old(changes) + [c] && floor == old(floor)
      ensures configRev == if Config in c.marks then |changes| else old(configRev)
    {
      changes := changes + [c];
      if Config in c.marks {
        configRev := |changes|;
      }
    }

    /** The oldest changes are no longer retained. */
    method Forget(upto: nat)
      requires Valid() && floor <= upto <= |changes|
      modifies this`floor
      ensures Valid() && floor == upto
    {
      floor := upto;
    }

    /** The changes after a revision. */
    function Rest(after: nat): seq<Change>
      reads this
    {
      if after < |changes| then changes[after..] else []
    }

    /** One page of the changes after a revision, oldest first. */
    method Page(after: nat, limit: nat) returns (full: bool, page: seq<Change>, more: bool)
      requires Valid() && limit > 0
      ensures full <==> after < floor
      ensures !full ==> page + Rest(after + |page|) == Rest(after) && |page| <= limit
      ensures !full ==> (more <==> Rest(after + |page|) != []) && (more ==> |page| == limit)
    {
      full := after < floor;
      var rest := Rest(after);
      page := if |rest| < limit then rest else rest[..limit];
      more := |rest| > limit;
    }

    /** The retained changes after a revision, read page by page. */
    method Collect(after: nat) returns (d: Delta)
      requires Valid()
      ensures after < floor ==> d == Delta(true, |changes|, [], [], {})
      ensures after >= floor ==> d == Collected(Delta(false, |changes|, [], [], {}), Rest(after))
    {
      var d0 := Delta(false, |changes|, [], [], {});
      ghost var read := [];
      assert Collected(d0, []) == d0 && [] + Rest(after) == Rest(after);
      hide Collected, Rest;
      d := d0;
      var at := after;
      var more := true;
      while more
        invariant at == after + |read| && (at > after ==> after >= floor)
        invariant d == Collected(d0, read) && read + Rest(at) == Rest(after)
        invariant !more ==> after >= floor && Rest(at) == []
        decreases more, |Rest(after)| - |read|
      {
        var full, page, m := Page(at, SINCE_LIMIT);
        if full {
          return Delta(true, |changes|, [], [], {});
        }
        d := FoldPage(d, page);
        PagesJoin(d0, read, page);
        PartsJoin(read, page, Rest(at + |page|));
        read := read + page;
        at, more := at + |page|, m;
      }
      assert read + [] == read;
    }

    /** Answers a reader that has seen everything up to a revision. */
    method Since(e: nat, after: nat) returns (d: Delta)
      requires Valid()
      ensures d.rev == |changes|
      ensures d.full <==> e != epoch || after == 0 || after < configRev || after < floor
      ensures !d.full ==> d == Collected(Delta(false, |changes|, [], [], {}), Rest(after))
      ensures d.full ==> d.roots == [] && d.written == [] && (d.marks == {Config} <==> e == epoch && 0 < after < configRev)
    {
      if e != epoch || after == 0 {
        return Delta(true, |changes|, [], [], {});
      } else if after < configRev {
        return Delta(true, |changes|, [], [], {Config});
      }
      CollectedFull(Delta(false, |changes|, [], [], {}), Rest(after));
      d := Collect(after);
    }
  }

  lemma PartsJoin(a: seq<Change>, b: seq<Change>, c: seq<Change>)
    ensures a + (b + c) == a + b + c
  {
  }

  /** A page of changes folded in, oldest first. */
  method FoldPage(d: Delta, page: seq<Change>) returns (r: Delta)
    ensures r == Collected(d, page)
  {
    r := d;
    var i := 0;
    while i < |page|
      invariant 0 <= i <= |page| && r == Collected(d, page[..i])
    {
      r := Fold(r, page[i]);
      assert page[..i + 1][..i] == page[..i];
      i := i + 1;
    }
    assert page[..i] == page;
  }

  /** One change folded in, a subject at a time. */
  method Fold(d: Delta, c: Change) returns (r: Delta)
    ensures r == WithChange(d, c)
  {
    r := d;
    var i := 0;
    while i < |c.subjects|
      invariant 0 <= i <= |c.subjects| && r == WithSubjects(d, c.subjects[..i])
    {
      r := WithSubject(r, c.subjects[i]);
      assert c.subjects[..i + 1][..i] == c.subjects[..i];
      i := i + 1;
    }
    assert c.subjects[..i] == c.subjects;
    r := r.(marks := r.marks + c.marks);
    WithSubjectsMarks(d, c.subjects);
  }

  lemma {:induction false} WithSubjectsMarks(d: Delta, subs: seq<Subject>)
    ensures WithSubjects(d, subs).marks == d.marks && WithSubjects(d, subs).full == d.full && WithSubjects(d, subs).rev == d.rev
  {
    if subs != [] {
      WithSubjectsMarks(d, subs[..|subs| - 1]);
    }
  }

  lemma {:induction false} CollectedFull(d: Delta, cs: seq<Change>)
    ensures Collected(d, cs).full == d.full && Collected(d, cs).rev == d.rev
  {
    if cs != [] {
      CollectedFull(d, cs[..|cs| - 1]);
      WithSubjectsMarks(Collected(d, cs[..|cs| - 1]), cs[|cs| - 1].subjects);
    }
  }

  lemma {:induction false} SubjectsFolded(d: Delta, subs: seq<Subject>, r: RootKey)
    requires NoRepeat(d.roots) && NoRepeat(d.written)
    ensures var e := WithSubjects(d, subs);
            && NoRepeat(e.roots) && NoRepeat(e.written)
            && (r in e.roots <==> r in d.roots || Rows(r) in subs)
            && (r in e.written <==> r in d.written || Files(r) in subs)
  {
    if subs != [] {
      SubjectsFolded(d, subs[..|subs| - 1], r);
      assert subs == subs[..|subs| - 1] + [subs[|subs| - 1]];
    }
  }

  /** A delta names exactly the subjects of its changes, each once. */
  lemma {:induction false} CollectedHolds(d: Delta, cs: seq<Change>, r: RootKey)
    requires d.roots == [] && d.written == []
    ensures NoRepeat(Collected(d, cs).roots) && NoRepeat(Collected(d, cs).written)
    ensures r in Collected(d, cs).roots <==> exists i :: 0 <= i < |cs| && Rows(r) in cs[i].subjects
    ensures r in Collected(d, cs).written <==> exists i :: 0 <= i < |cs| && Files(r) in cs[i].subjects
  {
    if cs != [] {
      var n := |cs| - 1;
      CollectedHolds(d, cs[..n], r);
      SubjectsFolded(Collected(d, cs[..n]), cs[n].subjects, r);
      if i :| 0 <= i < |cs| && Rows(r) in cs[i].subjects && i < n {
        assert Rows(r) in cs[..n][i].subjects;
      }
      if i :| 0 <= i < |cs| && Files(r) in cs[i].subjects && i < n {
        assert Files(r) in cs[..n][i].subjects;
      }
    }
  }

  /** Every written root a delta names is also among its roots. */
  lemma WrittenListed(d: Delta, cs: seq<Change>, r: RootKey)
    requires d.roots == [] && d.written == [] && forall i | 0 <= i < |cs| :: Paired(cs[i])
    ensures r in Collected(d, cs).written ==> r in Collected(d, cs).roots
  {
    CollectedHolds(d, cs, r);
  }

  /** Reading in two parts, the second from where the first ended, is reading
      once: no change is repeated or skipped at a page's edge. */
  lemma {:induction false} PagesJoin(d: Delta, first: seq<Change>, second: seq<Change>)
    ensures Collected(Collected(d, first), second) == Collected(d, first + second)
  {
    hide WithChange;
    if second == [] {
      assert first + second == first;
    } else {
      var n := |second| - 1;
      var all := first + second;
      PagesJoin(d, first, second[..n]);
      assert all[..|all| - 1] == first + second[..n] && all[|all| - 1] == second[n];
    }
  }

  /* ---------- Staleness ---------- */

  /** A revision's change says what it did to the tables: it is marked config,
      or has the subjects of everything the write touched. */
  ghost predicate Tells(db: Db, db1: Db, c: Change) {
    || Config in c.marks
    || (exists touched :: TouchesAll(db, db1, touched)
          && forall s :: s in c.subjects <==> exists i :: 0 <= i < |touched| && StandsFor(db1, touched[i], s))
  }

  /** The tables at each revision, and the changes between them. */
  ghost predicate Journal(dbs: seq<Db>, changes: seq<Change>) {
    && |dbs| == |changes| + 1
    && (forall i | 0 <= i < |dbs| :: Sound(dbs[i]))
    && (forall i | 0 <= i < |changes| :: dbs[i].downloads <= dbs[i + 1].downloads && Tells(dbs[i], dbs[i + 1], changes[i]))
  }

  lemma ToldOnce(db: Db, db1: Db, c: Change, r: RootKey)
    requires Sound(db) && Sound(db1) && db.downloads <= db1.downloads
    requires Tells(db, db1, c) && Config !in c.marks && Rows(r) !in c.subjects
    ensures View(db, r) == View(db1, r)
  {
    hide View, Sound, TouchesAll, StandsFor, Feed.Named;
    if View(db, r) != View(db1, r) {
      FeedComplete(db, db1, {}, r);
      var touched :| TouchesAll(db, db1, touched)
        && forall s :: s in c.subjects <==> exists i :: 0 <= i < |touched| && StandsFor(db1, touched[i], s);
      var i := NamedRecorded(db, db1, touched, r);
    }
  }

  lemma {:induction false} Unchanged(dbs: seq<Db>, changes: seq<Change>, from: nat, upto: nat, r: RootKey)
    requires Journal(dbs, changes) && from <= upto <= |changes|
    requires forall i | from <= i < upto :: Config !in changes[i].marks && Rows(r) !in changes[i].subjects
    ensures View(dbs[from], r) == View(dbs[upto], r)
    decreases upto
  {
    hide View, Sound, Tells;
    if upto > from {
      Unchanged(dbs, changes, from, upto - 1, r);
      ToldOnce(dbs[upto - 1], dbs[upto], changes[upto - 1], r);
    }
  }

  /** A reader at a revision that reads again only the roots Since answers
      sees every root as it now is, unless Since answers Full. */
  method CatchUp(log: Log, ghost dbs: seq<Db>, after: nat, ghost r: RootKey) returns (d: Delta)
    requires log.Valid() && Journal(dbs, log.changes) && after <= |log.changes|
    ensures d.rev == |log.changes| && NoRepeat(d.roots)
    ensures d.full <==> after == 0 || after < log.configRev || after < log.floor
    ensures !d.full ==> d == Collected(Delta(false, |log.changes|, [], [], {}), log.Rest(after))
    ensures !d.full && r !in d.roots ==> View(dbs[after], r) == View(dbs[|log.changes|], r)
  {
    hide View, Sound, Tells;
    d := log.Since(log.epoch, after);
    if !d.full {
      CollectedHolds(Delta(false, |log.changes|, [], [], {}), log.Rest(after), r);
      if r !in d.roots {
        forall i | after <= i < |log.changes|
          ensures Rows(r) !in log.changes[i].subjects
        {
          assert log.Rest(after)[i - after] == log.changes[i];
        }
        Unchanged(dbs, log.changes, after, |log.changes|, r);
      }
    }
  }

  /* ---------- Runs ---------- */

  /** No call rewrites the download log; it only grows. */
  lemma StepLogGrows(s: State, c: Call, now: Time)
    requires Inv(s.db, s.active)
    ensures s.db.downloads <= Step(s, c, now).db.downloads
  {
    hide Inv, ObserveItems, FinishPass, Activate, End, Undelivered, Begin, BeginPass;
    var s1 := Step(s, c, now);
    if Effect(s, c, now).Success? {
      match c
      case Report(src, pass, root, items) =>
        ReportActive(s, src, pass, now, root, items);
        ObserveItemsHeld(s.db, s.active.value, src, pass, now, root, items);
      case CloseAPass(src, pass, complete, keep) =>
        PassPins(s.db, s.active, src, pass, complete, keep, now);
      case Configure(policy, sources, codecs) =>
        ActivateHeld(s.db, s.active, Normalize(policy, sources, codecs).value, now);
      case BeginWrite(fk, it) =>
        BeginLog(s.db, fk, it);
      case EndWrite(fk, op, landed) =>
        EndLog(s.db, s.active, fk, op, landed, now);
      case LogAttempts(attempts) =>
      case _ =>
        ProbeLog(s, c, now);
    }
  }

  lemma BeginLog(db: Db, fk: FileKey, it: Intent)
    requires Begin(db, fk, it).Success?
    ensures Begin(db, fk, it).value.downloads == db.downloads
  {
  }

  /** A commit of any run extends the journal of the revisions before it. */
  lemma StepJournal(s: State, c: Call, now: Time, book: nat -> Policy, dbs: seq<Db>, changes: seq<Change>, ch: Change)
    requires Good(s, book) && ByBook(book, c)
    requires Journal(dbs, changes) && dbs[|changes|] == s.db && Tells(s.db, Step(s, c, now).db, ch)
    ensures Journal(dbs + [Step(s, c, now).db], changes + [ch])
  {
    hide Sound, Tells, Step, Current, Agrees;
    StepKeeps(s, c, now, book);
    StepLogGrows(s, c, now);
  }
}
