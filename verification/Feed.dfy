/** The change feed: which library roots a commit names, and why re-reading
    only those brings a stale reader up to date. */
module Feed {
  import opened Wrappers
  import opened Media
  import opened Tables
  import opened Claims

  /* ---------- What a commit records ---------- */

  /** Whether a table's row at k is written by a commit. */
  predicate Differs<K(==), V(==)>(m: map<K, V>, m1: map<K, V>, k: K) {
    (k in m) != (k in m1) || (k in m && m[k] != m1[k])
  }

  function InstanceRoots(db: Db, id: InstId): set<RootKey> {
    if id in db.instances then RootsOf(db.instances[id].items) else {}
  }

  function SightingRoots(db: Db, ref: ItemRef): set<RootKey> {
    if ref in db.sightings && db.sightings[ref].key.Some? then {db.sightings[ref].key.value.root} else {}
  }

  /** Where a changed row shows: the roots it belongs to once the write is
      done. */
  ghost predicate NamesRoot(db: Db, db1: Db, r: RootKey) {
    || (exists k: Key :: k.root == r && Differs(db.items, db1.items, k))
    || (exists k: Key :: k.root == r && Differs(db.coverage, db1.coverage, k))
    || (exists lk: LockKey :: lk.key.root == r && Differs(db.locks, db1.locks, lk))
    || (exists id :: r in InstanceRoots(db1, id)
          && (Differs(db.instances, db1.instances, id) || Differs(db.local, db1.local, id) || Differs(db.embedded, db1.embedded, id)))
    || (exists ref :: r in SightingRoots(db1, ref) && Differs(db.sightings, db1.sightings, ref))
    || (exists ref: ItemRef :: r in SightingRoots(db1, ref) && Differs(db.roots, db1.roots, ref.root))
    || (exists i: nat :: |db.downloads| <= i < |db1.downloads| && r in RootsOf(db1.downloads[i].items))
  }

  /** The roots whose managed files a commit wrote. */
  ghost predicate NamesWritten(db: Db, db1: Db, written: set<RootKey>, r: RootKey) {
    r in written || exists fk: FileKey :: r in InstanceRoots(db1, fk.inst) && Differs(db.files, db1.files, fk)
  }

  /** A commit names a root when it wrote one of its rows or its files. */
  ghost predicate Named(db: Db, db1: Db, written: set<RootKey>, r: RootKey) {
    NamesRoot(db, db1, r) || NamesWritten(db, db1, written, r)
  }

  /* ---------- What a reader shows of a root ---------- */

  /** One listed item: its facts, its instance with what is stored for it, and
      its coverage with its locks. */
  datatype ItemView = ItemView(
    rec: Record, sighting: Option<Sighting>, root: Option<Root>, instance: Option<Instance>,
    coverage: seq<Covering>, locks: set<Pair>,
    files: map<string, File>, local: Option<seq<LocalFile>>, embedded: Option<seq<Track>>)

  function At<K(==), V>(m: map<K, V>, k: K): Option<V> {
    if k in m then Some(m[k]) else None
  }

  function LockedPairs(locks: map<LockKey, Time>, k: Key): set<Pair> {
    set lk | lk in locks && lk.key == k :: lk.pair
  }

  function FilesAt(files: map<FileKey, File>, id: InstId): map<string, File> {
    map name | name in (set fk | fk in files && fk.inst == id :: fk.name) :: files[FileKey(id, name)]
  }

  function ViewOf(db: Db, k: Key): ItemView
    requires k in db.items
  {
    var rec := db.items[k];
    ItemView(rec, At(db.sightings, rec.ref), At(db.roots, rec.ref.root), At(db.instances, rec.inst),
             CoverageRow(db.coverage, k), LockedPairs(db.locks, k),
             FilesAt(db.files, rec.inst), At(db.local, rec.inst), At(db.embedded, rec.inst))
  }

  predicate Listed(db: Db, k: Key) {
    k in db.items && Live(db.instances, db.items[k])
  }

  function ItemsView(db: Db, r: RootKey): map<Key, ItemView> {
    map k | k in db.items && Listed(db, k) && k.root == r :: ViewOf(db, k)
  }

  /** The log of the downloads that name an item of a root. */
  function HistoryOf(log: seq<Download>, r: RootKey): seq<Download> {
    if log == [] then []
    else HistoryOf(log[..|log| - 1], r) + (if r in RootsOf(log[|log| - 1].items) then [log[|log| - 1]] else [])
  }

  datatype RootView = RootView(items: map<Key, ItemView>, history: seq<Download>)

  function View(db: Db, r: RootKey): RootView {
    RootView(ItemsView(db, r), HistoryOf(db.downloads, r))
  }

  /* ---------- Completeness ---------- */

  lemma {:induction false} HistorySame(log: seq<Download>, more: seq<Download>, r: RootKey)
    requires log <= more
    requires forall i: nat | |log| <= i < |more| :: r !in RootsOf(more[i].items)
    ensures HistoryOf(more, r) == HistoryOf(log, r)
    decreases |more|
  {
    if |log| < |more| {
      HistorySame(log, more[..|more| - 1], r);
    } else {
      assert log == more;
    }
  }

  lemma LocksSame(db: Db, db1: Db, r: RootKey, k: Key)
    requires !NamesRoot(db, db1, r) && k.root == r
    ensures LockedPairs(db1.locks, k) == LockedPairs(db.locks, k)
  {
    forall p: Pair
      ensures p in LockedPairs(db1.locks, k) <==> p in LockedPairs(db.locks, k)
    {
      assert !Differs(db.locks, db1.locks, LockKey(k, p));
    }
  }

  lemma FilesSame(db: Db, db1: Db, written: set<RootKey>, r: RootKey, id: InstId)
    requires !NamesWritten(db, db1, written, r) && r in InstanceRoots(db1, id)
    ensures FilesAt(db1.files, id) == FilesAt(db.files, id)
  {
    forall name: string
      ensures name in FilesAt(db1.files, id) <==> name in FilesAt(db.files, id)
      ensures name in FilesAt(db.files, id) ==> FilesAt(db1.files, id)[name] == FilesAt(db.files, id)[name]
    {
      assert !Differs(db.files, db1.files, FileKey(id, name));
    }
  }

  /** The rows of an instance that lists a key of a root no commit names. */
  lemma InstanceSame(db: Db, db1: Db, written: set<RootKey>, r: RootKey, k: Key, id: InstId)
    requires !Named(db, db1, written, r) && k.root == r && id in db1.instances && k in db1.instances[id].items
    ensures At(db.instances, id) == At(db1.instances, id) && At(db.local, id) == At(db1.local, id) && At(db.embedded, id) == At(db1.embedded, id)
    ensures FilesAt(db1.files, id) == FilesAt(db.files, id)
  {
    assert r in InstanceRoots(db1, id);
    assert !Differs(db.instances, db1.instances, id) && !Differs(db.local, db1.local, id) && !Differs(db.embedded, db1.embedded, id);
    FilesSame(db, db1, written, r, id);
  }

  /** The sighting a record of such a root names, and its root's facts. */
  lemma SightingSame(db: Db, db1: Db, r: RootKey, k: Key, ref: ItemRef)
    requires !NamesRoot(db, db1, r) && k.root == r && ref in db1.sightings && db1.sightings[ref].key == Some(k)
    ensures At(db.sightings, ref) == At(db1.sightings, ref) && At(db.roots, ref.root) == At(db1.roots, ref.root)
  {
    assert r in SightingRoots(db1, ref);
    assert !Differs(db.sightings, db1.sightings, ref) && !Differs(db.roots, db1.roots, ref.root);
  }

  lemma RecordSame(db: Db, db1: Db, r: RootKey, k: Key)
    requires !NamesRoot(db, db1, r) && k.root == r
    ensures At(db.items, k) == At(db1.items, k) && CoverageRow(db.coverage, k) == CoverageRow(db1.coverage, k)
  {
    assert !Differs(db.items, db1.items, k) && !Differs(db.coverage, db1.coverage, k);
  }

  /** What is stored for the instance a record names, or for none. */
  lemma HolderSame(db: Db, db1: Db, written: set<RootKey>, r: RootKey, k: Key)
    requires Sound(db) && Sound(db1) && !Named(db, db1, written, r) && k.root == r && k in db1.items
    ensures var id := db1.items[k].inst;
            && At(db.instances, id) == At(db1.instances, id) && At(db.local, id) == At(db1.local, id) && At(db.embedded, id) == At(db1.embedded, id)
            && FilesAt(db1.files, id) == FilesAt(db.files, id)
  {
    hide Owning, Tables.Named, Kept, Stamped, Sourced, Overlapping, Staging, NonEmpty, NoStray, Named;
    var id := db1.items[k].inst;
    if id == 0 {
      NoFiles(db);
      NoFiles(db1);
    } else {
      InstanceSame(db, db1, written, r, k, id);
    }
  }

  lemma SoundNamed(db: Db, k: Key)
    requires Sound(db) && Listed(db, k)
    ensures NamesClaim(db.sightings, db.instances, k, db.items[k])
  {
  }

  /** A listed item of a root no commit names is shown as before. */
  lemma ItemSame(db: Db, db1: Db, written: set<RootKey>, r: RootKey, k: Key)
    requires Sound(db) && Sound(db1) && !Named(db, db1, written, r) && k.root == r
    ensures Listed(db, k) <==> Listed(db1, k)
    ensures Listed(db, k) ==> ViewOf(db, k) == ViewOf(db1, k)
  {
    hide Sound, NamesRoot, NamesWritten, FilesAt, LockedPairs;
    RecordSame(db, db1, r, k);
    if k in db1.items {
      HolderSame(db, db1, written, r, k);
      if Listed(db1, k) {
        SoundNamed(db1, k);
        SightingSame(db, db1, r, k, db1.items[k].ref);
        LocksSame(db, db1, r, k);
      }
    }
  }

  lemma NoFiles(db: Db)
    requires Held(db.instances, db.files, db.baselines, db.local, db.embedded) && 0 !in db.instances
    ensures FilesAt(db.files, 0) == map[] && 0 !in db.local && 0 !in db.embedded
  {
  }

  lemma LogSame(db: Db, db1: Db, r: RootKey)
    requires !NamesRoot(db, db1, r) && db.downloads <= db1.downloads
    ensures HistoryOf(db1.downloads, r) == HistoryOf(db.downloads, r)
  {
    HistorySame(db.downloads, db1.downloads, r);
  }

  lemma ItemsSame(db: Db, db1: Db, written: set<RootKey>, r: RootKey)
    requires Sound(db) && Sound(db1) && !Named(db, db1, written, r)
    ensures ItemsView(db, r) == ItemsView(db1, r)
  {
    hide ViewOf, Sound, Named, Listed;
    ListedRecorded(db);
    ListedRecorded(db1);
    forall k: Key | k.root == r
      ensures Listed(db, k) <==> Listed(db1, k)
      ensures Listed(db, k) ==> ViewOf(db, k) == ViewOf(db1, k)
    {
      ItemSame(db, db1, written, r, k);
    }
    assert ItemsView(db, r) == ItemsView(db1, r);
  }

  lemma ListedRecorded(db: Db)
    ensures forall k: Key | Listed(db, k) :: k in db.items
  {
  }

  lemma NamedNot(db: Db, db1: Db, written: set<RootKey>, r: RootKey)
    requires !Named(db, db1, written, r)
    ensures !NamesRoot(db, db1, r)
  {
    hide NamesRoot, NamesWritten;
  }

  /** Every root whose listed view a commit changes is among those it names. */
  lemma FeedComplete(db: Db, db1: Db, written: set<RootKey>, r: RootKey)
    requires Sound(db) && Sound(db1) && db.downloads <= db1.downloads
    requires View(db, r) != View(db1, r)
    ensures Named(db, db1, written, r)
  {
    hide ItemsView, HistoryOf, Sound, Named, NamesRoot;
    if !Named(db, db1, written, r) {
      NamedNot(db, db1, written, r);
      LogSame(db, db1, r);
      ItemsSame(db, db1, written, r);
    }
  }
}
