/** Listing what is stored: which items show, and reads that never meet a row
    that is gone. */
module Reads {
  import opened Wrappers
  import opened Media
  import opened Tables
  import opened Bytes
  import opened Paging
  import opened KeyBytes
  import KeyText
  import RefKeys

  datatype ReadError = Gone | CursorInvalid | BadLimit

  const MAX_LIST_LIMIT := 500

  /** The keys a store holds are those Choose and ParseKey build. */
  ghost predicate KeysValid(db: Db) {
    forall k | k in db.items :: ValidKey(k)
  }

  /* ---------- One row ---------- */

  datatype ItemRow = ItemRow(key: Key, item: Item, inst: InstId, coverage: seq<Covering>, locked: seq<bool>, hasHistory: bool)
  datatype RootRow = RootRow(key: RootKey, source: SourceId, root: Root, hasHistory: bool)
  datatype UnidentifiedRow = UnidentifiedRow(source: SourceId, root: Root, item: Item)

  predicate InHistory(log: seq<Download>, k: Key) {
    exists i :: 0 <= i < |log| && k in log[i].items
  }

  predicate RootInHistory(log: seq<Download>, r: RootKey) {
    exists i, j :: 0 <= i < |log| && 0 <= j < |log[i].items| && log[i].items[j].root == r
  }

  function LockedFlags(locks: map<LockKey, Time>, k: Key, pairs: seq<Covering>): (r: seq<bool>)
    ensures |r| == |pairs|
  {
    seq(|pairs|, i requires 0 <= i < |pairs| => LockKey(k, pairs[i].pair) in locks)
  }

  /** A listed item: facts of the sighting its record names, which claims it. */
  function RowOf(db: Db, k: Key): ItemRow
    requires k in db.items && db.items[k].ref in db.sightings
  {
    var rec, row := db.items[k], CoverageRow(db.coverage, k);
    ItemRow(k, db.sightings[rec.ref].item, rec.inst, row, LockedFlags(db.locks, k, row), InHistory(db.downloads, k))
  }

  function RootRowOf(db: Db, k: Key): RootRow
    requires k in db.items && db.items[k].ref.root in db.roots
  {
    var rr := db.items[k].ref.root;
    RootRow(k.root, rr.source, db.roots[rr], RootInHistory(db.downloads, k.root))
  }

  /** No read of a committed state meets a row that is gone: a record's
      instance, a listed record's sighting and its root, and any sighting's
      root are all stored. */
  lemma NothingGone(db: Db, k: Key, ref: ItemRef)
    requires Sound(db)
    ensures k in db.items && db.items[k].inst != 0 ==> db.items[k].inst in db.instances
    ensures k in db.items && Live(db.instances, db.items[k]) ==>
              && db.items[k].ref in db.sightings && db.sightings[db.items[k].ref].key == Some(k)
              && db.items[k].ref.root in db.roots
    ensures ref in db.sightings ==> ref.root in db.roots
  {
  }

  /** Whether readers see a record; Gone when its instance is not stored. */
  method Listed(db: Db, k: Key, rec: Record) returns (r: Result<bool, ReadError>)
    ensures r == if rec.inst != 0 && rec.inst !in db.instances then Failure(Gone) else Success(Live(db.instances, rec))
  {
    if rec.inst == 0 {
      return Success(true);
    } else if rec.inst !in db.instances {
      return Failure(Gone);
    }
    r := Success(db.instances[rec.inst].owner.Some?);
  }

  method ReadItem(db: Db, k: Key) returns (r: Result<ItemRow, ReadError>)
    requires k in db.items
    ensures r == if db.items[k].ref in db.sightings then Success(RowOf(db, k)) else Failure(Gone)
    ensures r.Success? ==>
              && r.value.key == k && r.value.item == db.sightings[db.items[k].ref].item && r.value.inst == db.items[k].inst
              && r.value.coverage == (if k in db.coverage then db.coverage[k] else [])
              && |r.value.locked| == |r.value.coverage|
              && (forall i | 0 <= i < |r.value.locked| :: r.value.locked[i] <==> LockKey(k, r.value.coverage[i].pair) in db.locks)
              && (r.value.hasHistory <==> exists d :: d in db.downloads && k in d.items)
  {
    var rec := db.items[k];
    if rec.ref !in db.sightings {
      return Failure(Gone);
    }
    var row := CoverageRow(db.coverage, k);
    var locked: seq<bool> := [];
    for i := 0 to |row|
      invariant locked == LockedFlags(db.locks, k, row)[..i]
    {
      locked := locked + [LockKey(k, row[i].pair) in db.locks];
    }
    assert locked == LockedFlags(db.locks, k, row);
    r := Success(ItemRow(k, db.sightings[rec.ref].item, rec.inst, row, locked, InHistory(db.downloads, k)));
  }

  method ReadRoot(db: Db, k: Key) returns (r: Result<RootRow, ReadError>)
    requires k in db.items
    ensures r == if db.items[k].ref.root in db.roots then Success(RootRowOf(db, k)) else Failure(Gone)
    ensures r.Success? ==>
              && r.value.key == k.root && r.value.source == db.items[k].ref.root.source && r.value.root == db.roots[db.items[k].ref.root]
              && (r.value.hasHistory <==> exists d, x :: d in db.downloads && x in d.items && x.root == k.root)
  {
    var rr := db.items[k].ref.root;
    if rr !in db.roots {
      return Failure(Gone);
    }
    r := Success(RootRow(k.root, rr.source, db.roots[rr], RootInHistory(db.downloads, k.root)));
  }

  /** k's facts and its root's; None for no record or an ownerless instance. */
  method ReadFacts(db: Db, k: Key) returns (r: Result<Option<(Item, Root)>, ReadError>)
    requires Sound(db)
    ensures r.Success? && (r.value.Some? <==> k in db.items && Live(db.instances, db.items[k]))
    ensures r.value.Some? ==> r.value.value == (db.sightings[db.items[k].ref].item, db.roots[db.items[k].ref.root])
  {
    if k !in db.items {
      return Success(None);
    }
    var rec := db.items[k];
    NothingGone(db, k, rec.ref);
    hide Sound;
    var listed := Listed(db, k, rec);
    assert listed.Success?;
    if !listed.value {
      return Success(None);
    }
    r := Success(Some((db.sightings[rec.ref].item, db.roots[rec.ref.root])));
  }

  /* ---------- A page being collected ---------- */

  /** A page filling up, row by row. */
  class Page<T> {
    const limit: nat
    var rows: seq<T>
    var keys: seq<Bytes>
    var next: Option<Bytes>

    ghost predicate Valid()
      reads this
    {
      |rows| == |keys| <= limit && limit > 0
    }

    constructor (limit: nat)
      requires limit > 0
      ensures Valid() && this.limit == limit && rows == [] && keys == [] && next == None
    {
      this.limit, rows, keys, next := limit, [], [], None;
    }

    /** There is one more row: true if this page has no room for it. */
    method Full() returns (full: bool)
      requires Valid()
      modifies this`next
      ensures full <==> |rows| == limit
      ensures next == if full then Some(keys[|keys| - 1]) else old(next)
    {
      full := |rows| >= limit;
      if full {
        next := Some(keys[|keys| - 1]);
      }
    }

    method Add(row: T, key: Bytes)
      requires Valid() && |rows| < limit
      modifies this`rows, this`keys
      ensures Valid() && rows == old(rows) + [row] && keys == old(keys) + [key]
    {
      rows, keys := rows + [row], keys + [key];
    }
  }

  /* ---------- A root's items ---------- */

  /** The keys of a root's listed items. */
  ghost function ItemKeys(db: Db, r: RootKey): set<Bytes> {
    set k | k in db.items && k.root == r && Live(db.instances, db.items[k]) :: MediaBytes(k)
  }

  function ItemsScope(r: RootKey): Scope {
    Scope(ItemsList, RootBytes(r), b => KeyFromBytes(b).Some?)
  }

  /** The stored keys a scan of a root reaches from a position. */
  function ScanKeys(db: Db, r: RootKey, from: Option<Bytes>): set<Bytes> {
    set k | k in db.items && RootBytes(r) <= MediaBytes(k) && (from.Some? ==> !Less(MediaBytes(k), from.value)) :: MediaBytes(k)
  }

  /** The listed ones of some stored keys. */
  ghost function ListedOf(db: Db, s: set<Bytes>): set<Bytes> {
    set k | k in db.items && MediaBytes(k) in s && Live(db.instances, db.items[k]) :: MediaBytes(k)
  }

  lemma ListedStep(db: Db, s: set<Bytes>, b: Bytes, k: Key)
    requires KeysValid(db) && IsLeast(s, b) && k in db.items && MediaBytes(k) == b
    ensures ListedOf(db, s - {b}) == ListedOf(db, s) - {b}
    ensures if Live(db.instances, db.items[k]) then IsLeast(ListedOf(db, s), b) else ListedOf(db, s - {b}) == ListedOf(db, s)
  {
    forall j | j in db.items && MediaBytes(j) == b
      ensures j == k
    {
      KeyBytesBack(j);
      KeyBytesBack(k);
    }
  }

  lemma ScanStart(db: Db, r: RootKey, last: Option<Bytes>)
    requires KeysValid(db) && KeyText.ValidRoot(r)
    ensures ListedOf(db, ScanKeys(db, r, if last.Some? then Some(ResumeAt(last.value)) else None)) == Past(ItemKeys(db, r), last)
  {
    forall k | k in db.items
      ensures RootBytes(r) <= MediaBytes(k) <==> k.root == r
      ensures last.Some? ==> (!Less(MediaBytes(k), ResumeAt(last.value)) <==> Less(last.value, MediaBytes(k)))
    {
      RootPrefix(r, k);
      if last.Some? {
        ResumesPast(last.value, MediaBytes(k));
      }
    }
  }

  /** Each row of a page is its key's. */
  ghost predicate RowsOf(db: Db, rows: seq<ItemRow>, keys: seq<Bytes>) {
    && |rows| == |keys|
    && forall i | 0 <= i < |rows| :: rows[i].key in db.items && db.items[rows[i].key].ref in db.sightings
         && keys[i] == MediaBytes(rows[i].key) && rows[i] == RowOf(db, rows[i].key)
  }

  method CollectItems(db: Db, scan0: set<Bytes>, p: Page<ItemRow>)
    requires Sound(db) && KeysValid(db) && p.Valid() && p.rows == [] && p.next == None
    requires forall b | b in scan0 :: Stored(db, b)
    modifies p
    ensures p.Valid() && RowsOf(db, p.rows, p.keys) && PageOf(Sorted(ListedOf(db, scan0)), p.limit, p.keys, p.next)
  {
    hide Sound, KeysValid, RowsOf, RowOf, ListedOf, IsLeast, Sorted, MediaBytes, KeyFromBytes, PageOf, Stored;
    var scan := scan0;
    RowsNone(db);
    while scan != {}
      invariant p.Valid() && p.next == None && RowsOf(db, p.rows, p.keys)
      invariant p.keys + Sorted(ListedOf(db, scan)) == Sorted(ListedOf(db, scan0))
      invariant forall b | b in scan :: Stored(db, b)
      decreases |scan|
    {
      var b := Next(scan);
      LeastIn(scan, b);
      StoredKey(db, b);
      var k := KeyFromBytes(b).value;
      NothingGone(db, k, db.items[k].ref);
      ListedStep(db, scan, b, k);
      var listed := Listed(db, k, db.items[k]);
      assert listed.Success?;
      if listed.value {
        SortedFirst(ListedOf(db, scan), b);
        var full := p.Full();
        if full {
          PageCut(p.keys, Sorted(ListedOf(db, scan)), p.limit);
          return;
        }
        var row := ReadItem(db, k);
        assert row.Success?;
        RowsMore(db, p.rows, p.keys, k);
        p.Add(row.value, b);
      }
      scan := scan - {b};
    }
    ListedNone(db);
    SortedNothing();
    assert p.keys + [] == p.keys;
    PageWhole(p.keys, p.limit);
  }

  /** One page of a root's items: its rows are the page's part of the whole
      list after the cursor, and no row it needs is gone. */
  method Items(db: Db, r: RootKey, cursor: Bytes, limit: nat) returns (out: Result<(seq<ItemRow>, Bytes), ReadError>, ghost keys: seq<Bytes>)
    requires Sound(db) && KeysValid(db) && KeyText.ValidRoot(r)
    ensures !(1 <= limit <= 500) ==> out == Failure(BadLimit)
    ensures 1 <= limit <= 500 && ItemsScope(r).Position(cursor).Failure? ==> out == Failure(CursorInvalid)
    ensures 1 <= limit <= 500 && ItemsScope(r).Position(cursor).Success? ==>
              out.Success? && RowsOf(db, out.value.0, keys)
              && Answers(ItemsScope(r), Sorted(ItemKeys(db, r)), limit, Turn(cursor, keys, out.value.1))
  {
    hide Sound, KeysValid, RowsOf, RowOf, ItemKeys, ListedOf, ScanKeys, Sorted, After, PageOf;
    keys := [];
    if limit < 1 || limit > MAX_LIST_LIMIT {
      return Failure(BadLimit), [];
    }
    var last := ItemsScope(r).Position(cursor);
    if last.Failure? {
      return Failure(CursorInvalid), [];
    }
    var from := if last.value.Some? then Some(ResumeAt(last.value.value)) else None;
    ScanStart(db, r, last.value);
    AfterSorted(ItemKeys(db, r), last.value);
    ScanStored(db, r, from);
    var p := new Page<ItemRow>(limit);
    CollectItems(db, ScanKeys(db, r, from), p);
    keys := p.keys;
    out := Success((p.rows, ItemsScope(r).CursorAfter(p.next)));
  }

  ghost predicate Stored(db: Db, b: Bytes) {
    exists k :: k in db.items && MediaBytes(k) == b
  }

  lemma ScanStored(db: Db, r: RootKey, from: Option<Bytes>)
    ensures forall b | b in ScanKeys(db, r, from) :: Stored(db, b)
  {
  }

  lemma StoredKey(db: Db, b: Bytes)
    requires KeysValid(db) && Stored(db, b)
    ensures KeyFromBytes(b).Some? && KeyFromBytes(b).value in db.items && MediaBytes(KeyFromBytes(b).value) == b
  {
    var k :| k in db.items && MediaBytes(k) == b;
    KeyBytesBack(k);
  }

  lemma LeastIn(s: set<Bytes>, b: Bytes)
    requires IsLeast(s, b)
    ensures b in s
  {
  }

  lemma ListedNone(db: Db)
    ensures ListedOf(db, {}) == {}
  {
  }

  lemma RowsNone(db: Db)
    ensures RowsOf(db, [], [])
  {
  }

  lemma RowsMore(db: Db, rows: seq<ItemRow>, keys: seq<Bytes>, k: Key)
    requires RowsOf(db, rows, keys) && k in db.items && db.items[k].ref in db.sightings
    ensures RowsOf(db, rows + [RowOf(db, k)], keys + [MediaBytes(k)])
  {
  }

  lemma PageWhole(keys: seq<Bytes>, limit: nat)
    requires 0 < limit && |keys| <= limit
    ensures PageOf(keys, limit, keys, None)
  {
  }

  lemma PageCut(keys: seq<Bytes>, more: seq<Bytes>, limit: nat)
    requires |keys| == limit > 0 && more != []
    ensures PageOf(keys + more, limit, keys, Some(keys[limit - 1]))
  {
  }

  /* ---------- Roots ---------- */

  /** The roots with a listed item. */
  ghost function RootKeys(db: Db): set<Bytes> {
    set k | k in db.items && Live(db.instances, db.items[k]) :: RootBytes(k.root)
  }

  function RootsScope(): Scope {
    Scope(RootsList, [], b => RootFromBytes(b).Some?)
  }

  /** Where a scan goes on once a root is done with: above the largest key the
      root's ten bytes can start. */
  function PastRoot(root: Bytes): Bytes {
    ResumeAt(root + [255, 255, 255, 255])
  }

  lemma {:induction false} HighestLast(b: Bytes, n: nat)
    requires AllBytes(b) && |b| == n
    ensures !Less(seq(n, _ => 255), b)
  {
    if n > 0 {
      assert seq(n, _ => 255)[1..] == seq(n - 1, _ => 255);
      HighestLast(b[1..], n - 1);
    }
  }

  /** A scan from past a root reaches exactly the keys of later roots. */
  lemma PastsRoot(root: Bytes, k: Key)
    requires |root| == ROOT_KEY_BYTES && ValidKey(k)
    ensures !Less(MediaBytes(k), PastRoot(root)) <==> Less(root, RootBytes(k.root))
  {
    var high: Bytes := [255, 255, 255, 255];
    var tail := BigEndian(k.season, 2) + BigEndian(k.episode, 2);
    assert MediaBytes(k) == RootBytes(k.root) + tail;
    ResumesPast(root + high, MediaBytes(k));
    LessTotal(root, RootBytes(k.root));
    if root == RootBytes(k.root) {
      KeyBytesBack(k);
      assert tail == MediaBytes(k)[10..];
      assert high == seq(4, _ => 255);
      HighestLast(tail, 4);
      LessSuffix(root, high, tail);
    } else if Less(root, RootBytes(k.root)) {
      LessEqualLengths(root, RootBytes(k.root), high, tail);
    } else {
      LessEqualLengths(RootBytes(k.root), root, tail, high);
      LessTotal(MediaBytes(k), root + high);
    }
  }

  /** The stored keys from a position on. */
  function KeysFrom(db: Db, from: Option<Bytes>): set<Bytes> {
    set k | k in db.items && (from.Some? ==> !Less(MediaBytes(k), from.value)) :: MediaBytes(k)
  }

  lemma KeysFromStored(db: Db, from: Option<Bytes>)
    ensures forall b | b in KeysFrom(db, from) :: Stored(db, b)
  {
  }

  /** The first listed item of a scan. */
  method FirstListed(db: Db, from: Option<Bytes>) returns (r: Result<Option<Key>, ReadError>)
    requires Sound(db) && KeysValid(db)
    ensures r.Success?
    ensures r.value.Some? ==> r.value.value in db.items && IsLeast(ListedOf(db, KeysFrom(db, from)), MediaBytes(r.value.value))
                               && Live(db.instances, db.items[r.value.value])
    ensures r.value.None? ==> ListedOf(db, KeysFrom(db, from)) == {}
  {
    hide Sound, KeysValid, ListedOf, KeysFrom, IsLeast, MediaBytes, KeyFromBytes;
    var scan := KeysFrom(db, from);
    KeysFromStored(db, from);
    while scan != {}
      invariant ListedOf(db, scan) == ListedOf(db, KeysFrom(db, from))
      invariant forall b | b in scan :: Stored(db, b)
      decreases |scan|
    {
      var b := Next(scan);
      LeastIn(scan, b);
      StoredKey(db, b);
      var k := KeyFromBytes(b).value;
      NothingGone(db, k, db.items[k].ref);
      ListedStep(db, scan, b, k);
      var listed := Listed(db, k, db.items[k]);
      assert listed.Success?;
      if listed.value {
        return Success(Some(k));
      }
      scan := scan - {b};
    }
    ListedNone(db);
    r := Success(None);
  }

  /** The first listed key past a root is of the next root with one. */
  lemma NextRoot(db: Db, last: Option<Bytes>, k: Key)
    requires KeysValid(db) && (last.Some? ==> |last.value| == ROOT_KEY_BYTES) && k in db.items && Live(db.instances, db.items[k])
    requires IsLeast(ListedOf(db, KeysFrom(db, if last.Some? then Some(PastRoot(last.value)) else None)), MediaBytes(k))
    ensures IsLeast(Past(RootKeys(db), last), RootBytes(k.root))
    ensures Past(RootKeys(db), Some(RootBytes(k.root))) == Past(RootKeys(db), last) - {RootBytes(k.root)}
    ensures Lowest(db, k)
  {
    var from := if last.Some? then Some(PastRoot(last.value)) else None;
    if last.Some? {
      PastsRoot(last.value, k);
    }
    FromPast(db, last, k);
    forall j | j in db.items && Live(db.instances, db.items[j]) && RootBytes(j.root) in Past(RootKeys(db), last)
      ensures RootBytes(j.root) == RootBytes(k.root) || Less(RootBytes(k.root), RootBytes(j.root))
    {
      FromPast(db, last, j);
      RootsOrdered(k, j);
    }
    PastMore(RootKeys(db), last, RootBytes(k.root));
    forall j | j in db.items && j.root == k.root && Live(db.instances, db.items[j])
      ensures MediaBytes(j) == MediaBytes(k) || Less(MediaBytes(k), MediaBytes(j))
    {
      FromPast(db, last, j);
    }
  }

  lemma FromPast(db: Db, last: Option<Bytes>, k: Key)
    requires KeysValid(db) && (last.Some? ==> |last.value| == ROOT_KEY_BYTES) && k in db.items && Live(db.instances, db.items[k])
    ensures MediaBytes(k) in ListedOf(db, KeysFrom(db, if last.Some? then Some(PastRoot(last.value)) else None))
            <==> RootBytes(k.root) in Past(RootKeys(db), last)
  {
    if last.Some? {
      PastsRoot(last.value, k);
      forall j | j in db.items && MediaBytes(j) == MediaBytes(k)
        ensures j == k
      {
        KeyBytesBack(j);
        KeyBytesBack(k);
      }
    }
  }

  lemma RootsOrdered(k: Key, j: Key)
    requires MediaBytes(k) == MediaBytes(j) || Less(MediaBytes(k), MediaBytes(j))
    ensures RootBytes(j.root) == RootBytes(k.root) || Less(RootBytes(k.root), RootBytes(j.root))
  {
    var x, y := BigEndian(k.season, 2) + BigEndian(k.episode, 2), BigEndian(j.season, 2) + BigEndian(j.episode, 2);
    assert MediaBytes(k) == RootBytes(k.root) + x && MediaBytes(j) == RootBytes(j.root) + y;
    LessTotal(RootBytes(k.root), RootBytes(j.root));
    LessTotal(MediaBytes(k), MediaBytes(j));
    if Less(RootBytes(j.root), RootBytes(k.root)) {
      LessEqualLengths(RootBytes(j.root), RootBytes(k.root), y, x);
    }
  }

  lemma PastMore(s: set<Bytes>, last: Option<Bytes>, b: Bytes)
    requires IsLeast(Past(s, last), b)
    ensures Past(s, Some(b)) == Past(s, last) - {b}
  {
    LessTotal(b, b);
    forall x | x in s && Less(b, x)
      ensures x in Past(s, last)
    {
      if last.Some? {
        LessTransitive(last.value, b, x);
      }
    }
  }

  ghost predicate RootRowsOf(db: Db, rows: seq<RootRow>, keys: seq<Bytes>) {
    && |rows| == |keys|
    && forall i | 0 <= i < |rows| :: keys[i] == RootBytes(rows[i].key) && RootShown(db, rows[i])
  }

  /** k is its root's first listed item, in key order. */
  ghost predicate Lowest(db: Db, k: Key) {
    k in db.items && Live(db.instances, db.items[k]) && IsLeast(ItemKeys(db, k.root), MediaBytes(k))
  }

  /** A root's row is read from its lowest listed item. */
  ghost predicate RootShown(db: Db, row: RootRow) {
    exists k :: Lowest(db, k) && db.items[k].ref.root in db.roots && row == RootRowOf(db, k)
  }

  method CollectRoots(db: Db, last: Option<Bytes>, p: Page<RootRow>)
    requires Sound(db) && KeysValid(db) && p.Valid() && p.rows == [] && p.next == None
    requires last.Some? ==> |last.value| == ROOT_KEY_BYTES
    modifies p
    ensures p.Valid() && RootRowsOf(db, p.rows, p.keys) && PageOf(Sorted(Past(RootKeys(db), last)), p.limit, p.keys, p.next)
  {
    hide Sound, KeysValid, RootRowsOf, RootRowOf, RootKeys, ListedOf, KeysFrom, IsLeast, Sorted, MediaBytes, RootBytes, PastRoot, Past, PageOf;
    var at := last;
    RootRowsNone(db);
    while true
      invariant p.Valid() && p.next == None && RootRowsOf(db, p.rows, p.keys)
      invariant at.Some? ==> |at.value| == ROOT_KEY_BYTES
      invariant p.keys + Sorted(Past(RootKeys(db), at)) == Sorted(Past(RootKeys(db), last))
      decreases |Past(RootKeys(db), at)|
    {
      var first := FirstListed(db, if at.Some? then Some(PastRoot(at.value)) else None);
      if first.value.None? {
        NoRoots(db, at);
        SortedNothing();
        assert p.keys + [] == p.keys;
        PageWhole(p.keys, p.limit);
        return;
      }
      var k := first.value.value;
      NextRoot(db, at, k);
      LeastIn(Past(RootKeys(db), at), RootBytes(k.root));
      SortedFirst(Past(RootKeys(db), at), RootBytes(k.root));
      var full := p.Full();
      if full {
        PageCut(p.keys, Sorted(Past(RootKeys(db), at)), p.limit);
        return;
      }
      NothingGone(db, k, db.items[k].ref);
      var row := ReadRoot(db, k);
      assert row.Success?;
      RootRowsMore(db, p.rows, p.keys, k);
      p.Add(row.value, RootBytes(k.root));
      at := Some(RootBytes(k.root));
    }
  }

  /** One page of the roots with a listed item, each once. */
  method Roots(db: Db, cursor: Bytes, limit: nat) returns (out: Result<(seq<RootRow>, Bytes), ReadError>, ghost keys: seq<Bytes>)
    requires Sound(db) && KeysValid(db)
    ensures !(1 <= limit <= 500) ==> out == Failure(BadLimit)
    ensures 1 <= limit <= 500 && RootsScope().Position(cursor).Failure? ==> out == Failure(CursorInvalid)
    ensures 1 <= limit <= 500 && RootsScope().Position(cursor).Success? ==>
              out.Success? && RootRowsOf(db, out.value.0, keys)
              && Answers(RootsScope(), Sorted(RootKeys(db)), limit, Turn(cursor, keys, out.value.1))
  {
    hide Sound, KeysValid, RootRowsOf, RootKeys, Sorted, After, PageOf, Past;
    keys := [];
    if limit < 1 || limit > MAX_LIST_LIMIT {
      return Failure(BadLimit), [];
    }
    var last := RootsScope().Position(cursor);
    if last.Failure? {
      return Failure(CursorInvalid), [];
    }
    AfterSorted(RootKeys(db), last.value);
    var p := new Page<RootRow>(limit);
    CollectRoots(db, last.value, p);
    keys := p.keys;
    out := Success((p.rows, RootsScope().CursorAfter(p.next)));
  }

  lemma NoRoots(db: Db, last: Option<Bytes>)
    requires KeysValid(db) && (last.Some? ==> |last.value| == ROOT_KEY_BYTES)
    requires ListedOf(db, KeysFrom(db, if last.Some? then Some(PastRoot(last.value)) else None)) == {}
    ensures Past(RootKeys(db), last) == {}
  {
    if b :| b in Past(RootKeys(db), last) {
      var k :| k in db.items && Live(db.instances, db.items[k]) && RootBytes(k.root) == b;
      FromPast(db, last, k);
    }
  }

  lemma RootRowsNone(db: Db)
    ensures RootRowsOf(db, [], [])
  {
  }

  lemma RootRowsMore(db: Db, rows: seq<RootRow>, keys: seq<Bytes>, k: Key)
    requires RootRowsOf(db, rows, keys) && Lowest(db, k) && db.items[k].ref.root in db.roots
    ensures RootRowsOf(db, rows + [RootRowOf(db, k)], keys + [RootBytes(k.root)])
  {
    assert RootShown(db, RootRowOf(db, k));
  }

  /* ---------- Unidentified sightings ---------- */

  /** Sightings stored with no key. */
  function UnidentifiedRefs(db: Db): set<ItemRef> {
    set ref | ref in db.sightings && db.sightings[ref].key.None?
  }

  function BytesOf(refs: set<ItemRef>): set<Bytes> {
    set ref | ref in refs :: RefKeys.ItemRefKey(ref)
  }

  function UnidentifiedScope(g: Grammar): Scope {
    Scope(UnidentifiedList, [], b => Whole(ReadItemRef(g, b)).Some?)
  }

  lemma FirstLeast(refs: set<ItemRef>, ref: ItemRef)
    requires RefKeys.IsFirst(refs, ref)
    ensures IsLeast(BytesOf(refs), RefKeys.ItemRefKey(ref))
    ensures BytesOf(refs - {ref}) == BytesOf(refs) - {RefKeys.ItemRefKey(ref)}
  {
    forall x | x in refs && RefKeys.ItemRefKey(x) == RefKeys.ItemRefKey(ref)
      ensures x == ref
    {
      RefKeys.ItemRefInjective(x, ref);
    }
  }

  function RefsFrom(db: Db, from: Option<Bytes>): set<ItemRef> {
    set ref | ref in UnidentifiedRefs(db) && (from.Some? ==> !Less(RefKeys.ItemRefKey(ref), from.value))
  }

  lemma RefsStart(db: Db, last: Option<Bytes>)
    ensures BytesOf(RefsFrom(db, if last.Some? then Some(ResumeAt(last.value)) else None)) == Past(BytesOf(UnidentifiedRefs(db)), last)
  {
    if last.Some? {
      forall ref: ItemRef
        ensures !Less(RefKeys.ItemRefKey(ref), ResumeAt(last.value)) <==> Less(last.value, RefKeys.ItemRefKey(ref))
      {
        ResumesPast(last.value, RefKeys.ItemRefKey(ref));
      }
    }
  }

  predicate UnidentifiedAt(db: Db, ref: ItemRef, row: UnidentifiedRow) {
    && ref in db.sightings && db.sightings[ref].key.None? && ref.root in db.roots
    && row == UnidentifiedRow(ref.root.source, db.roots[ref.root], db.sightings[ref].item)
  }

  ghost predicate UnidentifiedRows(db: Db, rows: seq<UnidentifiedRow>, keys: seq<Bytes>) {
    && |rows| == |keys|
    && forall i | 0 <= i < |rows| :: exists ref :: keys[i] == RefKeys.ItemRefKey(ref) && UnidentifiedAt(db, ref, rows[i])
  }

  method CollectUnidentified(db: Db, scan0: set<ItemRef>, p: Page<UnidentifiedRow>)
    requires Sound(db) && p.Valid() && p.rows == [] && p.next == None && scan0 <= UnidentifiedRefs(db)
    modifies p
    ensures p.Valid() && UnidentifiedRows(db, p.rows, p.keys) && PageOf(Sorted(BytesOf(scan0)), p.limit, p.keys, p.next)
  {
    hide Sound, UnidentifiedRows, BytesOf, Sorted, IsLeast, RefKeys.IsFirst, PageOf;
    var scan := scan0;
    UnidentifiedNone(db);
    while scan != {}
      invariant p.Valid() && p.next == None && scan <= UnidentifiedRefs(db)
      invariant UnidentifiedRows(db, p.rows, p.keys)
      invariant p.keys + Sorted(BytesOf(scan)) == Sorted(BytesOf(scan0))
      decreases |scan|
    {
      var ref := RefKeys.NextOf(scan);
      RefKeys.FirstIn(scan, ref);
      FirstLeast(scan, ref);
      SortedFirst(BytesOf(scan), RefKeys.ItemRefKey(ref));
      var full := p.Full();
      if full {
        PageCut(p.keys, Sorted(BytesOf(scan)), p.limit);
        return;
      }
      SightingRooted(db, ref);
      var row := UnidentifiedRow(ref.root.source, db.roots[ref.root], db.sightings[ref].item);
      UnidentifiedMore(db, p.rows, p.keys, ref, row);
      p.Add(row, RefKeys.ItemRefKey(ref));
      scan := scan - {ref};
    }
    UnidentifiedNone(db);
    SortedNothing();
    assert p.keys + [] == p.keys;
    PageWhole(p.keys, p.limit);
  }

  method Unidentified(db: Db, g: Grammar, cursor: Bytes, limit: nat) returns (out: Result<(seq<UnidentifiedRow>, Bytes), ReadError>, ghost keys: seq<Bytes>)
    requires Sound(db)
    ensures !(1 <= limit <= 500) ==> out == Failure(BadLimit)
    ensures 1 <= limit <= 500 && UnidentifiedScope(g).Position(cursor).Failure? ==> out == Failure(CursorInvalid)
    ensures 1 <= limit <= 500 && UnidentifiedScope(g).Position(cursor).Success? ==>
              out.Success? && UnidentifiedRows(db, out.value.0, keys)
              && Answers(UnidentifiedScope(g), Sorted(BytesOf(UnidentifiedRefs(db))), limit, Turn(cursor, keys, out.value.1))
  {
    hide Sound, UnidentifiedRows, BytesOf, Sorted, After, PageOf, Past, ReadItemRef;
    keys := [];
    if limit < 1 || limit > MAX_LIST_LIMIT {
      return Failure(BadLimit), [];
    }
    var last := UnidentifiedScope(g).Position(cursor);
    if last.Failure? {
      return Failure(CursorInvalid), [];
    }
    RefsStart(db, last.value);
    AfterSorted(BytesOf(UnidentifiedRefs(db)), last.value);
    var p := new Page<UnidentifiedRow>(limit);
    CollectUnidentified(db, RefsFrom(db, if last.value.Some? then Some(ResumeAt(last.value.value)) else None), p);
    keys := p.keys;
    out := Success((p.rows, UnidentifiedScope(g).CursorAfter(p.next)));
  }

  lemma SightingRooted(db: Db, ref: ItemRef)
    requires Sound(db) && ref in db.sightings
    ensures ref.root in db.roots
  {
  }

  lemma UnidentifiedNone(db: Db)
    ensures UnidentifiedRows(db, [], []) && BytesOf({}) == {}
  {
  }

  lemma UnidentifiedMore(db: Db, rows: seq<UnidentifiedRow>, keys: seq<Bytes>, ref: ItemRef, row: UnidentifiedRow)
    requires UnidentifiedRows(db, rows, keys) && UnidentifiedAt(db, ref, row)
    ensures UnidentifiedRows(db, rows + [row], keys + [RefKeys.ItemRefKey(ref)])
  {
    assert (keys + [RefKeys.ItemRefKey(ref)])[|rows|] == RefKeys.ItemRefKey(ref);
  }

  /* ---------- Whole lists, page by page ---------- */

  /** Reads of a list from its first page on, each at the cursor the last one
      answered. */
  ghost predicate ReadThrough(l: Scope, list: seq<Bytes>, limit: nat, turns: seq<Turn>)
    requires limit > 0
  {
    Followed(turns) && turns[0].cursor == [] && forall i | 0 <= i < |turns| :: Answers(l, list, limit, turns[i])
  }

  lemma ReadWhole(l: Scope, s: set<Bytes>, limit: nat, turns: seq<Turn>)
    requires limit > 0 && Listing(l, Sorted(s)) && ReadThrough(l, Sorted(s), limit, turns)
    ensures Joined(turns) == Sorted(s)
  {
    SortedAscending(s);
    FollowedWhole(l, Sorted(s), limit, turns);
  }

  /** A root's items, read through: every listed one once, in key order. */
  lemma ItemsWhole(db: Db, r: RootKey, limit: nat, turns: seq<Turn>)
    requires KeysValid(db) && KeyText.ValidRoot(r) && limit > 0
    requires ReadThrough(ItemsScope(r), Sorted(ItemKeys(db, r)), limit, turns)
    ensures Joined(turns) == Sorted(ItemKeys(db, r))
  {
    hide ReadThrough, KeyFromBytes, MediaBytes, RootBytes;
    forall b | b in ItemKeys(db, r)
      ensures RootBytes(r) <= b && KeyFromBytes(b).Some?
    {
      var k :| k in db.items && k.root == r && MediaBytes(k) == b;
      RootPrefix(r, k);
      KeyBytesBack(k);
    }
    ReadWhole(ItemsScope(r), ItemKeys(db, r), limit, turns);
  }

  /** The roots, read through: each with a listed item once, in key order. */
  lemma RootsWhole(db: Db, limit: nat, turns: seq<Turn>)
    requires KeysValid(db) && limit > 0 && ReadThrough(RootsScope(), Sorted(RootKeys(db)), limit, turns)
    ensures Joined(turns) == Sorted(RootKeys(db))
  {
    hide ReadThrough, RootFromBytes, RootBytes;
    forall b | b in RootKeys(db)
      ensures RootFromBytes(b).Some?
    {
      var k :| k in db.items && RootBytes(k.root) == b;
      RootBytesBack(k.root);
    }
    ReadWhole(RootsScope(), RootKeys(db), limit, turns);
  }

  /** The sightings a store holds are under ids their sources may have. */
  ghost predicate RefsValid(g: Grammar, db: Db) {
    forall ref | ref in db.sightings :: g.source(ref.root.source) && Short(ref.root.source) && Short(ref.root.root.id) && Short(ref.item)
  }

  /** The unidentified sightings, read through: each once, in key order. */
  lemma UnidentifiedWhole(db: Db, g: Grammar, limit: nat, turns: seq<Turn>)
    requires RefsValid(g, db) && limit > 0
    requires ReadThrough(UnidentifiedScope(g), Sorted(BytesOf(UnidentifiedRefs(db))), limit, turns)
    ensures Joined(turns) == Sorted(BytesOf(UnidentifiedRefs(db)))
  {
    hide ReadThrough, ReadItemRef, ReadRootRef, RefKeys.ItemRefKey, RefKeys.RootRefKey;
    forall b | b in BytesOf(UnidentifiedRefs(db))
      ensures Whole(ReadItemRef(g, b)).Some?
    {
      var ref :| ref in UnidentifiedRefs(db) && RefKeys.ItemRefKey(ref) == b;
      ItemRefRoundTrip(g, ref);
    }
    ReadWhole(UnidentifiedScope(g), BytesOf(UnidentifiedRefs(db)), limit, turns);
  }
}
