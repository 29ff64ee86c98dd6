/** The passes a source makes: opening one, reporting under it, closing it. */
module Passes {
  import opened Wrappers
  import opened Media
  import opened Tables
  import opened RefKeys
  import opened Claims
  import opened Settlement
  import Paths

  const MAX_KEEP := 32

  predicate ValidNativeRef(r: NativeRef) {
    r.id != ""
  }

  /** The checks a report passes before anything is read. */
  predicate ValidReport(root: Root, items: seq<Item>) {
    && ValidNativeRef(root.native)
    && (forall i | 0 <= i < |items| :: items[i].native != "" && (items[i].path == "" || Paths.AbsClean(items[i].path)))
    && (forall i, j | 0 <= i < j < |items| :: items[i].native != items[j].native)
  }

  /** The pass a report or a finish is for, provided it is still open and its
      source still configured. */
  function OpenPass(db: Db, active: Option<Activation>, src: SourceId, pass: PassId): Result<PassRow, StoreError> {
    if active.None? || src !in active.value.sources then Failure(SourceInactive)
    else if src !in db.passes || db.passes[src].id != pass then Failure(PassUnknown)
    else Success(db.passes[src])
  }

  /** A source has at most one pass: opening one forgets the last. */
  function BeginPass(db: Db, active: Option<Activation>, src: SourceId, scope: Option<seq<NativeRef>>): Result<(Db, PassId), StoreError> {
    if scope.Some? && exists i :: 0 <= i < |scope.value| && !ValidNativeRef(scope.value[i]) then Failure(BadReport)
    else if active.None? || src !in active.value.sources then Failure(SourceInactive)
    else
      var id := db.lastPass + 1;
      Success((db.(lastPass := id, passes := db.passes[src := PassRow(id, scope)]), id))
  }

  /** One report under an open pass, in one write. */
  ghost function ObserveItems(db: Db, active: Option<Activation>, src: SourceId, pass: PassId, now: Time, root: Root, items: seq<Item>): Result<Obs, StoreError> {
    if !ValidReport(root, items) then Failure(BadReport)
    else
      var p :- OpenPass(db, active, src, pass);
      var o :- Observe(Begun(db, src, pass, now), root, items);
      Settle(o, active.value)
  }

  /* ---------- Closing a pass ---------- */

  predicate Stale(o: Obs, kept: set<NativeRef>, ref: ItemRef) {
    ref in o.db.stamps && ref.root.source == o.src && o.db.stamps[ref] != o.pass && ref.root.root !in kept
  }

  ghost function StaleUnder(o: Obs, kept: set<NativeRef>, roots: seq<NativeRef>): seq<ItemRef> {
    if roots == [] then []
    else StaleUnder(o, kept, roots[..|roots| - 1])
         + Sorted(set ref | ref in o.db.stamps && Stale(o, kept, ref) && ref.root.root == roots[|roots| - 1])
  }

  /** What a pass did not stamp of its scope, in the order it is retired. */
  ghost function StaleRefs(o: Obs, kept: set<NativeRef>, p: PassRow): seq<ItemRef> {
    if p.roots.None? then Sorted(set ref | ref in o.db.stamps && Stale(o, kept, ref))
    else StaleUnder(o, kept, p.roots.value)
  }

  ghost function RetireOne(o: Obs, ref: ItemRef): Result<Obs, StoreError> {
    var o1 := o.(db := o.db.(stamps := o.db.stamps - {ref}));
    if ref.item == "" then Success(o1.(db := o1.db.(roots := o1.db.roots - {ref.root})))
    else if ref !in o1.db.sightings then Success(o1)
    else
      var was := o1.db.sightings[ref];
      var o2 :- Release(o1, ref, was);
      Success(o2.(unidentified := o2.unidentified || was.key.None?, db := o2.db.(sightings := o2.db.sightings - {ref})))
  }

  ghost function RetireAll(o: Obs, refs: seq<ItemRef>): Result<Obs, StoreError> {
    if refs == [] then Success(o)
    else
      var o1 :- RetireAll(o, refs[..|refs| - 1]);
      RetireOne(o1, refs[|refs| - 1])
  }

  /** The unpinned ownerless instances whose time is up. */
  ghost function Orphans(o: Obs): set<InstId> {
    set id | id in o.db.instances && o.db.instances[id].owner.None? && o.now - o.db.instances[id].orphaned > EXPIRE_AFTER
             && !Pinned(o.db.intents, id)
  }

  predicate HeldBy(db: Db, ids: set<InstId>, k: Key) {
    k in db.items && db.items[k].inst in ids && db.items[k].inst in db.instances && k in db.instances[db.items[k].inst].items
  }

  function KeysHeld(db: Db, ids: set<InstId>): set<Key> {
    set k | k in db.items && HeldBy(db, ids, k)
  }

  function UnlinkedFrom(db: Db, ids: set<InstId>): map<Key, Record> {
    map k | k in db.items :: if HeldBy(db, ids, k) then db.items[k].(inst := 0) else db.items[k]
  }

  function ItemRoots(db: Db, ids: set<InstId>): set<RootKey> {
    set id, k | id in ids && id in db.instances && k in db.instances[id].items :: k.root
  }

  /** Instances expire together: they go, and the keys they held are released. */
  function ExpireAll(o: Obs, ids: set<InstId>): Obs {
    var gone := KeysHeld(o.db, ids);
    o.(released := o.released + gone, touched := o.touched + gone, written := o.written + ItemRoots(o.db, ids),
       db := DropInstances(o.db, ids).(items := UnlinkedFrom(o.db, ids)))
  }

  function KeptRoots(keep: Option<seq<NativeRef>>): set<NativeRef> {
    if keep.None? then {} else set r | r in keep.value
  }

  /** A complete pass retires what it did not see, expires orphans, and settles. */
  ghost function CompletePass(db: Db, a: Activation, src: SourceId, p: PassRow, kept: set<NativeRef>, now: Time): Result<Obs, StoreError> {
    var o := Begun(db, src, p.id, now);
    var o1 :- RetireAll(o, StaleRefs(o, kept, p));
    Settle(ExpireAll(o1, Orphans(o1)), a)
  }

  ghost function FinishPass(db: Db, active: Option<Activation>, src: SourceId, pass: PassId, complete: bool,
                            keep: Option<seq<NativeRef>>, now: Time): Result<Obs, StoreError> {
    if keep.Some? && (|keep.value| > MAX_KEEP || !complete) then Failure(BadKeep)
    else
      var p :- OpenPass(db, active, src, pass);
      if keep.Some? && p.roots.Some? then Failure(BadKeep)
      else
        var db1 := db.(passes := db.passes - {src});
        if complete then CompletePass(db1, active.value, src, p, KeptRoots(keep), now)
        else Success(Begun(db1, src, pass, now))
  }
}
