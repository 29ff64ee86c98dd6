/** What one observation does to the tables, item by item. */
module Claims {
  import opened Wrappers
  import opened Media
  import opened Tables

  const EXPIRE_AFTER: Time := 30 * 24 * 3600 * 1_000_000_000

  datatype StoreError =
    | SourceInactive
    | PassUnknown
    | BadReport
    | BadKeep
    | PinnedInstance(id: InstId)
    | Dangling
    | NoActivation
    | UnknownInstance
    | AlreadyPending
    | WrongOp
    | BadWrite
    | NotLockable
    | BadActivation

  /** One observing or finishing write: the tables as it has changed them,
      the source and its pass, and what it has released so far. */
  datatype Obs = Obs(
    db: Db, src: SourceId, pass: PassId, now: Time, scene: map<string, string>,
    released: set<Key>, emptied: map<InstId, set<Key>>, touched: set<Key>,
    unidentified: bool, written: set<RootKey>)

  function Begun(db: Db, src: SourceId, pass: PassId, now: Time): Obs {
    Obs(db, src, pass, now, map[], {}, map[], {}, false, {})
  }

  /* ---------- Giving up a claim ---------- */

  function Without(s: seq<Key>, k: Key): (r: seq<Key>)
    ensures forall x :: x in r <==> x in s && x != k
    ensures |r| <= |s| && (k !in s ==> r == s)
    ensures NoRepeat(s) ==> NoRepeat(r)
  {
    if s == [] then []
    else
      var rest := Without(s[1..], k);
      assert NoRepeat(s) ==> s[0] !in s[1..] && NoRepeat(s[1..]);
      if s[0] == k then rest else [s[0]] + rest
  }

  function RowsWithout<V>(rows: map<FileKey, V>, ids: set<InstId>): map<FileKey, V> {
    map fk | fk in rows && fk.inst !in ids :: rows[fk]
  }

  /** The tables without some instances and everything stored for them. */
  function DropInstances(db: Db, ids: set<InstId>): Db {
    db.(instances := db.instances - ids,
        files := RowsWithout(db.files, ids),
        baselines := RowsWithout(db.baselines, ids),
        local := db.local - ids,
        embedded := db.embedded - ids)
  }

  function DropInstance(db: Db, id: InstId): Db {
    DropInstances(db, {id})
  }

  function EmptiedOf(o: Obs, id: InstId): set<Key> {
    if id in o.emptied then o.emptied[id] else {}
  }

  /** k leaves instance id's list, unless a pending write pins the instance. */
  ghost function Detach(o: Obs, id: InstId, k: Key): Result<Obs, StoreError> {
    if id !in o.db.instances || k !in o.db.instances[id].items then Success(o)
    else if Pinned(o.db.intents, id) then Failure(PinnedInstance(id))
    else
      var inst := o.db.instances[id];
      Success(o.(
        emptied := o.emptied[id := EmptiedOf(o, id) + {k}],
        db := o.db.(instances := o.db.instances[id := inst.(items := Without(inst.items, k))])))
  }

  /** The stored sighting was at ref gives up its claim. */
  ghost function Release(o: Obs, ref: ItemRef, was: Sighting): Result<Obs, StoreError> {
    var o1 := o.(db := o.db.(overlaps := o.db.overlaps - {ref}));
    if was.key.None? || was.key.value !in o.db.items || o.db.items[was.key.value].ref != ref then Success(o1)
    else
      var k := was.key.value;
      var rec := o.db.items[k];
      var o2 :- if rec.inst == 0 then Success(o1) else Detach(o1, rec.inst, k);
      Success(o2.(
        released := o2.released + {k},
        touched := o2.touched + {k},
        db := o2.db.(items := o2.db.items[k := rec.(inst := 0)])))
  }

  function Unlinked(items: map<Key, Record>, ks: seq<Key>, id: InstId): map<Key, Record> {
    map k | k in items :: if k in ks && items[k].inst == id then items[k].(inst := 0) else items[k]
  }

  function Holders(items: map<Key, Record>, ks: seq<Key>, id: InstId): set<Key> {
    set k | k in ks && k in items && items[k].inst == id
  }

  /** Every key of ks whose record names instance id loses the instance. */
  function UnlinkAll(o: Obs, ks: seq<Key>, id: InstId): Obs {
    var gone := Holders(o.db.items, ks, id);
    o.(released := o.released + gone, touched := o.touched + gone, db := o.db.(items := Unlinked(o.db.items, ks, id)))
  }

  function RootsOf(ks: seq<Key>): set<RootKey> {
    set k | k in ks :: k.root
  }

  /** An ownerless instance is deleted with what is stored for it. */
  function Expire(o: Obs, id: InstId): Obs {
    if id !in o.db.instances then o
    else
      var ks := o.db.instances[id].items;
      UnlinkAll(o.(db := DropInstance(o.db, id), written := o.written + RootsOf(ks)), ks, id)
  }

  /* ---------- Claiming ---------- */

  predicate HeldElsewhere(o: Obs, rec: Record) {
    rec.ref.root.source != o.src || (rec.ref in o.db.stamps && o.db.stamps[rec.ref] == o.pass)
  }

  /** A key reported with no video. */
  function NoVideo(o: Obs, ref: ItemRef, k: Key): Obs {
    if k in o.db.items && o.db.items[k].ref != ref && (HeldElsewhere(o, o.db.items[k]) || o.db.items[k].inst != 0) then o
    else o.(db := o.db.(items := o.db.items[k := Record(ref, 0)]))
  }

  /** The instance at a path. */
  ghost function InstanceAt(instances: map<InstId, Instance>, p: string): (at: Option<InstId>)
    ensures at.Some? ==> at.value in instances && instances[at.value].path == p
    ensures at.None? ==> forall id | id in instances :: instances[id].path != p
  {
    if id :| id in instances && instances[id].path == p then Some(id) else None
  }

  function RecordOf(items: map<Key, Record>, k: Key): Option<Record> {
    if k in items then Some(items[k]) else None
  }

  function OwnerOf(instances: map<InstId, Instance>, id: InstId): Option<SourceId> {
    if id in instances then instances[id].owner else None
  }

  predicate OtherOwner(o: Obs, id: InstId) {
    OwnerOf(o.db.instances, id).Some? && OwnerOf(o.db.instances, id).value != o.src
  }

  predicate IsHeld(rec: Option<Record>) {
    rec.Some? && rec.value.inst != 0
  }

  /** The other live source that owns the path, else the key. */
  function Rival(o: Obs, at: Option<InstId>, rec: Option<Record>): Option<Overlap> {
    if at.Some? && OtherOwner(o, at.value) then Some(Overlap(OwnerOf(o.db.instances, at.value).value, false))
    else if IsHeld(rec) && at != Some(rec.value.inst) && OtherOwner(o, rec.value.inst)
    then Some(Overlap(OwnerOf(o.db.instances, rec.value.inst).value, true))
    else None
  }

  function SceneAt(o: Obs, p: string): string {
    if p in o.scene then o.scene[p] else ""
  }

  function NewInstance(o: Obs, k: Key, p: string): (Obs, InstId) {
    var id := o.db.lastInst + 1;
    (o.(db := o.db.(lastInst := id,
                    instances := o.db.instances[id := Instance(p, SceneAt(o, p), Some(o.src), 0, [k])])), id)
  }

  /** k joins the instance at p: one this source owns, one it claims from no
      owner, or a new one. */
  ghost function Join(o: Obs, at: Option<InstId>, k: Key, p: string): Result<(Obs, InstId), StoreError>
    requires at.Some? ==> at.value in o.db.instances
  {
    if at.None? then Success(NewInstance(o, k, p))
    else
      var id := at.value;
      var inst := o.db.instances[id];
      if (inst.owner.None? || k !in inst.items) && Pinned(o.db.intents, id) then Failure(PinnedInstance(id))
      else if inst.owner.None? && o.now - inst.orphaned > EXPIRE_AFTER then Success(NewInstance(Expire(o, id), k, p))
      else if inst.owner.None? then
        var o1 := UnlinkAll(o, inst.items, id);
        Success((o1.(db := o1.db.(instances := o1.db.instances[id := Instance(p, SceneAt(o, p), Some(o.src), 0, [k])])), id))
      else
        var items := if k in inst.items then inst.items else inst.items + [k];
        Success((o.(db := o.db.(instances := o.db.instances[id := inst.(owner := Some(o.src), scene := SceneAt(o, p), items := items)])), id))
  }

  /** k moves to p's instance, leaving any other that listed it, and becomes
      ref's. */
  ghost function AttachKey(o: Obs, ref: ItemRef, k: Key, p: string, at: Option<InstId>): Result<Obs, StoreError>
    requires at.Some? ==> at.value in o.db.instances
  {
    var rec := RecordOf(o.db.items, k);
    var j :- Join(o, at, k, p);
    var o2 :- if IsHeld(rec) && rec.value.inst != j.1 then Detach(j.0, rec.value.inst, k) else Success(j.0);
    Success(o2.(db := o2.db.(overlaps := o2.db.overlaps - {ref}, items := o2.db.items[k := Record(ref, j.1)])))
  }

  /** A key reported at a video path; false stores the sighting with no key. */
  ghost function AttachOrOverlap(o: Obs, ref: ItemRef, k: Key, p: string): Result<(Obs, bool), StoreError> {
    var at := InstanceAt(o.db.instances, p);
    var rec := RecordOf(o.db.items, k);
    var rival := Rival(o, at, rec);
    if rival.Some? then Success((o.(db := o.db.(overlaps := o.db.overlaps[ref := rival.value])), true))
    else if IsHeld(rec) && rec.value.ref != ref && rec.value.ref.root.source == o.src && HeldElsewhere(o, rec.value) then
      Success((o.(db := o.db.(overlaps := o.db.overlaps - {ref})), at == Some(rec.value.inst)))
    else
      var o1 :- AttachKey(o, ref, k, p, at);
      Success((o1, true))
  }

  /** Only an attached key moves more than the sighting's overlap row. */
  lemma AttachedOrNoted(o: Obs, ref: ItemRef, k: Key, p: string)
    requires AttachOrOverlap(o, ref, k, p).Success?
    ensures var at, r := InstanceAt(o.db.instances, p), AttachOrOverlap(o, ref, k, p).value.0;
            || r == o.(db := o.db.(overlaps := r.db.overlaps))
            || (AttachKey(o, ref, k, p, at).Success? && r == AttachKey(o, ref, k, p, at).value)
  {
    hide AttachKey, Rival, HeldElsewhere, InstanceAt;
    var at := InstanceAt(o.db.instances, p);
    var rec := RecordOf(o.db.items, k);
    var rival := Rival(o, at, rec);
    if rival.Some? {
      assert AttachOrOverlap(o, ref, k, p).value.0 == o.(db := o.db.(overlaps := o.db.overlaps[ref := rival.value]));
    } else if IsHeld(rec) && rec.value.ref != ref && rec.value.ref.root.source == o.src && HeldElsewhere(o, rec.value) {
      assert AttachOrOverlap(o, ref, k, p).value.0 == o.(db := o.db.(overlaps := o.db.overlaps - {ref}));
    } else {
      assert AttachOrOverlap(o, ref, k, p).value.0 == AttachKey(o, ref, k, p, at).value;
    }
  }

  ghost function Claim(o: Obs, ref: ItemRef, k: Key, p: string): Result<(Obs, bool), StoreError> {
    if p == "" then Success((NoVideo(o, ref, k), true)) else AttachOrOverlap(o, ref, k, p)
  }

  /* ---------- One item, one report ---------- */

  function ItemKey(root: Root, it: Item): Option<Key> {
    match root.native.kind
    case Episode => Choose(Episode, root.external, it.numbering)
    case Movie => Choose(Movie, it.external.OrElse(root.external), Numbering(0, 0, NoScheme))
  }

  predicate UnidentifiedChanged(was: Option<Sighting>, next: Sighting) {
    if was.None? then next.key.None?
    else (next.key.None? || was.value.key.None?) && was.value != next
  }

  function SightingAt(db: Db, ref: ItemRef): Option<Sighting> {
    if ref in db.sightings then Some(db.sightings[ref]) else None
  }

  /** The claim ref's stored sighting holds is given up when the report
      differs from it in key or path. */
  ghost function GiveUp(o: Obs, ref: ItemRef, key: Option<Key>, p: string): Result<Obs, StoreError> {
    var was := SightingAt(o.db, ref);
    if was.Some? && (was.value.key != key || was.value.item.path != p) then Release(o, ref, was.value) else Success(o)
  }

  function Touch(o: Obs, key: Option<Key>): Obs {
    if key.Some? then o.(touched := o.touched + {key.value}) else o
  }

  function StoreSighting(o: Obs, ref: ItemRef, next: Sighting): Obs {
    o.(unidentified := o.unidentified || UnidentifiedChanged(SightingAt(o.db, ref), next),
       db := o.db.(sightings := o.db.sightings[ref := next], stamps := o.db.stamps[ref := o.pass]))
  }

  ghost function ObserveItem(o: Obs, ref: ItemRef, root: Root, it: Item): Result<Obs, StoreError> {
    var key := ItemKey(root, it);
    var o1 :- GiveUp(Touch(o, key), ref, key, it.path);
    if key.None? then Success(StoreSighting(o1, ref, Sighting(None, it)))
    else
      var c :- Claim(o1, ref, key.value, it.path);
      Success(StoreSighting(c.0, ref, Sighting(if c.1 then key else None, it)))
  }

  ghost function ObserveAll(o: Obs, rr: RootRef, root: Root, items: seq<Item>): Result<Obs, StoreError> {
    if items == [] then Success(o)
    else
      var o1 :- ObserveAll(o, rr, root, items[..|items| - 1]);
      ObserveItem(o1, ItemRef(rr, items[|items| - 1].native), root, items[|items| - 1])
  }

  /** Each path's scene; where items share a path, the earlier one's. */
  function Scenes(items: seq<Item>): map<string, string> {
    if items == [] then map[]
    else
      var m := Scenes(items[..|items| - 1]);
      var it := items[|items| - 1];
      if it.path != "" && it.path !in m then m[it.path := it.scene] else m
  }

  function StampRoot(o: Obs, rr: RootRef, root: Root): Obs {
    o.(db := o.db.(roots := o.db.roots[rr := root], stamps := o.db.stamps[ItemRef(rr, "") := o.pass]))
  }

  /** A root's report: its record, its stamp, then each item in order. */
  ghost function Observe(o: Obs, root: Root, items: seq<Item>): Result<Obs, StoreError> {
    var rr := RootRef(o.src, root.native);
    ObserveAll(StampRoot(o, rr, root).(scene := Scenes(items)), rr, root, items)
  }
}
