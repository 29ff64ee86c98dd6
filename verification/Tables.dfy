/** The store's tables as one value, and the invariant every commit keeps. */
module Tables {
  import opened Wrappers
  import opened Media
  import opened Languages

  type SourceId = string
  type InstId = nat
  type PassId = nat
  type Time = int

  datatype NativeRef = NativeRef(id: string, kind: Kind)
  datatype RootRef = RootRef(source: SourceId, root: NativeRef)
  /** A source's name for an item; the empty one stands for the root itself. */
  datatype ItemRef = ItemRef(root: RootRef, item: string)

  /** An item as its source reports it; facts stands for what nothing here reads. */
  datatype Item = Item(
    native: string, path: string, scene: string, original: Tag, audio: seq<Tag>,
    external: ExternalIds, numbering: Numbering, facts: string)

  datatype Root = Root(native: NativeRef, external: ExternalIds, facts: string)

  datatype Sighting = Sighting(key: Option<Key>, item: Item) {
    /** Whether this sighting claims k with no video. */
    predicate ClaimsBare(k: Key) {
      key == Some(k) && item.path == ""
    }
  }

  datatype Overlap = Overlap(owner: SourceId, byKey: bool)
  /** A key's row: whose facts it shows, and where its video is (0: nowhere). */
  datatype Record = Record(ref: ItemRef, inst: InstId)
  datatype Instance = Instance(path: string, scene: string, owner: Option<SourceId>, orphaned: Time, items: seq<Key>)
  /** An open pass; no roots is the whole source, any others a change batch. */
  datatype PassRow = PassRow(id: PassId, roots: Option<seq<NativeRef>>)

  datatype Coverage = Missing | Substituted | Covered
  datatype Pair = Pair(tag: Tag, variant: Variant)
  datatype Covering = Covering(pair: Pair, coverage: Coverage)
  datatype LockKey = LockKey(key: Key, pair: Pair)

  datatype FileKey = FileKey(inst: InstId, name: string)
  datatype File = File(tag: Tag, flags: Flags, locked: bool, generation: nat, digest: nat, facts: string)
  datatype LocalFile = LocalFile(name: string, tag: Tag, flags: Flags)
  datatype Track = Track(codec: string, tag: Tag, flags: Flags)

  datatype Download = Download(inst: InstId, items: seq<Key>, pair: Pair, delivered: bool, facts: string)
  datatype Op = Deliver | Retime | Delete
  /** A pending write: what its End stages. Both removal and record carry the
      content hash their outcome is judged by. */
  datatype Intent =
    | Delivery(record: File, baseline: string, attempts: seq<Download>, removes: seq<string>)
    | Retiming(record: File, adopted: Option<string>)
    | Removal(digest: nat)
  {
    function OpOf(): Op {
      match this case Delivery(_, _, _, _) => Deliver case Retiming(_, _) => Retime case Removal(_) => Delete
    }
  }

  /** A configuration: the language policy, the sources in force, and the
      embedded codecs that cover nothing. */
  datatype Activation = Activation(policy: Policy, sources: set<SourceId>, codecs: set<string>)
  /** What the last Activate stored of it. */
  datatype Stored = Stored(sources: set<SourceId>, codecs: set<string>, digest: Option<nat>)

  datatype Db = Db(
    stored: Stored,
    passes: map<SourceId, PassRow>,
    lastPass: PassId,
    roots: map<RootRef, Root>,
    sightings: map<ItemRef, Sighting>,
    stamps: map<ItemRef, PassId>,
    overlaps: map<ItemRef, Overlap>,
    items: map<Key, Record>,
    instances: map<InstId, Instance>,
    lastInst: InstId,
    coverage: map<Key, seq<Covering>>,
    locks: map<LockKey, Time>,
    files: map<FileKey, File>,
    baselines: map<FileKey, string>,
    intents: map<FileKey, Intent>,
    local: map<InstId, seq<LocalFile>>,
    embedded: map<InstId, seq<Track>>,
    downloads: seq<Download>)

  function EmptyDb(): Db {
    Db(Stored({}, {}, None), map[], 0, map[], map[], map[], map[], map[], map[], 0,
       map[], map[], map[], map[], map[], map[], map[], [])
  }

  predicate NoRepeat<T(==)>(s: seq<T>) {
    forall i, j | 0 <= i < j < |s| :: s[i] != s[j]
  }

  /* ---------- Ownership ---------- */

  /** A record with an instance names a stored one that lists its key. */
  ghost predicate Linked(items: map<Key, Record>, instances: map<InstId, Instance>) {
    forall k | k in items && items[k].inst != 0 ::
      items[k].inst in instances && k in instances[items[k].inst].items
  }

  /** Each key an owned instance lists has its record naming that instance,
      from a sighting of its owner. */
  ghost predicate Owning(items: map<Key, Record>, instances: map<InstId, Instance>) {
    forall id, k | id in instances && instances[id].owner.Some? && k in instances[id].items ::
      k in items && items[k].inst == id && items[k].ref.root.source == instances[id].owner.value
  }

  /** Instances have numbers already given out, a path no other has, and
      list no key twice. */
  ghost predicate WellFormed(instances: map<InstId, Instance>, last: InstId) {
    && (forall id | id in instances :: 0 < id <= last && instances[id].path != "" && NoRepeat(instances[id].items))
    && (forall a, b | a in instances && b in instances && a != b :: instances[a].path != instances[b].path)
  }

  ghost predicate NonEmpty(instances: map<InstId, Instance>) {
    forall id | id in instances :: instances[id].items != []
  }

  /** A record readers see: with no video, or with one some source owns. */
  predicate Live(instances: map<InstId, Instance>, rec: Record) {
    rec.inst == 0 || (rec.inst in instances && instances[rec.inst].owner.Some?)
  }

  /** Whether the sighting a live record names is stored, claims its key, and
      reports the instance's path, or none. */
  predicate NamesClaim(sightings: map<ItemRef, Sighting>, instances: map<InstId, Instance>, k: Key, rec: Record) {
    && rec.ref in sightings
    && sightings[rec.ref].key == Some(k)
    && sightings[rec.ref].item.path == if rec.inst in instances && rec.inst != 0 then instances[rec.inst].path else ""
  }

  ghost predicate Named(items: map<Key, Record>, instances: map<InstId, Instance>, sightings: map<ItemRef, Sighting>, except: set<Key>) {
    forall k | k in items && Live(instances, items[k]) ::
      NamesClaim(sightings, instances, k, items[k]) || (items[k].inst == 0 && k in except)
  }

  /** The key-loss rule: a key some sighting claims with no video is recorded. */
  ghost predicate Kept(items: map<Key, Record>, sightings: map<ItemRef, Sighting>) {
    forall ref, k | ref in sightings && sightings[ref].ClaimsBare(k) :: k in items
  }

  /* ---------- Sources ---------- */

  /** A sighting and its stamp are stored together, under a stored root whose
      own stamp is no older; nothing is stamped past its source's open pass. */
  ghost predicate Stamped(sightings: map<ItemRef, Sighting>, stamps: map<ItemRef, PassId>, roots: map<RootRef, Root>,
                          passes: map<SourceId, PassRow>, lastPass: PassId) {
    && (forall ref | ref in sightings :: ref.item != "" && ref in stamps)
    && (forall ref | ref in stamps && ref.item != "" :: ref in sightings)
    && (forall ref | ref in stamps ::
          && ref.root in roots
          && stamps[ref] <= lastPass
          && (ref.root.source in passes ==> stamps[ref] <= passes[ref.root.source].id))
    && (forall rr | rr in roots :: ItemRef(rr, "") in stamps)
    && (forall ref | ref in stamps && ItemRef(ref.root, "") in stamps :: stamps[ref] <= stamps[ItemRef(ref.root, "")])
    && (forall src | src in passes :: passes[src].id <= lastPass)
  }

  /** Everything stored for a source is for one of the activation's sources. */
  ghost predicate Sourced(sources: set<SourceId>, roots: map<RootRef, Root>, passes: map<SourceId, PassRow>, instances: map<InstId, Instance>) {
    && (forall rr | rr in roots :: rr.source in sources)
    && (forall src | src in passes :: src in sources)
    && (forall id | id in instances && instances[id].owner.Some? :: instances[id].owner.value in sources)
  }

  /** An overlap is of an identified sighting with a video, and names another
      of the activation's sources. */
  ghost predicate Overlapping(sources: set<SourceId>, overlaps: map<ItemRef, Overlap>, sightings: map<ItemRef, Sighting>) {
    forall ref | ref in overlaps ::
      && ref in sightings && sightings[ref].key.Some? && sightings[ref].item.path != ""
      && overlaps[ref].owner in sources && overlaps[ref].owner != ref.root.source
  }

  /* ---------- Files and the write protocol ---------- */

  /** What is stored for an instance is for a stored instance. */
  ghost predicate Held(instances: map<InstId, Instance>, files: map<FileKey, File>, baselines: map<FileKey, string>,
                       local: map<InstId, seq<LocalFile>>, embedded: map<InstId, seq<Track>>) {
    && (forall fk | fk in files :: fk.inst in instances)
    && (forall fk | fk in baselines :: fk.inst in instances)
    && (forall id | id in local :: id in instances)
    && (forall id | id in embedded :: id in instances)
  }

  /** A pending write is for a stored instance, and a pending delivery's first
      attempt names only items that instance lists. */
  ghost predicate Staging(instances: map<InstId, Instance>, intents: map<FileKey, Intent>) {
    forall fk | fk in intents :: fk.inst in instances && Staged(instances[fk.inst], fk, intents[fk])
  }

  /** What Begin checked of an intent, which pinning keeps true. */
  ghost predicate Staged(inst: Instance, fk: FileKey, it: Intent) {
    && fk.name != "" && inst.items != []
    && (it.Delivery? ==>
          && it.attempts != []
          && (forall i | 0 <= i < |it.attempts| :: it.attempts[i].inst == fk.inst && it.attempts[i].items != [])
          && (forall k | k in it.attempts[0].items :: k in inst.items))
  }

  ghost predicate Pinned(intents: map<FileKey, Intent>, id: InstId) {
    exists fk :: fk in intents && fk.inst == id
  }

  /* ---------- Coverage ---------- */

  datatype Evidence = Evidence(tag: Tag, flags: Flags)

  /** The managed, local and unignored embedded subtitles of an instance. */
  ghost function EvidenceOf(db: Db, codecs: set<string>, id: InstId): set<Evidence> {
    (set fk | fk in db.files && fk.inst == id :: Evidence(db.files[fk].tag, db.files[fk].flags))
    + (if id in db.local then set f | f in db.local[id] :: Evidence(f.tag, f.flags) else {})
    + (if id in db.embedded then set t | t in db.embedded[id] && t.tag != "" && t.codec !in codecs :: Evidence(t.tag, t.flags) else {})
  }

  ghost predicate Serving(p: Policy, pair: Pair, ev: set<Evidence>, c: Class) {
    exists e :: e in ev && e.flags.Serves(pair.variant) && p.grade(pair.tag, e.tag) == c
  }

  /** How ev covers a pair: by the best grade of what serves its variant. */
  ghost function Judge(p: Policy, pair: Pair, ev: set<Evidence>): Coverage {
    if Serving(p, pair, ev, Exact) then Covered
    else if Serving(p, pair, ev, Substitute) then Substituted
    else Missing
  }

  /** Whether something that serves the variant is related to the tag. */
  ghost predicate Servable(p: Policy, pair: Pair, ev: set<Evidence>) {
    Serving(p, pair, ev, Exact) || Serving(p, pair, ev, Substitute) || Serving(p, pair, ev, ManualOnly)
  }

  function PairsOf(t: Target): seq<Pair> {
    seq(|t.variants|, i requires 0 <= i < |t.variants| => Pair(t.tag, t.variants[i]))
  }

  function AllPairs(ts: seq<Target>): seq<Pair> {
    if ts == [] then [] else PairsOf(ts[0]) + AllPairs(ts[1..])
  }

  /** The pairs a policy wants for a sighted item, in its order. */
  function Configured(p: Policy, sg: Sighting): seq<Pair> {
    AllPairs(p.targets(sg.item.original, sg.item.audio))
  }

  ghost function RecordEvidence(db: Db, codecs: set<string>, rec: Record): set<Evidence> {
    if rec.inst == 0 then {} else EvidenceOf(db, codecs, rec.inst)
  }

  /** Every configured pair of a sighted item, judged against ev. */
  ghost function Judged(p: Policy, sg: Sighting, ev: set<Evidence>): seq<Covering> {
    var pairs := Configured(p, sg);
    seq(|pairs|, i requires 0 <= i < |pairs| => Covering(pairs[i], Judge(p, pairs[i], ev)))
  }

  /** The stored coverage of k, none being stored as no row. */
  function CoverageRow(coverage: map<Key, seq<Covering>>, k: Key): seq<Covering> {
    if k in coverage then coverage[k] else []
  }

  /** Whether k's stored coverage is what judging it now would store, and its
      locks all lie on configured pairs. */
  ghost predicate Fresh(db: Db, a: Activation, k: Key)
    requires k in db.items
  {
    var rec := db.items[k];
    && rec.ref in db.sightings
    && CoverageRow(db.coverage, k) == Judged(a.policy, db.sightings[rec.ref], RecordEvidence(db, a.codecs, rec))
    && (k in db.coverage ==> db.coverage[k] != [])
    && (forall lk | lk in db.locks && lk.key == k :: lk.pair in Configured(a.policy, db.sightings[rec.ref]))
  }

  /** Coverage equals recomputation, outside the keys in except. */
  ghost predicate Current(db: Db, a: Activation, except: set<Key>) {
    forall k | k in db.items && Live(db.instances, db.items[k]) && k !in except :: Fresh(db, a, k)
  }

  ghost predicate NoStray(coverage: map<Key, seq<Covering>>, items: map<Key, Record>) {
    forall k | k in coverage :: k in items
  }

  /* ---------- The whole ---------- */

  /** What every committed state keeps, whatever activation is in force. */
  ghost predicate Sound(db: Db) {
    && Linked(db.items, db.instances)
    && Owning(db.items, db.instances)
    && WellFormed(db.instances, db.lastInst)
    && NonEmpty(db.instances)
    && Named(db.items, db.instances, db.sightings, {})
    && Kept(db.items, db.sightings)
    && Stamped(db.sightings, db.stamps, db.roots, db.passes, db.lastPass)
    && Sourced(db.stored.sources, db.roots, db.passes, db.instances)
    && Overlapping(db.stored.sources, db.overlaps, db.sightings)
    && Held(db.instances, db.files, db.baselines, db.local, db.embedded)
    && Staging(db.instances, db.intents)
    && NoStray(db.coverage, db.items)
  }

  /** The activation in force is the one stored; None is before the first
      Activate after Open. */
  predicate Agrees(s: Stored, a: Option<Activation>) {
    a.Some? ==> s == Stored(a.value.sources, a.value.codecs, Some(a.value.policy.digest))
  }

  ghost predicate Inv(db: Db, a: Option<Activation>) {
    && Sound(db)
    && Agrees(db.stored, a)
    && (a.Some? ==> Current(db, a.value, {}))
  }
}
