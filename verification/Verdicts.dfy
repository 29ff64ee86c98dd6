/** What stored coverage and locks say, in terms of the subtitles stored. */
module Verdicts {
  import opened Wrappers
  import opened Media
  import opened Languages
  import opened Tables
  import opened Judging
  import opened Claims
  import opened Intents
  import opened Inventory
  import Pins

  /* ---------- A subtitle and a pair ---------- */

  /** A subtitle is for a variant by its flags alone. */
  predicate For(v: Variant, flags: Flags) {
    || (v == HearingImpaired && flags.hi)
    || (v == Forced && flags.forced)
    || (v == Standard && flags == Flags(false, false))
  }

  predicate Graded(p: Policy, pair: Pair, tag: Tag, flags: Flags, cs: set<Class>) {
    For(pair.variant, flags) && p.grade(pair.tag, tag) in cs
  }

  ghost predicate Managed(db: Db, p: Policy, id: InstId, pair: Pair, cs: set<Class>) {
    exists fk :: fk in db.files && fk.inst == id && Graded(p, pair, db.files[fk].tag, db.files[fk].flags, cs)
  }

  predicate Beside(db: Db, p: Policy, id: InstId, pair: Pair, cs: set<Class>) {
    id in db.local && exists f :: f in db.local[id] && Graded(p, pair, f.tag, f.flags, cs)
  }

  predicate Inside(db: Db, a: Activation, id: InstId, pair: Pair, cs: set<Class>) {
    id in db.embedded && exists t :: t in db.embedded[id] && t.tag != "" && t.codec !in a.codecs && Graded(a.policy, pair, t.tag, t.flags, cs)
  }

  /** Instance id has a subtitle of the pair's variant that grades among cs: a
      managed file, one listed beside it, or a track inside it with a language
      and no ignored codec. */
  ghost predicate Subtitled(db: Db, a: Activation, id: InstId, pair: Pair, cs: set<Class>) {
    id != 0 && (Managed(db, a.policy, id, pair, cs) || Beside(db, a.policy, id, pair, cs) || Inside(db, a, id, pair, cs))
  }

  /** Evidence e was taken from one of the three. */
  lemma EvidenceFrom(db: Db, a: Activation, id: InstId, e: Evidence)
    ensures e in EvidenceOf(db, a.codecs, id) <==>
            || (exists fk :: fk in db.files && fk.inst == id && Evidence(db.files[fk].tag, db.files[fk].flags) == e)
            || (id in db.local && exists f :: f in db.local[id] && Evidence(f.tag, f.flags) == e)
            || (id in db.embedded && exists t :: t in db.embedded[id] && t.tag != "" && t.codec !in a.codecs && Evidence(t.tag, t.flags) == e)
  {
  }

  lemma ForServes(v: Variant, flags: Flags)
    ensures flags.Serves(v) <==> For(v, flags)
  {
  }

  lemma ServingSubtitled(db: Db, a: Activation, id: InstId, pair: Pair, e: Evidence)
    requires id != 0 && e in EvidenceOf(db, a.codecs, id) && e.flags.Serves(pair.variant)
    ensures Subtitled(db, a, id, pair, {a.policy.grade(pair.tag, e.tag)})
  {
    hide EvidenceOf;
    EvidenceFrom(db, a, id, e);
    ForServes(pair.variant, e.flags);
  }

  lemma SubtitledServing(db: Db, a: Activation, id: InstId, pair: Pair, c: Class) returns (e: Evidence)
    requires Subtitled(db, a, id, pair, {c})
    ensures id != 0 && e in EvidenceOf(db, a.codecs, id) && e.flags.Serves(pair.variant) && a.policy.grade(pair.tag, e.tag) == c
  {
    hide EvidenceOf;
    if fk :| fk in db.files && fk.inst == id && Graded(a.policy, pair, db.files[fk].tag, db.files[fk].flags, {c}) {
      e := Evidence(db.files[fk].tag, db.files[fk].flags);
    } else if Beside(db, a.policy, id, pair, {c}) {
      var f :| f in db.local[id] && Graded(a.policy, pair, f.tag, f.flags, {c});
      e := Evidence(f.tag, f.flags);
    } else {
      var t :| t in db.embedded[id] && t.tag != "" && t.codec !in a.codecs && Graded(a.policy, pair, t.tag, t.flags, {c});
      e := Evidence(t.tag, t.flags);
    }
    EvidenceFrom(db, a, id, e);
    ForServes(pair.variant, e.flags);
  }

  lemma GradedServing(db: Db, a: Activation, rec: Record, pair: Pair, c: Class)
    ensures Serving(a.policy, pair, RecordEvidence(db, a.codecs, rec), c) <==> Subtitled(db, a, rec.inst, pair, {c})
  {
    hide EvidenceOf, Subtitled;
    var ev := RecordEvidence(db, a.codecs, rec);
    if Serving(a.policy, pair, ev, c) {
      var e :| e in ev && e.flags.Serves(pair.variant) && a.policy.grade(pair.tag, e.tag) == c;
      ServingSubtitled(db, a, rec.inst, pair, e);
    }
    if Subtitled(db, a, rec.inst, pair, {c}) {
      var e := SubtitledServing(db, a, rec.inst, pair, c);
    }
  }

  lemma RelatedServable(db: Db, a: Activation, rec: Record, pair: Pair)
    ensures Servable(a.policy, pair, RecordEvidence(db, a.codecs, rec)) <==> Subtitled(db, a, rec.inst, pair, {Exact, Substitute, ManualOnly})
  {
    hide Serving;
    GradedServing(db, a, rec, pair, Exact);
    GradedServing(db, a, rec, pair, Substitute);
    GradedServing(db, a, rec, pair, ManualOnly);
  }

  /* ---------- The pairs wanted ---------- */

  /** A list of targets wants each one's variants in turn. */
  lemma {:induction false} PairsJoin(ts: seq<Target>, more: seq<Target>)
    ensures AllPairs(ts + more) == AllPairs(ts) + AllPairs(more)
  {
    if ts == [] {
      assert ts + more == more;
    } else {
      assert (ts + more)[1..] == ts[1..] + more;
      PairsJoin(ts[1..], more);
    }
  }

  lemma PairsOfOne(t: Target, i: nat)
    ensures |AllPairs([t])| == |t.variants| && (i < |t.variants| ==> AllPairs([t])[i] == Pair(t.tag, t.variants[i]))
  {
    assert AllPairs([t]) == PairsOf(t) + AllPairs([]);
  }

  /* ---------- Stored coverage ---------- */

  /** What a row's verdict on a pair means. */
  ghost predicate Says(db: Db, a: Activation, id: InstId, row: Covering, pair: Pair) {
    && row.pair == pair
    && (row.coverage == Covered <==> Subtitled(db, a, id, pair, {Exact}))
    && (row.coverage == Missing <==> !Subtitled(db, a, id, pair, {Exact, Substitute}))
  }

  lemma JudgeSays(db: Db, a: Activation, rec: Record, pair: Pair)
    ensures Says(db, a, rec.inst, Covering(pair, Judge(a.policy, pair, RecordEvidence(db, a.codecs, rec))), pair)
  {
    hide Serving, RecordEvidence;
    GradedServing(db, a, rec, pair, Exact);
    GradedServing(db, a, rec, pair, Substitute);
    SubtitledEither(db, a, rec.inst, pair);
  }

  lemma SubtitledEither(db: Db, a: Activation, id: InstId, pair: Pair)
    ensures Subtitled(db, a, id, pair, {Exact, Substitute}) <==> Subtitled(db, a, id, pair, {Exact}) || Subtitled(db, a, id, pair, {Substitute})
  {
  }

  /** In every committed state the coverage stored for a live key is one verdict
      for each pair the policy wants for its sighting, in the policy's order:
      covered by an exact subtitle, missing without even a substitute. */
  lemma CoverageSays(db: Db, a: Activation, k: Key)
    requires Inv(db, Some(a)) && k in db.items && Live(db.instances, db.items[k])
    ensures db.items[k].ref in db.sightings
    ensures var it := db.sightings[db.items[k].ref].item;
            var pairs := AllPairs(a.policy.targets(it.original, it.audio));
            && |CoverageRow(db.coverage, k)| == |pairs|
            && forall i | 0 <= i < |pairs| :: Says(db, a, db.items[k].inst, CoverageRow(db.coverage, k)[i], pairs[i])
  {
    hide Sound, Judge, RecordEvidence, Says, EvidenceOf;
    assert Fresh(db, a, k);
    var rec := db.items[k];
    var pairs := Configured(a.policy, db.sightings[rec.ref]);
    forall i | 0 <= i < |pairs|
      ensures Says(db, a, rec.inst, CoverageRow(db.coverage, k)[i], pairs[i])
    {
      JudgeSays(db, a, rec, pairs[i]);
    }
  }

  /** How good a verdict is. */
  function Rank(c: Coverage): nat {
    match c case Missing => 0 case Substituted => 1 case Covered => 2
  }

  lemma ServingGrows(p: Policy, pair: Pair, ev: set<Evidence>, more: set<Evidence>, c: Class)
    requires ev <= more
    ensures Serving(p, pair, ev, c) ==> Serving(p, pair, more, c)
  {
  }

  /** Between any two committed states that see a key by the same sighting,
      more evidence never lowers the verdict on a pair. */
  lemma MoreNeverLowers(db: Db, db1: Db, a: Activation, k: Key, i: nat)
    requires Inv(db, Some(a)) && k in db.items && Live(db.instances, db.items[k])
    requires Inv(db1, Some(a)) && k in db1.items && Live(db1.instances, db1.items[k])
    requires SightingAt(db, db.items[k].ref) == SightingAt(db1, db1.items[k].ref)
    requires RecordEvidence(db, a.codecs, db.items[k]) <= RecordEvidence(db1, a.codecs, db1.items[k])
    ensures |CoverageRow(db.coverage, k)| == |CoverageRow(db1.coverage, k)|
    ensures i < |CoverageRow(db.coverage, k)| ==>
              Rank(CoverageRow(db.coverage, k)[i].coverage) <= Rank(CoverageRow(db1.coverage, k)[i].coverage)
  {
    hide Sound, RecordEvidence, Serving;
    assert Fresh(db, a, k) && Fresh(db1, a, k);
    var pairs := Configured(a.policy, db.sightings[db.items[k].ref]);
    if i < |pairs| {
      var ev, more := RecordEvidence(db, a.codecs, db.items[k]), RecordEvidence(db1, a.codecs, db1.items[k]);
      ServingGrows(a.policy, pairs[i], ev, more, Exact);
      ServingGrows(a.policy, pairs[i], ev, more, Substitute);
    }
  }

  /* ---------- Locks ---------- */

  /** A lock lapses when its instance is probed and listed and nothing there is
      of the pair's variant and related to its tag. */
  ghost predicate Lapses(db: Db, a: Activation, id: InstId, lk: LockKey) {
    id != 0 && id in db.local && id in db.embedded && !Subtitled(db, a, id, lk.pair, {Exact, Substitute, ManualOnly})
  }

  /** Which locks a recompute keeps: all but those of the recorded live keys it
      is given that lie on no wanted pair or, the inventory being complete,
      lapse. */
  lemma RecomputeLock(db: Db, a: Activation, ks: set<Key>, inventory: bool, lk: LockKey)
    requires Recompute(db, a, ks, inventory).Success?
    ensures var after := Recompute(db, a, ks, inventory).value.locks;
            && (lk in after ==> after[lk] == db.locks[lk])
            && (lk in after <==> lk in db.locks && !(lk.key in ks && lk.key in db.items && Live(db.instances, db.items[lk.key])
                                                     && !KeepsPair(db, a, lk, inventory)))
  {
    hide Servable, RecordEvidence, Subtitled, JudgedAt, NewCoverage;
    if lk.key in ks && lk.key in db.items && Live(db.instances, db.items[lk.key]) {
      assert !Broken(db, db.items[lk.key]);
      RelatedServable(db, a, db.items[lk.key], lk.pair);
    }
  }

  /** lk's key is sighted, its pair wanted, and a complete inventory keeps it. */
  ghost predicate KeepsPair(db: Db, a: Activation, lk: LockKey, inventory: bool)
    requires lk.key in db.items
  {
    var rec := db.items[lk.key];
    && rec.ref in db.sightings
    && (var it := db.sightings[rec.ref].item; lk.pair in AllPairs(a.policy.targets(it.original, it.audio)))
    && !(inventory && Lapses(db, a, rec.inst, lk))
  }

  /** Of a committed state's locks, a recompute drops those that lapse, of the
      recorded live keys it is given and only for a complete inventory. */
  lemma RecomputeLocks(db: Db, db1: Db, a: Activation, ks: set<Key>, inventory: bool, lk: LockKey)
    requires Inv(db, Some(a)) && Recompute(db1, a, ks, inventory).Success?
    requires db1.items == db.items && db1.sightings == db.sightings && db1.instances == db.instances && db1.locks == db.locks
    ensures var after := Recompute(db1, a, ks, inventory).value.locks;
            && (lk in after <==> lk in db.locks && !(inventory && lk.key in ks && lk.key in db.items && Live(db.instances, db.items[lk.key])
                                                     && Lapses(db1, a, db.items[lk.key].inst, lk)))
            && (lk in after ==> after[lk] == db.locks[lk])
  {
    hide Sound, Recompute, Lapses, RecordEvidence;
    RecomputeLock(db1, a, ks, inventory, lk);
    if lk.key in db.items && Live(db.instances, db.items[lk.key]) {
      assert Fresh(db, a, lk.key);
    }
  }

  /** Storing a listing drops the locks that lapse on the instance's items. */
  lemma ListingLocks(db: Db, a: Activation, id: InstId, files: seq<LocalFile>, lk: LockKey)
    requires Inv(db, Some(a)) && PutExternal(db, Some(a), id, files).Success?
    ensures var after := PutExternal(db, Some(a), id, files).value;
            && (lk in after.locks <==> lk in db.locks && !(lk.key in db.instances[id].items && lk.key in db.items && Live(db.instances, db.items[lk.key])
                                                           && Lapses(after, a, db.items[lk.key].inst, lk)))
            && (lk in after.locks ==> after.locks[lk] == db.locks[lk])
  {
    hide Inv, Recompute, Lapses, ByName;
    var db1 := db.(local := db.local[id := ByName(files)]);
    RecomputeLocks(db, db1, a, ItemsOf(db, id), true, lk);
    Pins.RecomputeFrame(db1, a, ItemsOf(db, id), true);
    if lk.key in db.items {
      LapsesOn(db1, PutExternal(db, Some(a), id, files).value, a, db.items[lk.key].inst, lk);
    }
  }

  lemma LapsesOn(db: Db, db1: Db, a: Activation, id: InstId, lk: LockKey)
    requires db1.files == db.files && db1.local == db.local && db1.embedded == db.embedded
    ensures Lapses(db1, a, id, lk) <==> Lapses(db, a, id, lk)
  {
  }

  /** Storing a probe drops none. */
  lemma ProbeLocks(db: Db, a: Activation, id: InstId, tracks: seq<Track>)
    requires Inv(db, Some(a)) && PutEmbedded(db, Some(a), id, tracks).Success?
    ensures PutEmbedded(db, Some(a), id, tracks).value.locks == db.locks
  {
    hide Inv, Recompute, Lapses;
    var db1 := db.(embedded := db.embedded[id := tracks]);
    var after := PutEmbedded(db, Some(a), id, tracks).value;
    forall lk
      ensures (lk in after.locks <==> lk in db.locks) && (lk in db.locks ==> after.locks[lk] == db.locks[lk])
    {
      RecomputeLocks(db, db1, a, ItemsOf(db, id), false, lk);
    }
  }

  /** The sighting k's record names wants the pair. */
  predicate Wants(db: Db, a: Activation, k: Key, pair: Pair) {
    && k in db.items && db.items[k].ref in db.sightings
    && var it := db.sightings[db.items[k].ref].item; pair in AllPairs(a.policy.targets(it.original, it.audio))
  }

  /** A user's lock is refused exactly when the instance has no owner, none of
      its items wants the pair or, setting one, nothing there is related to it;
      otherwise each of its items that wants the pair is locked, or unlocked,
      and a lock already set keeps its date. */
  lemma UserLocks(db: Db, a: Activation, id: InstId, pair: Pair, locked: bool, now: Time, lk: LockKey)
    requires Inv(db, Some(a))
    ensures var r := SetLock(db, Some(a), id, pair, locked, now);
            && (r.Failure? <==>
                  || id !in db.instances || db.instances[id].owner.None?
                  || (forall k | k in db.instances[id].items :: !Wants(db, a, k, pair))
                  || (locked && !Subtitled(db, a, id, pair, {Exact, Substitute, ManualOnly})))
            && (r.Success? ==>
                  && r.value == db.(locks := r.value.locks)
                  && (lk in r.value.locks ==> r.value.locks[lk] == if lk in db.locks then db.locks[lk] else now)
                  && (lk in r.value.locks <==>
                        if lk.pair == pair && lk.key in db.instances[id].items && Wants(db, a, lk.key, pair) then locked else lk in db.locks))
  {
    hide Sound, Servable, Subtitled, EvidenceOf, Wants, Configuring, Current;
    if id in db.instances {
      ZeroIsNone(db);
      RelatedServable(db, a, Record(ItemRef(RootRef("", NativeRef("", Movie)), ""), id), pair);
      ConfiguringWants(db, a, id, pair);
    }
  }

  lemma ConfiguringWants(db: Db, a: Activation, id: InstId, pair: Pair)
    requires id in db.instances
    ensures forall k :: k in Configuring(db, a, id, pair) <==> k in db.instances[id].items && Wants(db, a, k, pair)
  {
  }

  lemma ZeroIsNone(db: Db)
    requires Sound(db)
    ensures 0 !in db.instances
  {
    hide Linked, Owning, Named, Kept, Stamped, Sourced, Overlapping, Held, Staging, NoStray;
  }
}
