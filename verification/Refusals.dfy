/** Why a call on the store is refused, call by call. */
module Refusals {
  import opened Wrappers
  import opened Media
  import opened Languages
  import opened Tables
  import opened Claims
  import opened Judging
  import opened Settlement
  import opened Passes
  import opened Activations
  import opened Intents
  import opened Inventory
  import opened ClaimsKeep
  import opened ObserveKeeps
  import opened SettlementKeeps
  import opened PassesKeep
  import opened ActivationsKeep
  import opened IntentsKeep
  import opened Retirement
  import opened Runs
  import Verdicts
  import Paths

  /* ---------- A complete pass that meets a pending write ---------- */

  /** ref's sighting holds its key, whose instance lists it and has a write
      pending. */
  ghost predicate HeldUp(db: Db, ref: ItemRef) {
    && ref in db.sightings && db.sightings[ref].key.Some?
    && var k := db.sightings[ref].key.value;
       && k in db.items && db.items[k].ref == ref
       && db.items[k].inst in db.instances && k in db.instances[db.items[k].inst].items
       && exists fk :: fk in db.intents && fk.inst == db.items[k].inst
  }

  lemma ReleaseRefused(o: Obs, ref: ItemRef)
    requires ref in o.db.sightings && 0 !in o.db.instances
    ensures var r := Release(o, ref, o.db.sightings[ref]);
            (r.Failure? <==> HeldUp(o.db, ref)) && (r.Failure? ==> r.error.PinnedInstance?)
  {
    hide Detach;
    var k := o.db.sightings[ref].key;
    if k.Some? && k.value in o.db.items && o.db.items[k.value].ref == ref {
      DetachRefused(o.(db := o.db.(overlaps := o.db.overlaps - {ref})), o.db.items[k.value].inst, k.value);
    }
  }

  lemma DetachRefused(o: Obs, id: InstId, k: Key)
    ensures var r := Detach(o, id, k);
            && (r.Failure? <==> id in o.db.instances && k in o.db.instances[id].items && exists fk :: fk in o.db.intents && fk.inst == id)
            && (r.Failure? ==> r.error == PinnedInstance(id))
  {
  }

  lemma HeldUpOn(db: Db, db1: Db, ref: ItemRef)
    requires db1 == db.(stamps := db1.stamps, passes := db1.passes)
    ensures HeldUp(db1, ref) <==> HeldUp(db, ref)
  {
  }

  lemma HeldUpSighted(db: Db, ref: ItemRef)
    requires HeldUp(db, ref)
    ensures ref in db.sightings && db.sightings[ref].key.Some?
  {
  }

  lemma RetireOneRefused(o: Obs, ref: ItemRef)
    requires 0 !in o.db.instances && (ref in o.db.sightings ==> ref.item != "")
    ensures RetireOne(o, ref).Failure? <==> HeldUp(o.db, ref)
    ensures RetireOne(o, ref).Failure? ==> RetireOne(o, ref).error.PinnedInstance?
  {
    hide Release, HeldUp;
    if ref in o.db.sightings {
      ReleaseRefused(Unstamped(o, ref), ref);
      HeldUpOn(o.db, Unstamped(o, ref).db, ref);
    } else if HeldUp(o.db, ref) {
      HeldUpSighted(o.db, ref);
    }
  }

  /** Retiring some sightings holds up no other, and frees none. */
  lemma HeldUpStill(o: Obs, on: Obs, refs: set<ItemRef>, ref: ItemRef)
    requires Retiring(o, on, refs) && ref !in refs
    ensures HeldUp(on.db, ref) <==> HeldUp(o.db, ref)
  {
    hide Unkeyed, KeysGiven;
    if ref in o.db.sightings && o.db.sightings[ref].key.Some? {
      var k := o.db.sightings[ref].key.value;
      GivenRecord(o.db, on.db, refs, ref);
      if k in o.db.items && o.db.items[k].ref == ref {
        ListedStill(o.db, on.db, refs, k);
      }
    }
  }

  lemma ListedStill(db: Db, on: Db, refs: set<ItemRef>, k: Key)
    requires KeysGiven(db, on, refs) && k in db.items && db.items[k].ref !in refs
    ensures var id := db.items[k].inst;
            (id in on.instances <==> id in db.instances) && (id in db.instances ==> (k in on.instances[id].items <==> k in db.instances[id].items))
  {
    var id := db.items[k].inst;
    assert id in db.instances ==> InstanceGiven(db, on, refs, id);
  }

  lemma {:induction false} RetireAllRefused(o: Obs, a: Activation, refs: seq<ItemRef>)
    requires Sighted(o.db) && 0 !in o.db.instances && Tidy(o, a)
    ensures RetireAll(o, refs).Failure? <==> exists ref :: ref in refs && HeldUp(o.db, ref)
    ensures RetireAll(o, refs).Failure? ==> RetireAll(o, refs).error.PinnedInstance?
  {
    hide Tidy, RetireOne, HeldUp, Retiring;
    if refs != [] {
      var init, last := refs[..|refs| - 1], refs[|refs| - 1];
      assert refs == init + [last];
      RetireAllRefused(o, a, init);
      if RetireAll(o, init).Success? {
        var on := RetireAll(o, init).value;
        AllRetiring(o, a, init);
        RetiringSighted(o, on, (set r | r in init));
        RetireOneRefused(on, last);
        if last in init {
          if HeldUp(on.db, last) {
            HeldUpSighted(on.db, last);
          }
        } else {
          HeldUpStill(o, on, (set r | r in init), last);
        }
      }
    }
  }

  lemma RetiringSighted(o: Obs, on: Obs, refs: set<ItemRef>)
    requires Retiring(o, on, refs)
    ensures on.db.sightings == o.db.sightings - refs && on.db.instances.Keys == o.db.instances.Keys
  {
    hide Unkeyed;
  }

  /** A complete pass is refused exactly when a sighting it did not see holds a
      key of an instance that a write waits on. */
  lemma CompletePassRefused(db: Db, a: Activation, src: SourceId, p: PassRow, kept: set<NativeRef>, now: Time)
    requires Inv(db, Some(a)) && src in db.passes && db.passes[src] == p
    ensures var r := CompletePass(db.(passes := db.passes - {src}), a, src, p, kept, now);
            && (r.Failure? <==> exists ref :: ref in UnseenRefs(db, src, p, kept) && HeldUp(db, ref))
            && (r.Failure? ==> r.error.PinnedInstance?)
  {
    hide Inv, Tidy, Settle, ExpireAll, RetireAll, Stamped, StaleRefs, Retired, Sighted, UnseenRefs, HeldUp;
    var o := Begun(db.(passes := db.passes - {src}), src, p.id, now);
    ClosedTidy(db, a, src, p, now);
    PassSighted(db, a);
    SightedOn(db, o.db);
    var refs := StaleRefs(o, kept, p);
    RetireAllRefused(o, a, refs);
    StaleUnseen(db, src, p, kept, now);
    forall ref
      ensures HeldUp(o.db, ref) <==> HeldUp(db, ref)
      ensures ref in refs <==> ref in UnseenRefs(db, src, p, kept)
    {
      HeldUpOn(db, o.db, ref);
      assert ref in refs <==> ref in (set r | r in refs);
    }
    if RetireAll(o, refs).Success? {
      var on := RetireAll(o, refs).value;
      RetireAllTidy(o, a, refs);
      RetiredStamped(o, on.db, kept, p);
      ExpireTidy(on, a, Orphans(on));
      ExpireSame(on, Orphans(on));
      var on1 := ExpireAll(on, Orphans(on));
      SettleKeeps(on1, a) by { assert Weak(on1, a); }
    }
  }

  /* ---------- Every call ---------- */

  predicate InForce(s: State, src: SourceId) {
    s.active.Some? && src in s.active.value.sources
  }

  /** A source's pass of that number is still open. */
  predicate IsOpen(s: State, src: SourceId, pass: PassId) {
    src in s.db.passes && s.db.passes[src].id == pass
  }

  predicate Twice<T(==)>(xs: seq<T>) {
    exists i, j :: 0 <= i < j < |xs| && xs[i] == xs[j]
  }

  /** A report with a nameless root or item, a path that is not clean, or an
      item named twice. */
  predicate Malformed(root: Root, items: seq<Item>) {
    || root.native.id == ""
    || (exists i :: 0 <= i < |items| && (items[i].native == "" || (items[i].path != "" && !Paths.AbsClean(items[i].path))))
    || (exists i, j :: 0 <= i < j < |items| && items[i].native == items[j].native)
  }

  /** A listing with a nameless file, or two of a name. */
  predicate Misnamed(files: seq<LocalFile>) {
    || (exists i :: 0 <= i < |files| && files[i].name == "")
    || (exists i, j :: 0 <= i < j < |files| && files[i].name == files[j].name)
  }

  /** A delivery stages at least one attempt, each for some item and of the
      instance, the first for items it lists; a retiming adopts exactly a file
      that is not managed yet. */
  predicate Unstageable(db: Db, fk: FileKey, it: Intent) {
    match it
    case Delivery(_, _, attempts, _) =>
      || attempts == []
      || (exists i :: 0 <= i < |attempts| && (attempts[i].items == [] || attempts[i].inst != fk.inst))
      || (fk.inst in db.instances && exists k :: k in attempts[0].items && k !in db.instances[fk.inst].items)
    case Retiming(_, adopted) => (fk in db.files && adopted.Some?) || (fk !in db.files && adopted.None?)
    case Removal(_) => false
  }

  /** Why a call is refused, but for a write that waits on what it would move. */
  ghost predicate Refuses(s: State, c: Call, e: StoreError) {
    match c
    case OpenAPass(src, scope) =>
      if scope.Some? && exists i :: 0 <= i < |scope.value| && scope.value[i].id == "" then e == BadReport
      else e == SourceInactive && !InForce(s, src)
    case Report(src, pass, root, items) =>
      if Malformed(root, items) then e == BadReport
      else if !InForce(s, src) then e == SourceInactive
      else e == PassUnknown && !IsOpen(s, src, pass)
    case CloseAPass(src, pass, complete, keep) =>
      if keep.Some? && (|keep.value| > 32 || !complete) then e == BadKeep
      else if !InForce(s, src) then e == SourceInactive
      else if !IsOpen(s, src, pass) then e == PassUnknown
      else e == BadKeep && keep.Some? && s.db.passes[src].roots.Some?
    case Configure(_, sources, _) => e == BadActivation && (Twice(sources) || "" in sources)
    case BeginWrite(fk, it) =>
      if fk.name == "" then e == BadWrite
      else if fk.inst !in s.db.instances then e == UnknownInstance
      else if fk in s.db.intents then e == AlreadyPending
      else e == BadWrite && Unstageable(s.db, fk, it)
    case EndWrite(fk, op, landed) =>
      fk in s.db.intents && if s.db.intents[fk].OpOf() != op then e == WrongOp else e == NoActivation && landed && s.active.None?
    case Probe(id, _) => if s.active.None? then e == NoActivation else e == UnknownInstance && id !in s.db.instances
    case ListFiles(id, files) =>
      if Misnamed(files) then e == BadWrite
      else if s.active.None? then e == NoActivation
      else e == UnknownInstance && id !in s.db.instances
    case Lock(id, pair, locked) =>
      if s.active.None? then e == NoActivation
      else
        && e == NotLockable
        && (|| id !in s.db.instances || s.db.instances[id].owner.None?
            || (forall k | k in s.db.instances[id].items :: !Verdicts.Wants(s.db, s.active.value, k, pair))
            || (locked && !Verdicts.Subtitled(s.db, s.active.value, id, pair, {Exact, Substitute, ManualOnly})))
    case LogAttempts(attempts) => e == BadWrite && exists i :: 0 <= i < |attempts| && (attempts[i].delivered || attempts[i].items == [])
    case Reopen => false
  }

  /** What a call that moves no claim writes. */
  ghost predicate Writes(s: State, c: Call, db: Db) {
    match c
    case OpenAPass(src, scope) =>
      && db == s.db.(lastPass := s.db.lastPass + 1, passes := db.passes)
      && forall x :: (x in db.passes <==> x == src || x in s.db.passes)
                     && (x in db.passes ==> db.passes[x] == if x == src then PassRow(s.db.lastPass + 1, scope) else s.db.passes[x])
    case CloseAPass(src, _, complete, _) => complete || db == s.db.(passes := s.db.passes - {src})
    case BeginWrite(fk, it) => db == s.db.(intents := s.db.intents[fk := it])
    case LogAttempts(attempts) => db == s.db.(downloads := s.db.downloads + attempts)
    case _ => true
  }

  lemma OpenRefused(s: State, c: Call, now: Time, e: StoreError)
    requires c.OpenAPass? || c.LogAttempts? || c.Reopen?
    ensures Effect(s, c, now) == Failure(e) <==> Refuses(s, c, e)
    ensures Effect(s, c, now).Success? ==> Writes(s, c, Effect(s, c, now).value)
  {
  }

  lemma ReportValid(root: Root, items: seq<Item>)
    ensures ValidReport(root, items) <==> !Malformed(root, items)
  {
  }

  lemma ListingValid(files: seq<LocalFile>)
    ensures ValidListing(files) <==> !Misnamed(files)
  {
  }

  lemma SourcesValid(sources: seq<SourceId>)
    ensures NoRepeat(sources) <==> !Twice(sources)
  {
  }

  lemma ReportRefused(s: State, c: Call, now: Time, e: StoreError)
    requires c.Report? && Inv(s.db, s.active)
    ensures !e.PinnedInstance? ==> (Effect(s, c, now) == Failure(e) <==> Refuses(s, c, e))
    ensures e.PinnedInstance? && Effect(s, c, now) == Failure(e) ==> exists fk :: fk in s.db.intents && fk.inst == e.id
  {
    hide Inv, Observe, Settle, ValidReport, Malformed;
    ReportValid(c.root, c.items);
    ObserveItemsKeeps(s.db, s.active, c.src, c.pass, now, c.root, c.items);
    if ValidReport(c.root, c.items) && OpenPass(s.db, s.active, c.src, c.pass).Success? {
      ReportStands(s.db, s.active, c.src, c.pass, now, c.root, c.items);
    }
  }

  /** A report of an open pass is refused for a pending write or not at all. */
  lemma ReportStands(db: Db, active: Option<Activation>, src: SourceId, pass: PassId, now: Time, root: Root, items: seq<Item>)
    requires Inv(db, active) && ValidReport(root, items) && OpenPass(db, active, src, pass).Success?
    ensures var r := ObserveItems(db, active, src, pass, now, root, items); OnlyPins(db.intents, r)
  {
    hide Inv, Observe, Settle;
    var o := Observe(Begun(db, src, pass, now), root, items);
    ObserveRefusal(Begun(db, src, pass, now), root, items);
    if o.Success? {
      ReportKeeps(db, active.value, src, pass, now, root, items);
      SettleKeeps(o.value, active.value);
    }
  }

  /** A sighting the pass did not see, in its scope and under no kept root,
      is held up. */
  ghost predicate PassHeldUp(db: Db, src: SourceId, keep: Option<seq<NativeRef>>) {
    src in db.passes && exists ref :: ref in UnseenRefs(db, src, db.passes[src], KeptRoots(keep)) && HeldUp(db, ref)
  }

  lemma CloseRefused(s: State, c: Call, now: Time, e: StoreError)
    requires c.CloseAPass? && Inv(s.db, s.active)
    ensures !e.PinnedInstance? ==> (Effect(s, c, now) == Failure(e) <==> Refuses(s, c, e))
    ensures e.PinnedInstance? && Effect(s, c, now) == Failure(e) ==> c.complete
    ensures Effect(s, c, now).Success? ==> Writes(s, c, Effect(s, c, now).value)
  {
    hide Inv, CompletePass, UnseenRefs, HeldUp;
    if OpenPass(s.db, s.active, c.src, c.pass).Success? {
      assert Inv(s.db, Some(s.active.value));
      CompletePassRefused(s.db, s.active.value, c.src, s.db.passes[c.src], KeptRoots(c.keep), now);
    }
  }

  /** A pass is closed unless its arguments are wrong or, closed as complete,
      a sighting it did not see holds a key of an instance with a write
      pending. */
  lemma PassRefused(s: State, c: Call, now: Time)
    requires c.CloseAPass? && Inv(s.db, s.active)
    ensures Effect(s, c, now).Failure? <==> (exists e :: Refuses(s, c, e)) || (c.complete && PassHeldUp(s.db, c.src, c.keep))
  {
    hide Inv, CompletePass, UnseenRefs, HeldUp, Refuses;
    var r := Effect(s, c, now);
    forall e
      ensures Refuses(s, c, e) ==> r == Failure(e)
      ensures r == Failure(e) && !e.PinnedInstance? ==> Refuses(s, c, e)
    {
      CloseRefused(s, c, now, e);
      if Refuses(s, c, e) {
        RefusesUnpinned(s, c, e);
      }
    }
    if OpenPass(s.db, s.active, c.src, c.pass).Success? {
      assert Inv(s.db, Some(s.active.value));
      CompletePassRefused(s.db, s.active.value, c.src, s.db.passes[c.src], KeptRoots(c.keep), now);
    }
  }

  lemma RefusesUnpinned(s: State, c: Call, e: StoreError)
    requires c.CloseAPass? && Refuses(s, c, e)
    ensures !e.PinnedInstance?
  {
  }

  lemma ConfigureRefused(s: State, c: Call, now: Time, e: StoreError)
    requires c.Configure? && Inv(s.db, s.active)
    requires s.active.Some? && s.active.value.policy.digest == c.policy.digest ==> s.active.value.policy == c.policy
    ensures Effect(s, c, now) == Failure(e) <==> Refuses(s, c, e)
  {
    hide Inv, Activate;
    SourcesValid(c.sources);
    var next := Normalize(c.policy, c.sources, c.codecs);
    if next.Success? {
      ActivateKeeps(s.db, s.active, next.value, now);
    }
  }

  lemma WriteRefused(s: State, c: Call, now: Time, e: StoreError)
    requires (c.BeginWrite? || c.EndWrite?) && Inv(s.db, s.active)
    ensures Effect(s, c, now) == Failure(e) <==> Refuses(s, c, e)
    ensures Effect(s, c, now).Success? ==> Writes(s, c, Effect(s, c, now).value)
  {
    hide Inv, Landed, Unlanded;
    if c.EndWrite? {
      EndKeeps(s.db, s.active, c.fk, c.op, c.landed, now);
    }
  }

  lemma StoreRefused(s: State, c: Call, now: Time, e: StoreError)
    requires (c.Probe? || c.ListFiles? || c.Lock?) && Inv(s.db, s.active)
    ensures Effect(s, c, now) == Failure(e) <==> Refuses(s, c, e)
  {
    hide Inv, Recompute, ValidListing, Misnamed, Verdicts.Wants, Verdicts.Subtitled;
    match c
    case Probe(id, tracks) => PutEmbeddedKeeps(s.db, s.active, id, tracks);
    case ListFiles(id, files) =>
      ListingValid(files);
      PutExternalKeeps(s.db, s.active, id, files);
    case Lock(id, pair, locked) =>
      if s.active.Some? {
        assert Inv(s.db, Some(s.active.value));
        Verdicts.UserLocks(s.db, s.active.value, id, pair, locked, now, LockKey(Key(RootKey(Movie, NoScheme, 0), 0, 0), pair));
      }
  }

  /** A call is refused exactly for the reasons that Refuses states, or for a
      write pending on an instance that a report or a complete pass would
      move; committed, a call that moves no claim writes what Writes states. */
  lemma StepRefused(s: State, c: Call, now: Time, e: StoreError)
    requires Inv(s.db, s.active)
    requires c.Configure? && s.active.Some? && s.active.value.policy.digest == c.policy.digest ==> s.active.value.policy == c.policy
    ensures !e.PinnedInstance? ==> (Effect(s, c, now) == Failure(e) <==> Refuses(s, c, e))
    ensures e.PinnedInstance? && Effect(s, c, now) == Failure(e) ==> c.Report? || (c.CloseAPass? && c.complete)
    ensures Effect(s, c, now).Success? ==> Writes(s, c, Effect(s, c, now).value)
  {
    hide Inv, Effect;
    match c
    case OpenAPass(_, _) => OpenRefused(s, c, now, e);
    case LogAttempts(_) => OpenRefused(s, c, now, e);
    case Reopen => OpenRefused(s, c, now, e);
    case Report(_, _, _, _) => ReportRefused(s, c, now, e);
    case CloseAPass(_, _, _, _) => CloseRefused(s, c, now, e);
    case Configure(_, _, _) => ConfigureRefused(s, c, now, e);
    case BeginWrite(_, _) => WriteRefused(s, c, now, e);
    case EndWrite(_, _, _) => WriteRefused(s, c, now, e);
    case Probe(_, _) => StoreRefused(s, c, now, e);
    case ListFiles(_, _) => StoreRefused(s, c, now, e);
    case Lock(_, _, _) => StoreRefused(s, c, now, e);
  }
}
