/** The write protocol over whole runs: a pending write pins its instance,
    and every staged attempt enters the log exactly once. */
module Protocol {
  import opened Wrappers
  import opened Languages
  import opened Tables
  import opened Claims
  import opened Judging
  import opened Settlement
  import opened Passes
  import opened Activations
  import opened Intents
  import opened Inventory
  import opened IntentsKeep
  import opened Pins
  import opened Runs

  /** Whether a call is an End that settles fk's pending write: one refused,
      for another operation or before the first activation, settles nothing. */
  ghost predicate Settles(s: State, c: Call, fk: FileKey, now: Time) {
    c.EndWrite? && c.fk == fk && Effect(s, c, now).Success?
  }

  /** fk's pending write, and the path and items it pins. */
  ghost predicate StillPinned(s: State, s1: State, fk: FileKey) {
    && fk in s.db.intents && fk in s1.db.intents && s1.db.intents[fk] == s.db.intents[fk]
    && fk.inst in s.db.instances && fk.inst in s1.db.instances
    && s1.db.instances[fk.inst].items == s.db.instances[fk.inst].items
    && s1.db.instances[fk.inst].path == s.db.instances[fk.inst].path
  }

  lemma PinsStill(s: State, s1: State, fk: FileKey)
    requires PinsKept(s.db, s1.db) && fk in s.db.intents && fk.inst in s.db.instances
    ensures StillPinned(s, s1, fk)
  {
  }

  /** A write of an instance's rows leaves every instance and intent alone. */
  lemma RowsStill(s: State, s1: State, fk: FileKey)
    requires s1.db.instances == s.db.instances && fk in s.db.intents && fk.inst in s.db.instances
    requires fk in s1.db.intents && s1.db.intents[fk] == s.db.intents[fk]
    ensures StillPinned(s, s1, fk)
  {
  }

  lemma LandedInstances(db: Db, a: Activation, fk: FileKey, now: Time)
    requires Inv(db, Some(a)) && fk in db.intents && Landed(db, a, fk, db.intents[fk], now).Success?
    ensures var after := Landed(db, a, fk, db.intents[fk], now).value.db;
            after.instances == db.instances && after.intents == db.intents - {fk}
  {
    hide Inv, Staged, Land, Recompute, ItemsOf;
    var it := db.intents[fk];
    var db1 := db.(intents := db.intents - {fk});
    StagedAt(db, Some(a), fk);
    LandLocal(db1, a, fk, it, now);
    var c := Land(db1, a, fk, it, now);
    LocalSame(db1, c.db, fk.inst);
    RecomputeFrame(c.db, a, ItemsOf(c.db, fk.inst), true);
  }

  lemma InvSome(db: Db, active: Option<Activation>)
    requires Inv(db, active) && active.Some?
    ensures Inv(db, Some(active.value))
  {
  }

  lemma EndInstances(db: Db, active: Option<Activation>, fk: FileKey, want: Op, landed: bool, now: Time)
    requires Inv(db, active) && End(db, active, fk, want, landed, now).Success?
    ensures var after := End(db, active, fk, want, landed, now).value.db;
            after.instances == db.instances && after.intents == db.intents - {fk}
  {
    hide Inv, Landed, Undelivered;
    assert fk !in db.intents ==> db.intents - {fk} == db.intents;
    if fk in db.intents && landed {
      InvSome(db, active);
      LandedInstances(db, active.value, fk, now);
    }
  }

  lemma ProbeInstances(s: State, c: Call, now: Time)
    requires (c.Probe? || c.ListFiles? || c.Lock? || c.LogAttempts? || c.Reopen? || c.OpenAPass?) && Effect(s, c, now).Success?
    ensures Effect(s, c, now).value.instances == s.db.instances && Effect(s, c, now).value.intents == s.db.intents
  {
    hide PutEmbedded, PutExternal, SetLock, RecordAttempts, BeginPass;
    match c
    case Probe(id, tracks) => ProbeFrame(s.db, s.active, id, tracks);
    case ListFiles(id, files) => ListFrame(s.db, s.active, id, files);
    case Lock(id, pair, locked) => LockFrame(s.db, s.active, id, pair, locked, now);
    case LogAttempts(attempts) => AttemptsFrame(s.db, attempts);
    case Reopen =>
    case OpenAPass(src, scope) => OpenFrame(s.db, s.active, src, scope);
  }

  lemma ProbeFrame(db: Db, active: Option<Activation>, id: InstId, tracks: seq<Track>)
    requires PutEmbedded(db, active, id, tracks).Success?
    ensures var after := PutEmbedded(db, active, id, tracks).value;
            after.instances == db.instances && after.intents == db.intents && after.downloads == db.downloads
  {
    hide Recompute, ItemsOf;
    RecomputeFrame(db.(embedded := db.embedded[id := tracks]), active.value, ItemsOf(db, id), false);
  }

  lemma ListFrame(db: Db, active: Option<Activation>, id: InstId, files: seq<LocalFile>)
    requires PutExternal(db, active, id, files).Success?
    ensures var after := PutExternal(db, active, id, files).value;
            after.instances == db.instances && after.intents == db.intents && after.downloads == db.downloads
  {
    hide Recompute, ItemsOf, ByName, ValidListing;
    RecomputeFrame(db.(local := db.local[id := ByName(files)]), active.value, ItemsOf(db, id), true);
  }

  lemma LockFrame(db: Db, active: Option<Activation>, id: InstId, pair: Pair, locked: bool, now: Time)
    requires SetLock(db, active, id, pair, locked, now).Success?
    ensures var after := SetLock(db, active, id, pair, locked, now).value;
            after.instances == db.instances && after.intents == db.intents && after.downloads == db.downloads
  {
    hide EvidenceOf, Servable, Configuring, Locking;
  }

  lemma AttemptsFrame(db: Db, attempts: seq<Download>)
    requires RecordAttempts(db, attempts).Success?
    ensures var after := RecordAttempts(db, attempts).value; after.instances == db.instances && after.intents == db.intents
  {
  }

  lemma OpenFrame(db: Db, active: Option<Activation>, src: SourceId, scope: Option<seq<NativeRef>>)
    requires BeginPass(db, active, src, scope).Success?
    ensures var after := BeginPass(db, active, src, scope).value.0;
            after.instances == db.instances && after.intents == db.intents && after.downloads == db.downloads
  {
  }

  lemma PassPins(db: Db, active: Option<Activation>, src: SourceId, pass: PassId, complete: bool, keep: Option<seq<NativeRef>>, now: Time)
    requires Inv(db, active) && FinishPass(db, active, src, pass, complete, keep, now).Success?
    ensures PinsKept(db, FinishPass(db, active, src, pass, complete, keep, now).value.db)
  {
    hide Inv, CompletePass, PinsKept;
    if complete {
      assert Inv(db, Some(active.value));
      CompletePassHeld(db, active.value, src, db.passes[src], KeptRoots(keep), now);
    } else {
      HeldSame(db, db.(passes := db.passes - {src}));
    }
  }

  /** From the commit of any Begin to its matching End, no call removes the
      intent or changes the path or items of its instance. */
  lemma StepPins(s: State, c: Call, now: Time, fk: FileKey)
    requires Inv(s.db, s.active) && fk in s.db.intents && !Settles(s, c, fk, now)
    ensures StillPinned(s, Step(s, c, now), fk)
  {
    hide Inv, ObserveItems, FinishPass, Activate, End, PinsKept, StillPinned, Staged;
    StagedAt(s.db, s.active, fk);
    var s1 := Step(s, c, now);
    RowsStill(s, s, fk);
    if Effect(s, c, now).Success? {
      match c
      case Report(src, pass, root, items) =>
        ReportActive(s, src, pass, now, root, items);
        ObserveItemsHeld(s.db, s.active.value, src, pass, now, root, items);
        PinsStill(s, s1, fk);
      case CloseAPass(src, pass, complete, keep) =>
        PassPins(s.db, s.active, src, pass, complete, keep, now);
        PinsStill(s, s1, fk);
      case Configure(policy, sources, codecs) =>
        ActivateHeld(s.db, s.active, Normalize(policy, sources, codecs).value, now);
        PinsStill(s, s1, fk);
      case BeginWrite(fk1, it) =>
        RowsStill(s, s1, fk);
      case EndWrite(fk1, op, landed) =>
        EndInstances(s.db, s.active, fk1, op, landed, now);
        RowsStill(s, s1, fk);
      case _ =>
        ProbeInstances(s, c, now);
        RowsStill(s, s1, fk);
    }
  }

  lemma ReportActive(s: State, src: SourceId, pass: PassId, now: Time, root: Root, items: seq<Item>)
    requires ObserveItems(s.db, s.active, src, pass, now, root, items).Success?
    ensures s.active.Some?
  {
    hide Observe, Settle;
  }

  /** No call of a run is an End that settles fk's pending write. */
  ghost predicate Unsettled(s: State, cs: seq<Call>, clock: nat -> Time, fk: FileKey) {
    forall i: nat | i < |cs| :: !Settles(Run(s, cs[..i], clock), cs[i], fk, clock(i))
  }

  lemma UnsettledInit(s: State, cs: seq<Call>, clock: nat -> Time, fk: FileKey)
    requires Unsettled(s, cs, clock, fk) && cs != []
    ensures var n := |cs| - 1; Unsettled(s, cs[..n], clock, fk) && !Settles(Run(s, cs[..n], clock), cs[n], fk, clock(n))
  {
    hide Settles, Run;
    var init := cs[..|cs| - 1];
    assert forall i: nat | i < |init| :: init[i] == cs[i] && init[..i] == cs[..i];
  }

  /** Over any run without that End, the instance a write was begun on is
      stored with the items it was checked against. */
  lemma {:induction false} RunPins(s: State, cs: seq<Call>, clock: nat -> Time, books: nat -> (nat -> Policy), fk: FileKey)
    requires Good(s, books(0)) && Booked(books, cs) && fk in s.db.intents && Unsettled(s, cs, clock, fk)
    ensures StillPinned(s, Run(s, cs, clock), fk)
  {
    hide Inv, Step, Staged, StillPinned, Unsettled, Settles, Booked, Opens;
    if cs == [] {
      StagedAt(s.db, s.active, fk);
      RowsStill(s, s, fk);
    } else {
      var n := |cs| - 1;
      var mid := Run(s, cs[..n], clock);
      BookedInit(books, cs, n);
      UnsettledInit(s, cs, clock, fk);
      RunPins(s, cs[..n], clock, books, fk);
      RunKeeps(s, cs[..n], clock, books);
      PinnedThere(s, mid, fk);
      StepPins(mid, cs[n], clock(n), fk);
      PinnedTransitive(s, mid, Step(mid, cs[n], clock(n)), fk);
    }
  }

  lemma PinnedThere(s: State, s1: State, fk: FileKey)
    requires StillPinned(s, s1, fk)
    ensures fk in s1.db.intents
  {
  }

  lemma PinnedTransitive(s: State, s1: State, s2: State, fk: FileKey)
    requires StillPinned(s, s1, fk) && StillPinned(s1, s2, fk)
    ensures StillPinned(s, s2, fk)
  {
  }

  /* ---------- Exactly once ---------- */

  /** An attempt as staged, whether or not it was delivered. */
  function Stripped(ds: seq<Download>): seq<Download> {
    Undelivered(ds)
  }

  function StagedBy(it: Intent): multiset<Download> {
    if it.Delivery? then multiset(Stripped(it.attempts)) else multiset{}
  }

  /** The attempts every pending write stages. */
  ghost function Pending(intents: map<FileKey, Intent>): multiset<Download>
    decreases |intents|
  {
    if intents == map[] then multiset{}
    else
      var fk :| fk in intents;
      StagedBy(intents[fk]) + Pending(intents - {fk})
  }

  lemma {:induction false} PendingTake(intents: map<FileKey, Intent>, fk: FileKey)
    requires fk in intents
    ensures Pending(intents) == StagedBy(intents[fk]) + Pending(intents - {fk})
    decreases |intents|
  {
    hide StagedBy;
    var x :| x in intents && Pending(intents) == StagedBy(intents[x]) + Pending(intents - {x});
    if x != fk {
      PendingTake(intents - {x}, fk);
      PendingTake(intents - {fk}, x);
      assert intents - {x} - {fk} == intents - {fk} - {x};
      SumSwap(StagedBy(intents[x]), StagedBy(intents[fk]), Pending(intents - {x} - {fk}));
    }
  }

  lemma SumSwap(a: multiset<Download>, b: multiset<Download>, c: multiset<Download>)
    ensures a + (b + c) == b + (a + c)
  {
  }

  lemma PendingPut(intents: map<FileKey, Intent>, fk: FileKey, it: Intent)
    requires fk !in intents
    ensures Pending(intents[fk := it]) == StagedBy(it) + Pending(intents)
  {
    PendingTake(intents[fk := it], fk);
    assert intents[fk := it] - {fk} == intents;
  }

  /** Everything logged or staged to be. */
  ghost function Accounted(db: Db): multiset<Download> {
    multiset(Stripped(db.downloads)) + Pending(db.intents)
  }

  /** What a call that commits hands over for the log. */
  ghost function HandedOver(s: State, c: Call, now: Time): multiset<Download> {
    if Effect(s, c, now).Failure? then multiset{}
    else match c
      case BeginWrite(_, it) => StagedBy(it)
      case LogAttempts(attempts) => multiset(Stripped(attempts))
      case _ => multiset{}
  }

  lemma StrippedJoin(a: seq<Download>, b: seq<Download>)
    ensures multiset(Stripped(a + b)) == multiset(Stripped(a)) + multiset(Stripped(b))
  {
    assert Stripped(a + b) == Stripped(a) + Stripped(b);
  }

  lemma StrippedTwice(a: seq<Download>)
    ensures Stripped(Undelivered(a)) == Stripped(a)
  {
  }

  function StagedAttempts(db: Db, fk: FileKey): seq<Download> {
    if fk in db.intents && db.intents[fk].Delivery? then db.intents[fk].attempts else []
  }

  lemma LandedLog(db: Db, active: Option<Activation>, fk: FileKey, want: Op, now: Time)
    requires Inv(db, active) && fk in db.intents && End(db, active, fk, want, true, now).Success?
    ensures End(db, active, fk, want, true, now).value.db.downloads == db.downloads + StagedAttempts(db, fk)
  {
    hide Inv, Staged, Land, Recompute, ItemsOf;
    var it := db.intents[fk];
    var db1 := db.(intents := db.intents - {fk});
    StagedAt(db, active, fk);
    LandLocal(db1, active.value, fk, it, now);
    RecomputeFrame(Land(db1, active.value, fk, it, now).db, active.value, ItemsOf(Land(db1, active.value, fk, it, now).db, fk.inst), true);
  }

  lemma UnlandedLog(db: Db, active: Option<Activation>, fk: FileKey, want: Op, now: Time)
    requires End(db, active, fk, want, false, now).Success?
    ensures End(db, active, fk, want, false, now).value.db.downloads == db.downloads + Undelivered(StagedAttempts(db, fk))
  {
    hide Landed, Undelivered;
    UndeliveredNone();
    assert db.downloads + [] == db.downloads;
  }

  /** An End moves what its write staged into the log, once; a repeated End
      finds nothing pending and moves nothing. */
  lemma EndLog(db: Db, active: Option<Activation>, fk: FileKey, want: Op, landed: bool, now: Time)
    requires Inv(db, active) && End(db, active, fk, want, landed, now).Success?
    ensures var after := End(db, active, fk, want, landed, now).value.db;
            after.downloads == db.downloads + (if landed then StagedAttempts(db, fk) else Undelivered(StagedAttempts(db, fk)))
    ensures var log, staged := End(db, active, fk, want, landed, now).value.db.downloads, StagedAttempts(db, fk);
            && |log| == |db.downloads| + |staged|
            && (forall i | 0 <= i < |staged| :: log[|db.downloads| + i] == staged[i].(delivered := landed && staged[i].delivered))
  {
    hide Inv, Land, Recompute;
    if !landed {
      UnlandedLog(db, active, fk, want, now);
    } else if fk in db.intents {
      LandedLog(db, active, fk, want, now);
    }
  }

  lemma EndAccounts(s: State, fk: FileKey, op: Op, landed: bool, now: Time)
    requires Inv(s.db, s.active) && End(s.db, s.active, fk, op, landed, now).Success?
    ensures Accounted(End(s.db, s.active, fk, op, landed, now).value.db) == Accounted(s.db)
  {
    hide Inv, End, Undelivered, Pending;
    var after := End(s.db, s.active, fk, op, landed, now).value.db;
    EndLog(s.db, s.active, fk, op, landed, now);
    EndInstances(s.db, s.active, fk, op, landed, now);
    if fk in s.db.intents {
      PendingTake(s.db.intents, fk);
      if s.db.intents[fk].Delivery? {
        var staged := s.db.intents[fk].attempts;
        StrippedTwice(staged);
        StrippedJoin(s.db.downloads, if landed then staged else Undelivered(staged));
      } else {
        UndeliveredNone();
        assert after.downloads == s.db.downloads;
      }
    } else {
      UndeliveredNone();
      assert after.downloads == s.db.downloads;
      assert s.db.intents - {fk} == s.db.intents;
    }
  }

  lemma UndeliveredNone()
    ensures Undelivered([]) == []
  {
  }

  lemma ProbeLog(s: State, c: Call, now: Time)
    requires (c.Probe? || c.ListFiles? || c.Lock? || c.Reopen? || c.OpenAPass?) && Effect(s, c, now).Success?
    ensures Effect(s, c, now).value.downloads == s.db.downloads
  {
    hide PutEmbedded, PutExternal, SetLock, BeginPass;
    match c
    case Probe(id, tracks) => ProbeFrame(s.db, s.active, id, tracks);
    case ListFiles(id, files) => ListFrame(s.db, s.active, id, files);
    case Lock(id, pair, locked) => LockFrame(s.db, s.active, id, pair, locked, now);
    case Reopen =>
    case OpenAPass(src, scope) => OpenFrame(s.db, s.active, src, scope);
  }

  lemma PinsAccount(db: Db, db1: Db)
    requires PinsKept(db, db1)
    ensures Accounted(db1) == Accounted(db)
  {
  }

  /** No call loses or repeats an attempt: what is logged or pending grows by
      exactly what the call hands over. */
  lemma StepAccounts(s: State, c: Call, now: Time)
    requires Inv(s.db, s.active)
    ensures Accounted(Step(s, c, now).db) == Accounted(s.db) + HandedOver(s, c, now)
  {
    hide Inv, ObserveItems, FinishPass, Activate, End, PinsKept, Accounted, Undelivered, Pending, StagedBy;
    var s1 := Step(s, c, now);
    if Effect(s, c, now).Success? {
      match c
      case Report(src, pass, root, items) =>
        ReportActive(s, src, pass, now, root, items);
        ObserveItemsHeld(s.db, s.active.value, src, pass, now, root, items);
        PinsAccount(s.db, s1.db);
      case CloseAPass(src, pass, complete, keep) =>
        PassPins(s.db, s.active, src, pass, complete, keep, now);
        PinsAccount(s.db, s1.db);
      case Configure(policy, sources, codecs) =>
        ActivateHeld(s.db, s.active, Normalize(policy, sources, codecs).value, now);
        PinsAccount(s.db, s1.db);
      case BeginWrite(fk, it) =>
        BeginAccounts(s.db, fk, it);
      case EndWrite(fk, op, landed) =>
        EndAccounts(s, fk, op, landed, now);
      case LogAttempts(attempts) =>
        LogAccounts(s.db, attempts);
      case _ =>
        ProbeInstances(s, c, now);
        ProbeLog(s, c, now);
        SameAccounts(s.db, s1.db);
    }
  }

  lemma SameAccounts(db: Db, db1: Db)
    requires db1.downloads == db.downloads && db1.intents == db.intents
    ensures Accounted(db1) == Accounted(db)
  {
  }

  lemma BeginAccounts(db: Db, fk: FileKey, it: Intent)
    requires Begin(db, fk, it).Success?
    ensures Accounted(Begin(db, fk, it).value) == Accounted(db) + StagedBy(it)
  {
    hide Undelivered, Pending, StagedBy;
    PendingPut(db.intents, fk, it);
  }

  lemma LogAccounts(db: Db, attempts: seq<Download>)
    requires RecordAttempts(db, attempts).Success?
    ensures Accounted(RecordAttempts(db, attempts).value) == Accounted(db) + multiset(Stripped(attempts))
  {
    hide Undelivered, Pending;
    StrippedJoin(db.downloads, attempts);
  }

  ghost function AllHandedOver(s: State, cs: seq<Call>, clock: nat -> Time): multiset<Download> {
    if cs == [] then multiset{}
    else AllHandedOver(s, cs[..|cs| - 1], clock) + HandedOver(Run(s, cs[..|cs| - 1], clock), cs[|cs| - 1], clock(|cs| - 1))
  }

  /** Over a whole run of a new store, with Ends repeated at will, the log
      holds each attempt handed over exactly once, but for those of the writes
      still pending. */
  lemma {:induction false} RunAccounts(s: State, cs: seq<Call>, clock: nat -> Time, books: nat -> (nat -> Policy))
    requires Good(s, books(0)) && Booked(books, cs)
    ensures Accounted(Run(s, cs, clock).db) == Accounted(s.db) + AllHandedOver(s, cs, clock)
  {
    hide Inv, Step, Accounted, HandedOver;
    if cs != [] {
      BookedInit(books, cs, |cs| - 1);
      RunAccounts(s, cs[..|cs| - 1], clock, books);
      RunKeeps(s, cs[..|cs| - 1], clock, books);
      StepAccounts(Run(s, cs[..|cs| - 1], clock), cs[|cs| - 1], clock(|cs| - 1));
    }
  }

  lemma LogOnce(cs: seq<Call>, clock: nat -> Time, books: nat -> (nat -> Policy))
    requires Booked(books, cs)
    ensures var s := State(EmptyDb(), None);
            var db := Run(s, cs, clock).db;
            multiset(Stripped(db.downloads)) + Pending(db.intents) == AllHandedOver(s, cs, clock)
  {
    hide Run, Step, AllHandedOver, Good;
    EmptyGood(books(0));
    RunAccounts(State(EmptyDb(), None), cs, clock, books);
  }

  /* ---------- What an End writes ---------- */

  lemma {:induction false} RemoveFilesOther(c: Commit, fk: FileKey, names: seq<string>)
    ensures fk in RemoveFiles(c, fk, names).db.files <==> fk in c.db.files
    ensures fk in c.db.files ==> RemoveFiles(c, fk, names).db.files[fk] == c.db.files[fk]
  {
    if names != [] {
      RemoveFilesOther(c, fk, names[..|names| - 1]);
    }
  }

  /** A landed delivery or retime leaves its record one generation above the
      stored one, though the delivery may name it for removal; a landed
      removal leaves none. */
  lemma LandedGeneration(db: Db, active: Option<Activation>, fk: FileKey, want: Op, now: Time)
    requires Inv(db, active) && fk in db.intents && End(db, active, fk, want, true, now).Success?
    ensures var after := End(db, active, fk, want, true, now).value.db;
            match db.intents[fk]
            case Removal(_) => fk !in after.files
            case Delivery(record, _, _, _) => fk in after.files && after.files[fk] == record.(generation := Generation(db, fk) + 1)
            case Retiming(record, _) => fk in after.files && after.files[fk] == record.(generation := Generation(db, fk) + 1)
  {
    hide Inv, Recompute, ItemsOf, Locking, AdoptedLocks, RemoveFiles;
    var it := db.intents[fk];
    var db1 := db.(intents := db.intents - {fk});
    var c := Land(db1, active.value, fk, it, now);
    RecomputeFrame(c.db, active.value, ItemsOf(c.db, fk.inst), true);
    if it.Delivery? {
      var db2 := PutRecord(db1, fk, it.record, Some(it.baseline));
      var db3 := db2.(locks := Locking(db2.locks, DeliveredLocks(it.record, it.attempts), now), downloads := db2.downloads + it.attempts);
      RemoveFilesOther(Commit(db3, {}), fk, it.removes);
    }
  }

  /** An End that did not land moves nothing but its intent and the log. */
  lemma UnlandedMovesNothing(db: Db, active: Option<Activation>, fk: FileKey, want: Op, now: Time)
    requires End(db, active, fk, want, false, now).Success?
    ensures var c := End(db, active, fk, want, false, now).value;
            c.db == db.(intents := db.intents - {fk}, downloads := c.db.downloads) && c.written == {}
  {
    hide Undelivered, Landed;
    if fk !in db.intents {
      assert db.intents - {fk} == db.intents;
    }
  }
}
