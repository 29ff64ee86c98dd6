/** Every run of the store: any calls, in any order, refused or not. */
module Runs {
  import opened Wrappers
  import opened Languages
  import opened Tables
  import opened Claims
  import opened Settlement
  import opened Passes
  import opened Activations
  import opened Intents
  import opened Inventory
  import opened SettlementKeeps
  import opened ObserveKeeps
  import opened PassesKeep
  import opened ActivationsKeep
  import opened IntentsKeep

  /** One call on the store; Reopen is a restart, after which no activation is
      in force until the next Activate. */
  datatype Call =
    | OpenAPass(src: SourceId, scope: Option<seq<NativeRef>>)
    | Report(src: SourceId, pass: PassId, root: Root, items: seq<Item>)
    | CloseAPass(src: SourceId, pass: PassId, complete: bool, keep: Option<seq<NativeRef>>)
    | Configure(policy: Policy, sources: seq<SourceId>, codecs: seq<string>)
    | BeginWrite(fk: FileKey, it: Intent)
    | EndWrite(fk: FileKey, op: Op, landed: bool)
    | Probe(id: InstId, tracks: seq<Track>)
    | ListFiles(id: InstId, files: seq<LocalFile>)
    | Lock(id: InstId, pair: Pair, locked: bool)
    | LogAttempts(attempts: seq<Download>)
    | Reopen

  datatype State = State(db: Db, active: Option<Activation>)

  ghost function ObsDb(r: Result<Obs, StoreError>): Result<Db, StoreError> {
    match r case Success(o) => Success(o.db) case Failure(e) => Failure(e)
  }

  ghost function CommitDb(r: Result<Commit, StoreError>): Result<Db, StoreError> {
    match r case Success(c) => Success(c.db) case Failure(e) => Failure(e)
  }

  /** What a call writes, or why it writes nothing. */
  ghost function Effect(s: State, c: Call, now: Time): Result<Db, StoreError> {
    match c
    case OpenAPass(src, scope) =>
      (match BeginPass(s.db, s.active, src, scope) case Success(r) => Success(r.0) case Failure(e) => Failure(e))
    case Report(src, pass, root, items) => ObsDb(ObserveItems(s.db, s.active, src, pass, now, root, items))
    case CloseAPass(src, pass, complete, keep) => ObsDb(FinishPass(s.db, s.active, src, pass, complete, keep, now))
    case Configure(policy, sources, codecs) =>
      var next :- Normalize(policy, sources, codecs);
      Activate(s.db, s.active, next, now)
    case BeginWrite(fk, it) => Begin(s.db, fk, it)
    case EndWrite(fk, op, landed) => CommitDb(End(s.db, s.active, fk, op, landed, now))
    case Probe(id, tracks) => PutEmbedded(s.db, s.active, id, tracks)
    case ListFiles(id, files) => PutExternal(s.db, s.active, id, files)
    case Lock(id, pair, locked) => SetLock(s.db, s.active, id, pair, locked, now)
    case LogAttempts(attempts) => RecordAttempts(s.db, attempts)
    case Reopen => Success(s.db)
  }

  /** The activation in force after a call that committed. */
  function Activated(s: State, c: Call): Option<Activation> {
    match c
    case Configure(policy, sources, codecs) => Some(Activation(policy, set x | x in sources, set x | x in codecs))
    case Reopen => None
    case _ => s.active
  }

  /** A call commits whole, or changes nothing. */
  ghost function Step(s: State, c: Call, now: Time): State {
    var r := Effect(s, c, now);
    if r.Success? then State(r.value, Activated(s, c)) else s
  }

  ghost function Run(s: State, cs: seq<Call>, clock: nat -> Time): State {
    if cs == [] then s else Step(Run(s, cs[..|cs| - 1], clock), cs[|cs| - 1], clock(|cs| - 1))
  }

  /** A digest names the policy a call installs, within one opening of the
      store. */
  ghost predicate ByBook(book: nat -> Policy, c: Call) {
    c.Configure? ==> c.policy == book(c.policy.digest)
  }

  /** How many times a run has reopened the store. */
  function Opens(cs: seq<Call>): nat {
    if cs == [] then 0 else Opens(cs[..|cs| - 1]) + (if cs[|cs| - 1].Reopen? then 1 else 0)
  }

  /** One book of policies for each opening: a restarted program may grade
      otherwise under the same digest. */
  ghost predicate Booked(books: nat -> (nat -> Policy), cs: seq<Call>) {
    forall i | 0 <= i < |cs| :: ByBook(books(Opens(cs[..i])), cs[i])
  }

  ghost predicate Good(s: State, book: nat -> Policy) {
    && Inv(s.db, s.active)
    && (s.active.Some? ==> s.active.value.policy == book(s.active.value.policy.digest))
  }

  /* ---------- The invariant ---------- */

  lemma BeginPassKeeps(db: Db, active: Option<Activation>, src: SourceId, scope: Option<seq<NativeRef>>)
    requires Inv(db, active) && BeginPass(db, active, src, scope).Success?
    ensures Inv(BeginPass(db, active, src, scope).value.0, active)
    ensures BeginPass(db, active, src, scope).value.1 == db.lastPass + 1
  {
    hide Linked, Owning, WellFormed, Named, Kept, Overlapping, Held, Staging, NonEmpty, NoStray, Current;
    var db1 := BeginPass(db, active, src, scope).value.0;
    CurrentOn(db, db1, active.value, {});
  }

  lemma ObserveItemsKeeps(db: Db, active: Option<Activation>, src: SourceId, pass: PassId, now: Time, root: Root, items: seq<Item>)
    requires Inv(db, active)
    ensures var r := ObserveItems(db, active, src, pass, now, root, items);
            && (r.Success? ==> Inv(r.value.db, active))
            && (r.Failure? ==> r.error in {BadReport, SourceInactive, PassUnknown} || r.error.PinnedInstance?)
  {
    hide Inv, Observe, Settle;
    if ValidReport(root, items) && OpenPass(db, active, src, pass).Success? {
      var o := Observe(Begun(db, src, pass, now), root, items);
      ObserveRefusal(Begun(db, src, pass, now), root, items);
      if o.Success? {
        ReportKeeps(db, active.value, src, pass, now, root, items);
        SettleKeeps(o.value, active.value);
      }
    }
  }

  lemma ObserveRefusal(o: Obs, root: Root, items: seq<Item>)
    ensures OnlyPins(o.db.intents, Observe(o, root, items))
  {
    hide ObserveAll;
    var rr := RootRef(o.src, root.native);
    ObserveAllRefusal(StampRoot(o, rr, root).(scene := Scenes(items)), rr, root, items);
  }

  lemma FinishPassKeeps(db: Db, active: Option<Activation>, src: SourceId, pass: PassId, complete: bool, keep: Option<seq<NativeRef>>, now: Time)
    requires Inv(db, active) && FinishPass(db, active, src, pass, complete, keep, now).Success?
    ensures Inv(FinishPass(db, active, src, pass, complete, keep, now).value.db, active)
  {
    hide CompletePass, Linked, Owning, WellFormed, Named, Kept, Stamped, Overlapping, Held, Staging, NonEmpty, NoStray, Current;
    var p := db.passes[src];
    var db1 := db.(passes := db.passes - {src});
    if complete {
      CompletePassKeeps(db, active.value, src, p, KeptRoots(keep), now);
    } else {
      CurrentOn(db, db1, active.value, {});
      StampedFewer(db, src);
    }
  }

  lemma StampedFewer(db: Db, src: SourceId)
    requires Stamped(db.sightings, db.stamps, db.roots, db.passes, db.lastPass)
    ensures Stamped(db.sightings, db.stamps, db.roots, db.passes - {src}, db.lastPass)
  {
  }

  lemma ReopenKeeps(db: Db, active: Option<Activation>)
    requires Inv(db, active)
    ensures Inv(db, None)
  {
  }

  /** Every call keeps the invariant, whatever it is given. */
  lemma StepKeeps(s: State, c: Call, now: Time, book: nat -> Policy)
    requires Good(s, book) && ByBook(book, c)
    ensures Good(Step(s, c, now), book)
  {
    hide Inv, ObserveItems, FinishPass, Activate, Begin, End, PutEmbedded, PutExternal, SetLock, RecordAttempts, BeginPass;
    if Effect(s, c, now).Success? {
      match c
      case OpenAPass(src, scope) => BeginPassKeeps(s.db, s.active, src, scope);
      case Report(src, pass, root, items) => ObserveItemsKeeps(s.db, s.active, src, pass, now, root, items);
      case CloseAPass(src, pass, complete, keep) => FinishPassKeeps(s.db, s.active, src, pass, complete, keep, now);
      case Configure(policy, sources, codecs) =>
        ActivateKeeps(s.db, s.active, Normalize(policy, sources, codecs).value, now);
      case BeginWrite(fk, it) => BeginKeeps(s.db, s.active, fk, it);
      case EndWrite(fk, op, landed) => EndKeeps(s.db, s.active, fk, op, landed, now);
      case Probe(id, tracks) => PutEmbeddedKeeps(s.db, s.active, id, tracks);
      case ListFiles(id, files) => PutExternalKeeps(s.db, s.active, id, files);
      case Lock(id, pair, locked) => SetLockKeeps(s.db, s.active, id, pair, locked, now);
      case LogAttempts(attempts) => RecordAttemptsKeeps(s.db, s.active, attempts);
      case Reopen => ReopenKeeps(s.db, s.active);
    }
  }

  lemma EmptyGood(book: nat -> Policy)
    ensures Good(State(EmptyDb(), None), book)
  {
  }

  /** Just after reopening, any book will do. */
  lemma ReopenGood(s: State, now: Time, book: nat -> Policy, next: nat -> Policy)
    requires Good(s, book)
    ensures Good(Step(s, Reopen, now), next)
  {
    hide Inv;
    ReopenKeeps(s.db, s.active);
  }

  lemma {:induction false} RunKeeps(s: State, cs: seq<Call>, clock: nat -> Time, books: nat -> (nat -> Policy))
    requires Good(s, books(0)) && Booked(books, cs)
    ensures Good(Run(s, cs, clock), books(Opens(cs)))
  {
    hide Good, Step;
    if cs != [] {
      var init, c := cs[..|cs| - 1], cs[|cs| - 1];
      assert forall i | 0 <= i < |init| :: init[i] == cs[i] && init[..i] == cs[..i];
      RunKeeps(s, init, clock, books);
      assert ByBook(books(Opens(init)), c);
      if c.Reopen? {
        ReopenGood(Run(s, init, clock), clock(|init|), books(Opens(init)), books(Opens(cs)));
      } else {
        StepKeeps(Run(s, init, clock), c, clock(|init|), books(Opens(init)));
      }
    }
  }

  lemma BookedInit(books: nat -> (nat -> Policy), cs: seq<Call>, n: nat)
    requires Booked(books, cs) && n <= |cs|
    ensures Booked(books, cs[..n])
  {
    assert forall i | 0 <= i < n :: cs[..n][i] == cs[i] && cs[..n][..i] == cs[..i];
  }

  /** Every state any run of a new store reaches keeps the whole invariant,
      though a reopened one may grade otherwise. */
  lemma ReachableSound(cs: seq<Call>, clock: nat -> Time, books: nat -> (nat -> Policy))
    requires Booked(books, cs)
    ensures var s := Run(State(EmptyDb(), None), cs, clock); Inv(s.db, s.active)
  {
    hide Inv, Run;
    EmptyGood(books(0));
    RunKeeps(State(EmptyDb(), None), cs, clock, books);
  }
}
