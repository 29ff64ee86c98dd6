/** Saving the settings and shutting down, over any interleaving of calls:
    who holds the save slot, and what the file and the live settings are. */
module SettingsService {
  /** One read of the settings file: missing, its bytes, or a failure. */
  datatype FileState = Absent | Holding(data: string) | Unknown

  predicate Same(a: FileState, b: FileState) {
    a != Unknown && b != Unknown && a == b
  }

  /** The save slot: free, held by a Save, or kept for good by a Shutdown. */
  datatype Slot = Free | Held(save: nat) | Kept(shutdown: nat)

  /** How far a Save has come; next is the file it would write. */
  datatype Stage =
    | Waiting
    | Taken
    | Locked
    | Checked(next: string)
    | Wrote(next: string)
    | Activated(next: string)
    | Stored(next: string)
    | Restoring
    | Leaving(committed: bool)
    | Answered(closed: bool)

  datatype Closing = Asked | Draining | Done(ok: bool)

  datatype State = State(
    slot: Slot, closing: bool, drained: bool, cancelled: bool,
    disk: FileState, seen: FileState, live: FileState, diverged: bool,
    saves: map<nat, Stage>, shutdowns: map<nat, Closing>, foreign: bool)

  /** A service over the file as loaded. */
  function Opened(file: FileState): State {
    State(Free, false, false, false, file, file, file, false, map[], map[], file == Unknown)
  }

  datatype Event =
    | CallSave(id: nat)
    | TakeSlot(id: nat)
    | GiveUp(id: nat)
    | CheckClosing(id: nat)
    | Refuse(id: nat)
    | CheckFile(id: nat, next: string)
    | Write(id: nat, ok: bool, moved: bool)
    | Activate(id: nat, ok: bool)
    | StoreSeen(id: nat)
    | StoreLive(id: nat)
    | Restore(id: nat, ok: bool, left: FileState, read: bool)
    | Unlock(id: nat)
    | CallShutdown(id: nat)
    | TakeForGood(id: nat)
    | MarkDrained(id: nat)
    | SeeDrained(id: nat)
    | Expire(id: nat)
    | Edit(file: FileState)

  predicate At(s: State, id: nat, st: Stage) {
    id in s.saves && s.saves[id] == st
  }

  function Put(s: State, id: nat, st: Stage): State {
    s.(saves := s.saves[id := st])
  }

  /** One step; one that cannot be taken changes nothing. */
  function Step(s: State, e: Event): State {
    match e
    case CallSave(id) => if id in s.saves then s else Put(s, id, Waiting)
    case TakeSlot(id) => if At(s, id, Waiting) && s.slot == Free then Put(s, id, Taken).(slot := Held(id)) else s
    case GiveUp(id) => if At(s, id, Waiting) then Put(s, id, Answered(s.closing)) else s
    case CheckClosing(id) =>
      if !At(s, id, Taken) then s
      else if s.closing then Put(s, id, Answered(true)).(slot := Free)
      else Put(s, id, Locked)
    case Refuse(id) => if id in s.saves && (s.saves[id].Locked? || s.saves[id].Checked?) then Put(s, id, Leaving(false)) else s
    case CheckFile(id, next) =>
      if !At(s, id, Locked) then s
      else if !Same(s.disk, s.seen) then Put(s, id, Leaving(false))
      else Put(s, id, Checked(next)).(foreign := false)
    case Write(id, ok, moved) =>
      if id !in s.saves || !s.saves[id].Checked? then s
      else if ok then Put(s, id, Wrote(s.saves[id].next)).(disk := Holding(s.saves[id].next), foreign := false)
      else if moved then Put(s, id, Leaving(false)).(disk := Holding(s.saves[id].next), foreign := true)
      else Put(s, id, Leaving(false))
    case Activate(id, ok) =>
      if id !in s.saves || !s.saves[id].Wrote? then s
      else if ok then Put(s, id, Activated(s.saves[id].next)) else Put(s, id, Restoring)
    case StoreSeen(id) =>
      if id !in s.saves || !s.saves[id].Activated? then s
      else Put(s, id, Stored(s.saves[id].next)).(seen := Holding(s.saves[id].next))
    case StoreLive(id) =>
      if id !in s.saves || !s.saves[id].Stored? then s
      else Put(s, id, Leaving(true)).(live := Holding(s.saves[id].next), diverged := false)
    case Restore(id, ok, left, read) =>
      if !At(s, id, Restoring) then s
      else if ok then Put(s, id, Leaving(false)).(disk := s.seen, foreign := false)
      else Put(s, id, Leaving(false)).(disk := left, seen := if read then left else Unknown, diverged := true, foreign := false)
    case Unlock(id) =>
      if id in s.saves && s.saves[id].Leaving? then Put(s, id, Answered(false)).(slot := Free) else s
    case CallShutdown(id) => if id in s.shutdowns then s else s.(closing := true, shutdowns := s.shutdowns[id := Asked])
    case TakeForGood(id) =>
      if id in s.shutdowns && s.shutdowns[id] == Asked && s.slot == Free
      then s.(slot := Kept(id), shutdowns := s.shutdowns[id := Draining]) else s
    case MarkDrained(id) =>
      if id in s.shutdowns && s.shutdowns[id] == Draining then s.(drained := true, shutdowns := s.shutdowns[id := Done(true)]) else s
    case SeeDrained(id) =>
      if id in s.shutdowns && s.shutdowns[id] == Asked && s.drained then s.(shutdowns := s.shutdowns[id := Done(true)]) else s
    case Expire(id) =>
      if id in s.shutdowns && s.shutdowns[id] == Asked then s.(cancelled := true, shutdowns := s.shutdowns[id := Done(false)]) else s
    case Edit(file) => s.(disk := file, foreign := true)
  }

  function Run(s: State, es: seq<Event>): State {
    if es == [] then s else Step(Run(s, es[..|es| - 1]), es[|es| - 1])
  }

  /* ---------- The invariant ---------- */

  predicate Holds(st: Stage) {
    !st.Waiting? && !st.Answered?
  }

  /** Who is past the slot holds it, and no other call does. */
  ghost predicate Exclusive(s: State) {
    && (forall id | id in s.saves && Holds(s.saves[id]) :: s.slot == Held(id))
    && (s.slot.Held? ==> s.slot.save in s.saves && Holds(s.saves[s.slot.save]))
    && (forall id | id in s.shutdowns && s.shutdowns[id] == Draining :: s.slot == Kept(id))
    && (s.slot.Kept? ==> s.slot.shutdown in s.shutdowns && (s.shutdowns[s.slot.shutdown] == Draining || s.drained))
    && (s.drained ==> s.slot.Kept?)
    && (forall id | id in s.shutdowns && s.shutdowns[id] == Done(true) :: s.drained)
    && (s.shutdowns != map[] ==> s.closing)
  }

  /** How far the Save holding the slot has come. */
  function Holder(s: State): Stage {
    if s.slot.Held? && s.slot.save in s.saves then s.saves[s.slot.save] else Waiting
  }

  /** The file last read or written is the live settings', unless diverged;
      and is what is on disk, unless someone else changed it. */
  ghost predicate Agreeing(s: State) {
    var st := Holder(s);
    && (!s.diverged && !st.Stored? ==> s.seen == s.live)
    && (st.Stored? ==> s.seen == Holding(st.next))
    && (!s.foreign ==>
          if st.Wrote? || st.Activated? || st.Stored? then s.disk == Holding(st.next)
          else st.Restoring? || s.seen == Unknown || s.disk == s.seen)
  }

  ghost predicate Good(s: State) {
    Exclusive(s) && Agreeing(s)
  }

  lemma OpenedGood(file: FileState)
    ensures Good(Opened(file))
  {
  }

  /** The Save holding the slot, at another stage that holds it. */
  lemma HeldOn(s: State, id: nat, s1: State)
    requires Exclusive(s) && id in s.saves && Holds(s.saves[id]) && id in s1.saves && Holds(s1.saves[id])
    requires s1 == s.(saves := s.saves[id := s1.saves[id]], disk := s1.disk, seen := s1.seen, live := s1.live, diverged := s1.diverged, foreign := s1.foreign)
    ensures Exclusive(s1) && Holder(s1) == s1.saves[id] && Holder(s) == s.saves[id]
  {
  }

  /** The Save holding the slot gives it back. */
  lemma GivenBack(s: State, id: nat, closed: bool)
    requires Exclusive(s) && id in s.saves && Holds(s.saves[id])
    ensures var s1 := Put(s, id, Answered(closed)).(slot := Free); Exclusive(s1) && Holder(s1) == Waiting && Holder(s) == s.saves[id]
  {
  }

  lemma CheckClosingKeeps(s: State, id: nat)
    requires Good(s)
    ensures Good(Step(s, CheckClosing(id)))
  {
    hide Exclusive;
    if At(s, id, Taken) {
      if s.closing {
        GivenBack(s, id, true);
      } else {
        HeldOn(s, id, Put(s, id, Locked));
      }
    }
  }

  lemma RefuseKeeps(s: State, id: nat)
    requires Good(s)
    ensures Good(Step(s, Refuse(id)))
  {
    hide Exclusive;
    if id in s.saves && (s.saves[id].Locked? || s.saves[id].Checked?) {
      HeldOn(s, id, Step(s, Refuse(id)));
    }
  }

  lemma CheckFileKeeps(s: State, id: nat, next: string)
    requires Good(s)
    ensures Good(Step(s, CheckFile(id, next)))
  {
    hide Exclusive;
    if At(s, id, Locked) {
      HeldOn(s, id, Step(s, CheckFile(id, next)));
    }
  }

  lemma WriteKeeps(s: State, id: nat, ok: bool, moved: bool)
    requires Good(s)
    ensures Good(Step(s, Write(id, ok, moved)))
  {
    hide Exclusive;
    if id in s.saves && s.saves[id].Checked? {
      HeldOn(s, id, Step(s, Write(id, ok, moved)));
    }
  }

  lemma ActivateKeeps(s: State, id: nat, ok: bool)
    requires Good(s)
    ensures Good(Step(s, Activate(id, ok)))
  {
    hide Exclusive;
    if id in s.saves && s.saves[id].Wrote? {
      HeldOn(s, id, Step(s, Activate(id, ok)));
    }
  }

  lemma StoreSeenKeeps(s: State, id: nat)
    requires Good(s)
    ensures Good(Step(s, StoreSeen(id)))
  {
    hide Exclusive;
    if id in s.saves && s.saves[id].Activated? {
      HeldOn(s, id, Step(s, StoreSeen(id)));
    }
  }

  lemma StoreLiveKeeps(s: State, id: nat)
    requires Good(s)
    ensures Good(Step(s, StoreLive(id)))
  {
    hide Exclusive;
    if id in s.saves && s.saves[id].Stored? {
      HeldOn(s, id, Step(s, StoreLive(id)));
    }
  }

  lemma RestoreKeeps(s: State, id: nat, ok: bool, left: FileState, read: bool)
    requires Good(s)
    ensures Good(Step(s, Restore(id, ok, left, read)))
  {
    hide Exclusive;
    if At(s, id, Restoring) {
      HeldOn(s, id, Step(s, Restore(id, ok, left, read)));
    }
  }

  lemma UnlockKeeps(s: State, id: nat)
    requires Good(s)
    ensures Good(Step(s, Unlock(id)))
  {
    hide Exclusive;
    if id in s.saves && s.saves[id].Leaving? {
      GivenBack(s, id, false);
    }
  }

  lemma CallSaveKeeps(s: State, id: nat)
    requires Good(s)
    ensures Good(Step(s, CallSave(id)))
  {
  }

  lemma TakeSlotKeeps(s: State, id: nat)
    requires Good(s)
    ensures Good(Step(s, TakeSlot(id)))
  {
  }

  lemma GiveUpKeeps(s: State, id: nat)
    requires Good(s)
    ensures Good(Step(s, GiveUp(id)))
  {
  }

  lemma EditKeeps(s: State, file: FileState)
    requires Good(s)
    ensures Good(Step(s, Edit(file)))
  {
  }

  lemma CallShutdownKeeps(s: State, id: nat)
    requires Good(s)
    ensures Good(Step(s, CallShutdown(id)))
  {
  }

  lemma TakeForGoodKeeps(s: State, id: nat)
    requires Good(s)
    ensures Good(Step(s, TakeForGood(id)))
  {
  }

  lemma SeeDrainedKeeps(s: State, id: nat)
    requires Good(s)
    ensures Good(Step(s, SeeDrained(id)))
  {
  }

  lemma ExpireKeeps(s: State, id: nat)
    requires Good(s)
    ensures Good(Step(s, Expire(id)))
  {
  }

  lemma MarkDrainedKeeps(s: State, id: nat)
    requires Good(s)
    ensures Good(Step(s, MarkDrained(id)))
  {
    if id in s.shutdowns && s.shutdowns[id] == Draining {
      assert s.slot == Kept(id);
    }
  }

  lemma StepKeeps(s: State, e: Event)
    requires Good(s)
    ensures Good(Step(s, e))
  {
    hide Good, Step;
    match e
    case CallSave(id) => CallSaveKeeps(s, id);
    case TakeSlot(id) => TakeSlotKeeps(s, id);
    case GiveUp(id) => GiveUpKeeps(s, id);
    case Edit(file) => EditKeeps(s, file);
    case CheckClosing(id) => CheckClosingKeeps(s, id);
    case Refuse(id) => RefuseKeeps(s, id);
    case CheckFile(id, next) => CheckFileKeeps(s, id, next);
    case Write(id, ok, moved) => WriteKeeps(s, id, ok, moved);
    case Activate(id, ok) => ActivateKeeps(s, id, ok);
    case StoreSeen(id) => StoreSeenKeeps(s, id);
    case StoreLive(id) => StoreLiveKeeps(s, id);
    case Restore(id, ok, left, read) => RestoreKeeps(s, id, ok, left, read);
    case Unlock(id) => UnlockKeeps(s, id);
    case CallShutdown(id) => CallShutdownKeeps(s, id);
    case TakeForGood(id) => TakeForGoodKeeps(s, id);
    case MarkDrained(id) => MarkDrainedKeeps(s, id);
    case SeeDrained(id) => SeeDrainedKeeps(s, id);
    case Expire(id) => ExpireKeeps(s, id);
  }

  lemma {:induction false} RunKeeps(s: State, es: seq<Event>)
    requires Good(s)
    ensures Good(Run(s, es))
  {
    hide Good, Step;
    if es != [] {
      RunKeeps(s, es[..|es| - 1]);
      StepKeeps(Run(s, es[..|es| - 1]), es[|es| - 1]);
    }
  }

  /* ---------- What follows ---------- */

  /** At most one Save is ever past the slot. */
  lemma OneSave(file: FileState, es: seq<Event>, a: nat, b: nat)
    ensures var s := Run(Opened(file), es);
            a in s.saves && b in s.saves && Holds(s.saves[a]) && Holds(s.saves[b]) ==> a == b
  {
    OpenedGood(file);
    RunKeeps(Opened(file), es);
  }

  ghost predicate ShutDown(s: State) {
    exists id :: id in s.shutdowns && s.shutdowns[id] == Done(true)
  }

  /** Whether an event is a Save's own, and not one that only begins it or
      gives up waiting. */
  predicate BySave(e: Event) {
    e.TakeSlot? || e.CheckClosing? || e.Refuse? || e.CheckFile? || e.Write? || e.Activate? || e.StoreSeen? || e.StoreLive? || e.Restore? || e.Unlock?
  }

  /** Once a Shutdown has answered nil no Save holds the slot, none can take
      it, and no step of one changes anything. */
  lemma ShutForGood(s: State, e: Event)
    requires Good(s) && ShutDown(s)
    ensures s.slot.Kept? && Step(s, e).slot == s.slot
    ensures forall id | id in s.saves :: !Holds(s.saves[id])
    ensures BySave(e) ==> Step(s, e) == s
    ensures !e.Edit? ==> Step(s, e).disk == s.disk
    ensures ShutDown(Step(s, e))
  {
    var id :| id in s.shutdowns && s.shutdowns[id] == Done(true);
    assert s.drained;
    assert id in Step(s, e).shutdowns && Step(s, e).shutdowns[id] == Done(true);
  }

  /** Only edits by others touch the file after that, over any run. */
  lemma {:induction false} NoWriteAfter(s: State, es: seq<Event>)
    requires Good(s) && ShutDown(s) && forall i | 0 <= i < |es| :: !es[i].Edit?
    ensures var s1 := Run(s, es); Good(s1) && ShutDown(s1) && s1.disk == s.disk && s1.live == s.live && s1.seen == s.seen
  {
    hide Good, Step, ShutDown;
    if es != [] {
      var init := es[..|es| - 1];
      NoWriteAfter(s, init);
      StepKeeps(Run(s, init), es[|es| - 1]);
      ShutForGood(Run(s, init), es[|es| - 1]);
      ShutLive(Run(s, init), es[|es| - 1]);
    }
  }

  lemma ShutLive(s: State, e: Event)
    requires Good(s) && ShutDown(s)
    ensures Step(s, e).live == s.live && Step(s, e).seen == s.seen
  {
    if BySave(e) {
      ShutForGood(s, e);
    }
  }

  /** Whenever a Save gives the slot back, on finding the service closing or at
      its end, the file last read or written is the live settings' file unless a
      failed restore left them apart; and it is what is on disk, when no one
      else changed it and it could be read. */
  lemma AgreedAtRelease(file: FileState, es: seq<Event>, e: Event)
    ensures var s := Run(Opened(file), es);
            var s1 := Step(s, e);
            s.slot.Held? && s1.slot != s.slot ==>
              && s1.slot == Free && (e == CheckClosing(s.slot.save) || e == Unlock(s.slot.save))
              && (!s1.diverged ==> s1.seen == s1.live)
              && (!s1.foreign && s1.seen != Unknown ==> s1.disk == s1.seen)
  {
    var s := Run(Opened(file), es);
    OpenedGood(file);
    RunKeeps(Opened(file), es);
    StepKeeps(s, e);
    if s.slot.Held? && Step(s, e).slot != s.slot {
      ReleaseIs(s, e);
    }
  }

  lemma ReleaseIs(s: State, e: Event)
    requires Exclusive(s) && s.slot.Held? && Step(s, e).slot != s.slot
    ensures Step(s, e).slot == Free && (e == CheckClosing(s.slot.save) || e == Unlock(s.slot.save))
  {
    match e
    case CheckClosing(id) => HolderIs(s, id);
    case Unlock(id) => HolderIs(s, id);
    case _ => hide Exclusive;
  }

  lemma HolderIs(s: State, id: nat)
    requires Exclusive(s) && id in s.saves && Holds(s.saves[id])
    ensures s.slot == Held(id)
  {
  }

  /** A committed Save leaves its own file on disk, live and not diverged,
      whatever any earlier one left. */
  lemma CommitAgrees(s: State, id: nat)
    requires Good(s) && id in s.saves && s.saves[id].Stored?
    ensures var s1 := Step(s, StoreLive(id));
            s1.live == Holding(s.saves[id].next) && s1.seen == s1.live && !s1.diverged && (!s.foreign ==> s1.disk == s1.live)
  {
    assert Holder(s) == s.saves[id];
  }

  /* ---------- One Save's commit ---------- */

  /** What the file system and the activation did for one commit. */
  datatype Luck = Luck(write: bool, moved: bool, activate: bool, restore: bool, left: FileState, read: bool)

  class Service {
    var disk: FileState
    var seen: FileState
    var live: FileState
    var diverged: bool

    constructor (file: FileState)
      ensures disk == seen == live == file && !diverged
    {
      disk, seen, live, diverged := file, file, file, false;
    }

    /** Undoes a write whose activation failed. If the file cannot be undone,
        what it now holds is noted, and the service has diverged. */
    method Restore(luck: Luck)
      modifies this`disk, this`seen, this`diverged
      ensures luck.restore ==> disk == old(seen) && seen == old(seen) && diverged == old(diverged)
      ensures !luck.restore ==> disk == luck.left && diverged && seen == if luck.read then disk else Unknown
    {
      if luck.restore {
        disk := seen;
        return;
      }
      disk := luck.left;
      seen := if luck.read then disk else Unknown;
      diverged := true;
    }

    /** The file, the activation and the live settings change in that order, or
        a failure on the way is repaired. */
    method Commit(next: string, luck: Luck) returns (committed: bool)
      requires !diverged ==> seen == live
      modifies this
      ensures !diverged ==> seen == live
      ensures committed <==> luck.write && luck.activate
      ensures committed ==> disk == live == Holding(next) && !diverged
      ensures !committed ==> live == old(live)
      ensures !committed && luck.write && luck.restore ==> disk == old(seen) && seen == old(seen) && diverged == old(diverged)
      ensures !committed && luck.write && !luck.restore ==> diverged
      ensures !luck.write ==> seen == old(seen) && diverged == old(diverged)
    {
      if !luck.write {
        if luck.moved {
          disk := Holding(next);
        }
        return false;
      }
      disk := Holding(next);
      if !luck.activate {
        Restore(luck);
        return false;
      }
      seen := Holding(next);
      live := Holding(next);
      diverged := false;
      committed := true;
    }
  }
}
