/** Jobs in the process's memory: what each locked section does to them. */
module JobStates {
  import opened Wrappers

  /** The ids Begin assigns: 32 hex digits, which order as numbers. */
  type JobId = nat
  type Time = int

  datatype JobState = Queued | Running | Done
  datatype Outcome = NoOutcome | Succeeded | Failed | Cancelled | Partial | Interrupted

  /** A job as observers and the persister see it; facts stands for what no
      rule here reads. */
  datatype Job = Job(id: JobId, rev: nat, state: JobState, outcome: Outcome, ended: Time, owner: int, cancellable: bool, facts: string)

  /** Until its end is stored, an ended job is not durable. */
  datatype Live = Live(job: Job, stop: bool, durable: bool, saving: bool, attempts: nat)

  datatype Memory = Memory(live: map<JobId, Live>, unsaved: set<JobId>, mutations: nat)

  const LIVE_MAX_DONE := 50
  const LIVE_MAX_AGE: Time := 15 * 60 * 1_000_000_000

  /* ---------- Changes ---------- */

  /** What a caller's change of a job keeps of it: only what callers may
      change changes, and an end has an outcome. */
  function Changed(prev: Job, asked: Job, stop: bool, now: Time): Job {
    var done := asked.state == Done;
    prev.(rev := prev.rev + 1, state := asked.state,
          outcome := if !done then NoOutcome else if asked.outcome == NoOutcome then Failed else asked.outcome,
          ended := if done then now else 0,
          cancellable := stop && !done, facts := asked.facts)
  }

  /** An update of a live job that has not ended; an end is not yet stored. */
  function Updated(m: Memory, id: JobId, change: Job -> Job, now: Time): Memory {
    if id !in m.live || m.live[id].job.state == Done then m
    else
      var l := m.live[id];
      var next := Changed(l.job, change(l.job), l.stop, now);
      if next.state == Done
      then m.(live := m.live[id := Live(next, false, false, l.saving, 0)], unsaved := m.unsaved + {id}, mutations := m.mutations + 1)
      else m.(live := m.live[id := l.(job := next)], mutations := m.mutations + 1)
  }

  predicate Savable(m: Memory, id: JobId) {
    id in m.live && !m.live[id].durable && !m.live[id].saving
  }

  /** One more attempt to store a job's end, at a revision no earlier attempt
      used. */
  function Saving(m: Memory, id: JobId): Memory
    requires Savable(m, id)
  {
    var l := m.live[id];
    var again := l.attempts > 0;
    var job := if again then l.job.(rev := l.job.rev + 1) else l.job;
    m.(live := m.live[id := Live(job, l.stop, l.durable, true, l.attempts + 1)], mutations := if again then m.mutations + 1 else m.mutations)
  }

  /** A save reported failure. */
  function Unsaved(m: Memory, id: JobId): Memory
    requires id in m.live
  {
    m.(live := m.live[id := m.live[id].(saving := false)])
  }

  /** A save reported success. */
  function Saved(m: Memory, id: JobId, now: Time): Memory
    requires id in m.live
  {
    Evicted(m.(live := m.live[id := m.live[id].(saving := false, durable := true)], unsaved := m.unsaved - {id}), now)
  }

  /* ---------- Retention ---------- */

  predicate Evictable(l: Live) {
    l.job.state == Done && l.durable
  }

  function EvictableIds(live: map<JobId, Live>): set<JobId> {
    set id | id in live && Evictable(live[id])
  }

  /** The order jobs ended in, ids breaking ties. */
  predicate EndedBefore(live: map<JobId, Live>, a: JobId, b: JobId)
    requires a in live && b in live
  {
    live[a].job.ended < live[b].job.ended || (live[a].job.ended == live[b].job.ended && a < b)
  }

  /** Those of ids that ended no earlier than id. */
  function NoEarlier(live: map<JobId, Live>, id: JobId): set<JobId>
    requires id in live
  {
    set x | x in EvictableIds(live) && !EndedBefore(live, x, id)
  }

  /** An ended, stored job leaves once it is old, or once more than the bound
      ended no earlier. */
  predicate Leaves(live: map<JobId, Live>, id: JobId, now: Time) {
    id in live && Evictable(live[id]) && (now - live[id].job.ended >= LIVE_MAX_AGE || |NoEarlier(live, id)| > LIVE_MAX_DONE)
  }

  function Leaving(live: map<JobId, Live>, now: Time): set<JobId> {
    set id | id in live && Leaves(live, id, now)
  }

  function Evicted(m: Memory, now: Time): Memory {
    var gone := Leaving(m.live, now);
    if gone == {} then m else m.(live := m.live - gone, mutations := m.mutations + 1)
  }

  /* ---------- The store ---------- */

  ghost predicate InOrder(live: map<JobId, Live>, s: seq<JobId>) {
    && (forall i | 0 <= i < |s| :: s[i] in live)
    && (forall i, j | 0 <= i < j < |s| :: EndedBefore(live, s[i], s[j]))
  }

  lemma {:induction false} FirstEnded(live: map<JobId, Live>, ids: set<JobId>) returns (f: JobId)
    requires ids != {} && ids <= live.Keys
    ensures f in ids && forall x | x in ids :: x == f || EndedBefore(live, f, x)
    decreases |ids|
  {
    f :| f in ids;
    var rest := ids - {f};
    if rest != {} {
      var g := FirstEnded(live, rest);
      if EndedBefore(live, g, f) {
        f := g;
      } else {
        forall x | x in ids
          ensures x == f || EndedBefore(live, f, x)
        {
          assert x != f ==> x in rest;
        }
      }
    }
  }

  /** Jobs in order are distinct. */
  lemma SameRank(live: map<JobId, Live>, s: seq<JobId>, i: nat, j: nat)
    requires InOrder(live, s) && i < |s| && j < |s| && s[i] == s[j]
    ensures i == j
  {
    assert i < j ==> EndedBefore(live, s[i], s[j]);
    assert j < i ==> EndedBefore(live, s[j], s[i]);
  }

  function Elements(s: seq<JobId>): set<JobId> {
    set x | x in s
  }

  lemma ElementsMore(s: seq<JobId>, x: JobId)
    ensures Elements(s + [x]) == Elements(s) + {x}
  {
    assert x in s + [x];
  }

  /** Which part of the order a job is in is its rank. */
  lemma InSuffix(live: map<JobId, Live>, s: seq<JobId>, i: nat, j: nat)
    requires InOrder(live, s) && i <= |s| && j < |s|
    ensures s[j] in s[i..] <==> j >= i
    ensures s[j] in s[..i] <==> j < i
  {
    forall k | 0 <= k < |s| && s[k] == s[j]
      ensures k == j
    {
      SameRank(live, s, k, j);
    }
    assert j >= i ==> s[i..][j - i] == s[j];
    assert j < i ==> s[..i][j] == s[j];
  }

  /** The rank of a job among those in order is how many ended no earlier. */
  lemma RankIs(live: map<JobId, Live>, s: seq<JobId>, i: nat)
    requires InOrder(live, s) && i < |s| && forall id :: id in s <==> id in EvictableIds(live)
    ensures |NoEarlier(live, s[i])| == |s| - i
  {
    forall x
      ensures x in NoEarlier(live, s[i]) <==> x in s[i..]
    {
      if x in s {
        var j :| 0 <= j < |s| && s[j] == x;
        InSuffix(live, s, i, j);
        assert j > i ==> EndedBefore(live, s[i], s[j]);
        assert j < i ==> EndedBefore(live, s[j], s[i]);
      }
    }
    Distinct(live, s, i);
    assert NoEarlier(live, s[i]) == Elements(s[i..]);
  }

  lemma {:induction false} Distinct(live: map<JobId, Live>, s: seq<JobId>, i: nat)
    requires InOrder(live, s) && i <= |s|
    ensures |Elements(s[i..])| == |s| - i
    decreases |s| - i
  {
    if i < |s| {
      Distinct(live, s, i + 1);
      assert Elements(s[i..]) == Elements(s[i + 1..]) + {s[i]};
      InSuffix(live, s, i + 1, i);
    }
  }

  /** Of the ended, stored jobs at most 50 are left, all younger than fifteen
      minutes; one younger than that leaves only for 50 that ended no earlier,
      and every other job stays. */
  ghost predicate Swept(live: map<JobId, Live>, left: map<JobId, Live>, now: Time) {
    && (forall id | id in left :: id in live && left[id] == live[id])
    && (forall id | id in live && !(live[id].job.state == Done && live[id].durable) :: id in left)
    && |EvictableIds(left)| <= 50
    && (forall id | id in EvictableIds(left) :: now - left[id].job.ended < 900_000_000_000)
    && (forall id | id in live && id !in left && now - live[id].job.ended < 900_000_000_000 ::
          |EvictableIds(left)| == 50 && forall x | x in EvictableIds(left) :: live[id].job.ended <= left[x].job.ended)
  }

  /** l after a change that asked for one state, outcome and facts. */
  predicate Takes(l: Live, after: Live, asked: Job, now: Time) {
    && after.job.id == l.job.id && after.job.owner == l.job.owner && after.saving == l.saving
    && after.job.rev == l.job.rev + 1 && after.job.state == asked.state && after.job.facts == asked.facts
    && if asked.state == Done
       then
         && after.job.outcome == (match asked.outcome case NoOutcome => Failed case other => other)
         && after.job.ended == now && !after.job.cancellable && !after.stop && !after.durable && after.attempts == 0
       else
         && after.job.outcome == NoOutcome && after.job.ended == 0
         && after.job.cancellable == l.stop && after.stop == l.stop && after.durable == l.durable && after.attempts == l.attempts
  }

  class Store {
    var live: map<JobId, Live>
    var unsaved: set<JobId>
    var mutations: nat

    function Value(): Memory
      reads this
    {
      Memory(live, unsaved, mutations)
    }

    constructor ()
      ensures Value() == Memory(map[], {}, 0)
    {
      live, unsaved, mutations := map[], {}, 0;
    }

    /** A recorded job goes live. */
    method GoLive(job: Job, stop: bool)
      modifies this
      ensures Value() == old(Value()).(live := old(live)[job.id := Live(job, stop, true, false, 0)], mutations := old(mutations) + 1)
    {
      live := live[job.id := Live(job, stop, true, false, 0)];
      mutations := mutations + 1;
    }

    /** A live job that has not ended takes a change, of its state, its facts
        and, at its end, its outcome; an end with no outcome is a failure. An
        ended job is left alone. terminal tells the caller to save its record. */
    method Update(id: JobId, change: Job -> Job, now: Time) returns (terminal: bool)
      modifies this
      ensures Value() == Updated(old(Value()), id, change, now)
      ensures id !in old(live) || old(live)[id].job.state == Done ==> !terminal && Value() == old(Value())
      ensures id in old(live) && old(live)[id].job.state != Done ==>
                && (terminal <==> change(old(live)[id].job).state == Done) && mutations == old(mutations) + 1
                && live.Keys == old(live).Keys && Takes(old(live)[id], live[id], change(old(live)[id].job), now)
                && unsaved == old(unsaved) + (if terminal then {id} else {})
                && forall x | x in live && x != id :: live[x] == old(live)[x]
    {
      if id !in live || live[id].job.state == Done {
        return false;
      }
      var l := live[id];
      var next := change(l.job);
      terminal := next.state == Done;
      next := Changed(l.job, next, l.stop, now);
      if terminal {
        l := l.(stop := false, durable := false, attempts := 0);
        unsaved := unsaved + {id};
      }
      live := live[id := l.(job := next)];
      mutations := mutations + 1;
    }

    /** The first half of a save: what to store, none when nothing is due. */
    method StartSave(id: JobId) returns (j: Option<Job>)
      modifies this
      ensures j.None? <==> !Savable(old(Value()), id)
      ensures j.None? ==> Value() == old(Value())
      ensures j.Some? ==> Value() == Saving(old(Value()), id) && j.value == live[id].job
    {
      if id !in live || live[id].durable || live[id].saving {
        return None;
      }
      var l := live[id];
      if l.attempts > 0 {
        l := l.(job := l.job.(rev := l.job.rev + 1));
        mutations := mutations + 1;
      }
      l := l.(attempts := l.attempts + 1, saving := true);
      live := live[id := l];
      j := Some(l.job);
    }

    /** The second half: what the persister reported. */
    method EndSave(id: JobId, ok: bool, now: Time)
      requires id in live
      modifies this
      ensures Value() == if ok then Saved(old(Value()), id, now) else Unsaved(old(Value()), id)
    {
      hide Evicted;
      live := live[id := live[id].(saving := false)];
      if !ok {
        return;
      }
      live := live[id := live[id].(durable := true)];
      unsaved := unsaved - {id};
      assert live == old(live)[id := old(live)[id].(saving := false, durable := true)];
      Evict(now);
    }

    /** Ended jobs older than the age bound leave, then the oldest beyond the
        count; one whose record is not yet stored stays. */
    method Evict(now: Time)
      modifies this
      ensures Value() == Evicted(old(Value()), now)
      ensures unsaved == old(unsaved) && forall id | id in live :: id in old(live) && live[id] == old(live)[id]
      ensures Swept(old(live), live, now)
    {
      var ended := SortEnded();
      ghost var all := live;
      var i, dropped := 0, false;
      assert live == all - Elements(ended[..0]);
      while i < |ended|
        invariant i <= |ended| && unsaved == old(unsaved) && mutations == old(mutations)
        invariant dropped <==> i > 0
        invariant live == all - Elements(ended[..i])
        invariant forall j | 0 <= j < i :: Leaves(all, ended[j], now)
      {
        RankIs(all, ended, i);
        InSuffix(all, ended, i, i);
        var l := live[ended[i]];
        if |ended| - i <= LIVE_MAX_DONE && now - l.job.ended < LIVE_MAX_AGE {
          break;
        }
        assert ended[i] in ended && ended[i] in EvictableIds(all);
        assert Leaves(all, ended[i], now);
        assert ended[..i + 1] == ended[..i] + [ended[i]];
        ElementsMore(ended[..i], ended[i]);
        live := live - {ended[i]};
        dropped := true;
        i := i + 1;
      }
      LeavesPrefix(all, ended, i, now);
      EvictBounds(all, ended, i, now);
      hide InOrder, Leaves, NoEarlier, EvictableIds;
      assert i > 0 ==> ended[0] in Elements(ended[..i]);
      if dropped {
        mutations := mutations + 1;
      } else {
        assert live == all;
      }
    }

    /** The ended, stored jobs, first to end first. */
    method SortEnded() returns (s: seq<JobId>)
      ensures InOrder(live, s) && forall id :: id in s <==> id in EvictableIds(live)
    {
      s := [];
      var rest := EvictableIds(live);
      while rest != {}
        invariant rest <= EvictableIds(live)
        invariant forall id :: id in s <==> id in EvictableIds(live) && id !in rest
        invariant InOrder(live, s)
        invariant forall i, x | 0 <= i < |s| && x in rest :: EndedBefore(live, s[i], x)
        decreases |rest|
      {
        ghost var g := FirstEnded(live, rest);
        var f :| f in rest && forall x | x in rest :: x == f || EndedBefore(live, f, x);
        s := s + [f];
        rest := rest - {f};
      }
    }
  }

  lemma LeftEnded(live: map<JobId, Live>, s: seq<JobId>, i: nat)
    requires InOrder(live, s) && i <= |s| && forall id :: id in s <==> id in EvictableIds(live)
    ensures EvictableIds(live - Elements(s[..i])) == Elements(s[i..])
  {
    forall x
      ensures x in EvictableIds(live - Elements(s[..i])) <==> x in s[i..]
    {
      if x in s {
        var j :| 0 <= j < |s| && s[j] == x;
        InSuffix(live, s, i, j);
      }
    }
  }

  lemma LeftYoung(live: map<JobId, Live>, s: seq<JobId>, i: nat, now: Time, x: JobId)
    requires InOrder(live, s) && i < |s| && x in s[i..] && now - live[s[i]].job.ended < LIVE_MAX_AGE
    ensures x in live && now - live[x].job.ended < LIVE_MAX_AGE
  {
    var k :| i <= k < |s| && s[k] == x;
    assert k > i ==> EndedBefore(live, s[i], s[k]);
  }

  /** The j-th to end leaves young only for the bound's count of later ones. */
  lemma YoungLeaves(live: map<JobId, Live>, s: seq<JobId>, i: nat, j: nat, now: Time)
    requires InOrder(live, s) && j < i <= |s| && forall id :: id in s <==> id in EvictableIds(live)
    requires Leaves(live, s[i - 1], now) && now - live[s[j]].job.ended < LIVE_MAX_AGE
    ensures |s| - i >= LIVE_MAX_DONE
  {
    RankIs(live, s, i - 1);
    assert j < i - 1 ==> EndedBefore(live, s[j], s[i - 1]);
  }

  lemma LaterLeft(live: map<JobId, Live>, s: seq<JobId>, i: nat, j: nat, x: JobId)
    requires InOrder(live, s) && j < i <= |s| && x in s[i..]
    ensures x in live && live[s[j]].job.ended <= live[x].job.ended
  {
    var k :| i <= k < |s| && s[k] == x;
    assert EndedBefore(live, s[j], s[k]);
  }

  /** What is left once the first i leave. */
  lemma EvictBounds(live: map<JobId, Live>, s: seq<JobId>, i: nat, now: Time)
    requires InOrder(live, s) && i <= |s| && forall id :: id in s <==> id in EvictableIds(live)
    requires forall j | 0 <= j < i :: Leaves(live, s[j], now)
    requires i < |s| ==> |s| - i <= LIVE_MAX_DONE && now - live[s[i]].job.ended < LIVE_MAX_AGE
    ensures Swept(live, live - Elements(s[..i]), now)
  {
    hide InOrder, Leaves;
    var left := live - Elements(s[..i]);
    LeftEnded(live, s, i);
    assert forall x | x in s[..i] :: x in s;
    assert forall x | x in EvictableIds(left) :: x in Elements(s[i..]);
    Distinct(live, s, i);
    forall x | x in s[i..]
      ensures x in live && now - live[x].job.ended < LIVE_MAX_AGE
    {
      LeftYoung(live, s, i, now, x);
    }
    forall x | x in live && x !in left && now - live[x].job.ended < LIVE_MAX_AGE
      ensures |s| - i == LIVE_MAX_DONE && forall y | y in s[i..] :: y in live && live[x].job.ended <= live[y].job.ended
    {
      var j :| 0 <= j < i && s[j] == x;
      YoungLeaves(live, s, i, j, now);
      forall y | y in s[i..]
        ensures y in live && live[x].job.ended <= live[y].job.ended
      {
        LaterLeft(live, s, i, j, y);
      }
    }
  }

  /** Leaving is a prefix of the order: past the first that stays, all stay. */
  lemma LeavesPrefix(live: map<JobId, Live>, s: seq<JobId>, i: nat, now: Time)
    requires InOrder(live, s) && i <= |s| && forall id :: id in s <==> id in EvictableIds(live)
    requires forall j | 0 <= j < i :: Leaves(live, s[j], now)
    requires i < |s| ==> |s| - i <= LIVE_MAX_DONE && now - live[s[i]].job.ended < LIVE_MAX_AGE
    ensures Leaving(live, now) == Elements(s[..i])
  {
    forall x | x in live
      ensures Leaves(live, x, now) <==> x in s[..i]
    {
      if x in s {
        var j :| 0 <= j < |s| && s[j] == x;
        RankIs(live, s, j);
        InSuffix(live, s, i, j);
        assert j > i ==> EndedBefore(live, s[i], s[j]);
      }
    }
  }
}
