/** Jobs and their records over any interleaving of updates, saves that fail
    or land unseen, evictions, sweeps and restarts. */
module JobRuns {
  import opened JobStates

  /** The process's jobs and the persister's records; every write ever handed
      to the persister, which may land late or not at all; the jobs whose
      record is being inserted; and, of a restart's, every id that has ended. */
  datatype State = State(
    m: Memory, stored: map<JobId, Job>, issued: seq<Job>, landed: set<nat>, inflight: map<JobId, nat>,
    begun: map<JobId, bool>, used: set<JobId>, ended: set<JobId>)

  datatype Event =
    | Insert(job: Job, stop: bool)
    | Begin(id: JobId)
    | Abandon(id: JobId)
    | Change(id: JobId, change: Job -> Job, now: Time)
    | Save(id: JobId)
    | Land(n: nat)
    | Report(id: JobId, ok: bool, now: Time)
    | Expire(now: Time)
    | Sweep(id: JobId)
    | Restart(now: Time)

  /** What PutJob stores: the write lands on a stored record it is above. */
  predicate Accepts(stored: map<JobId, Job>, j: Job) {
    j.id in stored && j.rev > stored[j.id].rev
  }

  function Interrupt(j: Job, now: Time): Job {
    if j.state == Done then j else j.(state := Done, outcome := Interrupted, cancellable := false, ended := now, rev := j.rev + 1)
  }

  /** A new process: unfinished records end, and are what is live. */
  function Restarted(s: State, now: Time): State {
    var stored := map id | id in s.stored :: Interrupt(s.stored[id], now);
    var live := map id | id in s.stored && s.stored[id].state != Done :: Live(Interrupt(s.stored[id], now), false, true, false, 0);
    State(Evicted(Memory(live, {}, 0), now), stored, [], {}, map[], map[], s.used, s.ended + live.Keys)
  }

  /** One atomic step; an event that cannot happen changes nothing. */
  function Step(s: State, e: Event): State {
    match e
    case Insert(job, stop) =>
      if job.id in s.used then s
      else
        var j := job.(rev := 1, state := Queued, outcome := NoOutcome, ended := 0, cancellable := stop);
        s.(stored := s.stored[j.id := j], begun := s.begun[j.id := stop], used := s.used + {j.id})
    case Begin(id) =>
      if id !in s.begun then s
      else
        var stop := s.begun[id];
        if id !in s.stored then s.(begun := s.begun - {id})
        else s.(begun := s.begun - {id},
                m := s.m.(live := s.m.live[id := Live(s.stored[id], stop, true, false, 0)], mutations := s.m.mutations + 1))
    case Abandon(id) => s.(begun := s.begun - {id})
    case Change(id, change, now) =>
      var m1 := Updated(s.m, id, change, now);
      s.(m := m1, ended := if id in m1.live && m1.live[id].job.state == Done then s.ended + {id} else s.ended)
    case Save(id) =>
      if !Savable(s.m, id) then s
      else
        var m1 := Saving(s.m, id);
        s.(m := m1, issued := s.issued + [m1.live[id].job], inflight := s.inflight[id := |s.issued|])
    case Land(n) =>
      if n < |s.issued| && Accepts(s.stored, s.issued[n])
      then s.(stored := s.stored[s.issued[n].id := s.issued[n]], landed := s.landed + {n})
      else s
    case Report(id, ok, now) =>
      if id !in s.inflight || id !in s.m.live || (ok && s.inflight[id] !in s.landed) then s
      else s.(m := if ok then Saved(s.m, id, now) else Unsaved(s.m, id), inflight := s.inflight - {id})
    case Expire(now) => s.(m := Evicted(s.m, now))
    case Sweep(id) => if id in s.stored && s.stored[id].state == Done then s.(stored := s.stored - {id}) else s
    case Restart(now) => Restarted(s, now)
  }

  function Run(s: State, es: seq<Event>): State {
    if es == [] then s else Step(Run(s, es[..|es| - 1]), es[|es| - 1])
  }

  const START := State(Memory(map[], {}, 0), map[], [], {}, map[], map[], {}, {})

  /* ---------- What every reachable state keeps ---------- */

  /** A live job whose record is not stored: none of its writes, and no stored
      record, has a revision above its own, nor, before its first attempt,
      its own. */
  ghost predicate Above(s: State, id: JobId)
    requires id in s.m.live
  {
    var l := s.m.live[id];
    && (forall n | 0 <= n < |s.issued| && s.issued[n].id == id :: if l.attempts > 0 then s.issued[n].rev <= l.job.rev else s.issued[n].rev < l.job.rev)
    && (id in s.stored ==> if l.attempts > 0 then s.stored[id].rev <= l.job.rev else s.stored[id].rev < l.job.rev)
  }

  ghost predicate LiveGood(s: State, id: JobId)
    requires id in s.m.live
  {
    var l := s.m.live[id];
    && l.job.id == id && id in s.used && id !in s.begun
    && (l.job.state == Done <==> id in s.ended)
    && (!l.durable ==> l.job.state == Done && Above(s, id))
    && (l.job.state != Done ==> l.durable && !l.saving && l.attempts == 0 && (id in s.stored ==> s.stored[id].rev <= l.job.rev && s.stored[id].state != Done))
    && (l.job.state == Done && l.durable && id in s.stored ==> s.stored[id].state == Done)
    && (l.saving <==> id in s.inflight)
    && (l.saving ==> !l.durable)
  }

  /** A save under way is its job's newest write, and once landed is what is
      stored, unless swept since. */
  ghost predicate InflightGood(s: State, id: JobId)
    requires id in s.inflight
  {
    var n := s.inflight[id];
    && id in s.m.live && n < |s.issued|
    && s.issued[n] == s.m.live[id].job && s.m.live[id].attempts > 0
    && (forall k | 0 <= k < |s.issued| && s.issued[k].id == id && k != n :: s.issued[k].rev < s.issued[n].rev)
    && (id in s.stored ==> if n in s.landed then s.stored[id] == s.issued[n] else s.stored[id].rev < s.issued[n].rev)
  }

  ghost predicate Good(s: State) {
    && (forall id | id in s.m.live :: LiveGood(s, id))
    && (forall id :: id in s.m.unsaved <==> id in s.m.live && s.m.live[id].job.state == Done && !s.m.live[id].durable)
    && (forall id | id in s.inflight :: InflightGood(s, id))
    && (forall n | n in s.landed :: n < |s.issued|)
    && (forall n | 0 <= n < |s.issued| :: s.issued[n].state == Done && s.issued[n].id in s.ended)
    && (forall id | id in s.stored :: s.stored[id].id == id && id in s.used)
    && (forall id | id in s.ended :: id in s.used && id !in s.begun && (id !in s.m.live && id in s.stored ==> s.stored[id].state == Done))
    && (forall id | id in s.begun :: id in s.used && id !in s.m.live && id in s.stored && s.stored[id].state == Queued && s.stored[id].rev == 1)
  }

  /* ---------- Each step keeps it ---------- */

  lemma InsertKeeps(s: State, job: Job, stop: bool)
    requires Good(s)
    ensures Good(Step(s, Insert(job, stop)))
  {
    var s1 := Step(s, Insert(job, stop));
    if job.id !in s.used {
      forall id | id in s1.m.live
        ensures LiveGood(s1, id)
      {
        assert LiveGood(s, id);
      }
      forall id | id in s1.inflight
        ensures InflightGood(s1, id)
      {
        assert InflightGood(s, id) && LiveGood(s, id);
      }
    }
  }

  lemma BeginKeeps(s: State, id: JobId)
    requires Good(s)
    ensures Good(Step(s, Begin(id)))
  {
    var s1 := Step(s, Begin(id));
    if id in s.begun {
      forall n | 0 <= n < |s.issued|
        ensures s.issued[n].id != id
      {
        assert s.issued[n].id in s.ended;
      }
      forall x | x in s1.m.live
        ensures LiveGood(s1, x)
      {
        assert x != id ==> LiveGood(s, x);
        assert id in s.inflight ==> InflightGood(s, id);
        assert id !in s.ended;
      }
      forall x | x in s1.inflight
        ensures InflightGood(s1, x)
      {
        assert InflightGood(s, x);
      }
    }
  }

  lemma AbandonKeeps(s: State, id: JobId)
    requires Good(s)
    ensures Good(Step(s, Abandon(id)))
  {
    var s1 := Step(s, Abandon(id));
    forall x | x in s1.m.live
      ensures LiveGood(s1, x)
    {
      assert LiveGood(s, x);
    }
    forall x | x in s1.inflight
      ensures InflightGood(s1, x)
    {
      assert InflightGood(s, x);
    }
  }

  lemma NoneIssued(s: State, id: JobId)
    requires Good(s) && id !in s.ended
    ensures forall n | 0 <= n < |s.issued| :: s.issued[n].id != id
  {
  }

  lemma ChangeLive(s: State, id: JobId, change: Job -> Job, now: Time, x: JobId)
    requires Good(s) && id in s.m.live && s.m.live[id].job.state != Done && x in s.m.live
    ensures LiveGood(Step(s, Change(id, change, now)), x)
  {
    assert LiveGood(s, x) && LiveGood(s, id);
    NoneIssued(s, id);
    hide Good;
  }

  lemma ChangeInflight(s: State, id: JobId, change: Job -> Job, now: Time, x: JobId)
    requires Good(s) && id in s.m.live && s.m.live[id].job.state != Done && x in s.inflight
    ensures InflightGood(Step(s, Change(id, change, now)), x)
  {
    assert InflightGood(s, x) && LiveGood(s, id);
    hide Good;
  }

  lemma ChangeKeeps(s: State, id: JobId, change: Job -> Job, now: Time)
    requires Good(s)
    ensures Good(Step(s, Change(id, change, now)))
  {
    hide LiveGood, InflightGood;
    var s1 := Step(s, Change(id, change, now));
    if id in s.m.live {
      LiveEnded(s, id);
      if s.m.live[id].job.state != Done {
        forall x | x in s1.m.live
          ensures LiveGood(s1, x)
        {
          ChangeLive(s, id, change, now, x);
        }
        forall x | x in s1.inflight
          ensures InflightGood(s1, x)
        {
          ChangeInflight(s, id, change, now, x);
        }
      } else {
        assert s.ended + {id} == s.ended;
      }
    }
  }

  lemma LiveEnded(s: State, id: JobId)
    requires Good(s) && id in s.m.live
    ensures s.m.live[id].job.state == Done <==> id in s.ended
    ensures id in s.used && id !in s.begun && s.m.live[id].job.id == id
    ensures id in s.m.unsaved <==> !s.m.live[id].durable
  {
    assert LiveGood(s, id);
  }

  lemma SaveLive(s: State, id: JobId, x: JobId)
    requires Good(s) && Savable(s.m, id) && x in s.m.live
    ensures LiveGood(Step(s, Save(id)), x)
  {
    assert LiveGood(s, x) && LiveGood(s, id);
    hide Good;
    var s1 := Step(s, Save(id));
    assert forall k | 0 <= k < |s.issued| :: s1.issued[k] == s.issued[k];
  }

  lemma SaveInflight(s: State, id: JobId, x: JobId)
    requires Good(s) && Savable(s.m, id) && x in Step(s, Save(id)).inflight
    ensures InflightGood(Step(s, Save(id)), x)
  {
    assert LiveGood(s, id) && |s.issued| !in s.landed;
    assert x != id ==> InflightGood(s, x);
    hide Good;
    var s1 := Step(s, Save(id));
    assert forall k | 0 <= k < |s.issued| :: s1.issued[k] == s.issued[k];
  }

  lemma SaveKeeps(s: State, id: JobId)
    requires Good(s)
    ensures Good(Step(s, Save(id)))
  {
    hide LiveGood, InflightGood;
    var s1 := Step(s, Save(id));
    if Savable(s.m, id) {
      LiveEnded(s, id);
      forall x | x in s1.m.live
        ensures LiveGood(s1, x)
      {
        SaveLive(s, id, x);
      }
      forall x | x in s1.inflight
        ensures InflightGood(s1, x)
      {
        SaveInflight(s, id, x);
      }
    }
  }

  lemma LandLive(s: State, n: nat, x: JobId)
    requires Good(s) && x in s.m.live
    ensures LiveGood(Step(s, Land(n)), x)
  {
    assert LiveGood(s, x);
    assert n < |s.issued| ==> s.issued[n].id in s.ended && s.issued[n].state == Done;
    hide Good;
  }

  lemma LandInflight(s: State, n: nat, x: JobId)
    requires Good(s) && x in s.inflight
    ensures InflightGood(Step(s, Land(n)), x)
  {
    assert InflightGood(s, x) && LiveGood(s, x);
    hide Good;
  }

  lemma LandKeeps(s: State, n: nat)
    requires Good(s)
    ensures Good(Step(s, Land(n)))
  {
    hide LiveGood, InflightGood;
    var s1 := Step(s, Land(n));
    if n < |s.issued| && Accepts(s.stored, s.issued[n]) {
      assert s.issued[n].id in s.ended && s.issued[n].state == Done;
      forall x | x in s1.m.live
        ensures LiveGood(s1, x)
      {
        LandLive(s, n, x);
      }
      forall x | x in s1.inflight
        ensures InflightGood(s1, x)
      {
        LandInflight(s, n, x);
      }
    }
  }

  /** Whom retention drops had ended and been stored. */
  lemma EvictKeeps(s: State, now: Time)
    requires Good(s)
    ensures Good(s.(m := Evicted(s.m, now)))
  {
    hide Leaves;
    var s1 := s.(m := Evicted(s.m, now));
    LeavingStored(s.m.live, now);
    forall x | x in s.m.live
      ensures LiveGood(s, x)
    {
    }
    forall x | x in s1.m.live
      ensures LiveGood(s1, x)
    {
      assert LiveGood(s, x);
    }
    forall x | x in s1.inflight
      ensures InflightGood(s1, x)
    {
      assert InflightGood(s, x) && LiveGood(s, x);
    }
  }

  lemma LeavingStored(live: map<JobId, Live>, now: Time)
    ensures forall id | id in Leaving(live, now) :: id in live && live[id].job.state == Done && live[id].durable
  {
  }

  /** A report before any retention. */
  function Reported(s: State, id: JobId, ok: bool): State
    requires id in s.m.live
  {
    var l := s.m.live[id].(saving := false);
    var m1 := if ok then s.m.(live := s.m.live[id := l.(durable := true)], unsaved := s.m.unsaved - {id}) else s.m.(live := s.m.live[id := l]);
    s.(m := m1, inflight := s.inflight - {id})
  }

  lemma ReportedLive(s: State, id: JobId, ok: bool, x: JobId)
    requires Good(s) && id in s.m.live && id in s.inflight && (ok ==> s.inflight[id] in s.landed) && x in s.m.live
    ensures LiveGood(Reported(s, id, ok), x)
  {
    assert LiveGood(s, x) && LiveGood(s, id) && InflightGood(s, id);
    assert forall n | 0 <= n < |s.issued| :: s.issued[n].state == Done;
    hide Good;
  }

  lemma ReportedInflight(s: State, id: JobId, ok: bool, x: JobId)
    requires Good(s) && id in s.m.live && x in s.inflight && x != id
    ensures InflightGood(Reported(s, id, ok), x)
  {
    assert InflightGood(s, x);
    hide Good;
  }

  lemma ReportedKeeps(s: State, id: JobId, ok: bool)
    requires Good(s) && id in s.m.live && id in s.inflight && (ok ==> s.inflight[id] in s.landed)
    ensures Good(Reported(s, id, ok))
  {
    hide LiveGood, InflightGood;
    var s1 := Reported(s, id, ok);
    LiveEnded(s, id);
    forall x | x in s1.m.live
      ensures LiveGood(s1, x)
    {
      ReportedLive(s, id, ok, x);
    }
    forall x | x in s1.inflight
      ensures InflightGood(s1, x)
    {
      ReportedInflight(s, id, ok, x);
    }
  }

  lemma ReportKeeps(s: State, id: JobId, ok: bool, now: Time)
    requires Good(s)
    ensures Good(Step(s, Report(id, ok, now)))
  {
    hide Good, Evicted;
    if id in s.inflight && id in s.m.live && (ok ==> s.inflight[id] in s.landed) {
      ReportedKeeps(s, id, ok);
      if ok {
        EvictKeeps(Reported(s, id, ok), now);
      }
    }
  }

  lemma SweepKeeps(s: State, id: JobId)
    requires Good(s)
    ensures Good(Step(s, Sweep(id)))
  {
    var s1 := Step(s, Sweep(id));
    forall x | x in s1.m.live
      ensures LiveGood(s1, x)
    {
      assert LiveGood(s, x);
    }
    forall x | x in s1.inflight
      ensures InflightGood(s1, x)
    {
      assert InflightGood(s, x);
    }
  }

  lemma RestartKeeps(s: State, now: Time)
    requires Good(s)
    ensures Good(Step(s, Restart(now)))
  {
    hide Evicted;
    var r := Restarted(s, now);
    var live := map id | id in s.stored && s.stored[id].state != Done :: Live(Interrupt(s.stored[id], now), false, true, false, 0);
    var s1 := r.(m := Memory(live, {}, 0));
    RestartGood(s, s1, now);
    hide Good;
    EvictKeeps(s1, now);
  }

  lemma RestartGood(s: State, s1: State, now: Time)
    requires Good(s)
    requires s1.stored == map id | id in s.stored :: Interrupt(s.stored[id], now)
    requires s1.m == Memory(map id | id in s.stored && s.stored[id].state != Done :: Live(Interrupt(s.stored[id], now), false, true, false, 0), {}, 0)
    requires s1.issued == [] && s1.landed == {} && s1.inflight == map[] && s1.begun == map[] && s1.used == s.used
    requires s1.ended == s.ended + s1.m.live.Keys
    ensures Good(s1)
  {
    hide Leaves;
    forall x | x in s1.m.live
      ensures LiveGood(s1, x)
    {
      assert x in s.stored && s.stored[x].id == x && x in s.used;
    }
    forall id | id in s1.ended
      ensures id in s1.used && id !in s1.begun && (id in s1.stored ==> s1.stored[id].state == Done)
    {
    }
  }

  lemma StepKeeps(s: State, e: Event)
    requires Good(s)
    ensures Good(Step(s, e))
  {
    hide Good, Step;
    match e
    case Insert(job, stop) => InsertKeeps(s, job, stop);
    case Begin(id) => BeginKeeps(s, id);
    case Abandon(id) => AbandonKeeps(s, id);
    case Change(id, change, now) => ChangeKeeps(s, id, change, now);
    case Save(id) => SaveKeeps(s, id);
    case Land(n) => LandKeeps(s, n);
    case Report(id, ok, now) => ReportKeeps(s, id, ok, now);
    case Expire(now) => ExpireKeeps(s, now);
    case Sweep(id) => SweepKeeps(s, id);
    case Restart(now) => RestartKeeps(s, now);
  }

  lemma ExpireKeeps(s: State, now: Time)
    requires Good(s)
    ensures Good(Step(s, Expire(now)))
  {
    EvictKeeps(s, now);
  }

  lemma {:induction false} RunKeeps(s: State, es: seq<Event>)
    requires Good(s)
    ensures Good(Run(s, es))
  {
    hide Good, Step;
    if es != [] {
      RunKeeps(s, es[..|es| - 1]);
      StepKeeps(Run(s, es[..|es| - 1]), es[|es| - 1]);
    }
  }

  lemma StartGood()
    ensures Good(START)
  {
  }

  /* ---------- What follows ---------- */

  /** Each attempt to store a job's end carries a revision above every write
      of it before, and above the stored one. */
  lemma SaveAbove(s: State, id: JobId)
    requires Good(s) && Savable(s.m, id)
    ensures var s1 := Step(s, Save(id));
            var j := s1.issued[|s.issued|];
            && j.id == id && j.state == Done
            && (forall n | 0 <= n < |s.issued| && s.issued[n].id == id :: s.issued[n].rev < j.rev)
            && (id in s.stored ==> s.stored[id].rev < j.rev)
  {
    assert LiveGood(s, id);
  }

  /** So the write under way is never refused as stale: while its record is
      stored it lands, or has. */
  lemma NeverStale(s: State, id: JobId)
    requires Good(s) && id in s.inflight && id in s.stored
    ensures s.inflight[id] < |s.issued| && (s.inflight[id] in s.landed || Accepts(s.stored, s.issued[s.inflight[id]]))
  {
    assert InflightGood(s, id) && LiveGood(s, id);
  }

  /** What is left to store is exactly the live jobs that ended and are not
      stored, and none of them is dropped. */
  lemma UnsavedExactly(es: seq<Event>, id: JobId)
    ensures var s := Run(START, es);
            && (id in s.m.unsaved <==> id in s.m.live && s.m.live[id].job.state == Done && !s.m.live[id].durable)
            && (id in s.m.unsaved ==> forall now: Time :: id !in Leaving(s.m.live, now))
  {
    StartGood();
    RunKeeps(START, es);
  }

  /** Once a job has left memory after its end, a stored record of it, if any,
      is of its end, ever after. */
  ghost predicate Over(s: State, id: JobId) {
    id in s.ended && id !in s.m.live && (id in s.stored ==> s.stored[id].state == Done)
  }

  lemma StepOver(s: State, e: Event, id: JobId)
    requires Good(s) && Over(s, id)
    ensures Over(Step(s, e), id)
  {
    hide Evicted;
    EvictedFewer(s, e);
    assert id in s.inflight ==> InflightGood(s, id);
  }

  lemma EvictedFewer(s: State, e: Event)
    ensures e.Expire? ==> Step(s, e).m.live.Keys <= s.m.live.Keys
    ensures e.Report? ==> Step(s, e).m.live.Keys <= s.m.live.Keys
    ensures e.Restart? ==> forall id | id in Step(s, e).m.live :: id in s.stored && s.stored[id].state != Done
  {
  }

  lemma {:induction false} RunOver(s: State, es: seq<Event>, id: JobId)
    requires Good(s) && Over(s, id)
    ensures Over(Run(s, es), id)
  {
    hide Good, Step, Over;
    if es != [] {
      RunOver(s, es[..|es| - 1], id);
      RunKeeps(s, es[..|es| - 1]);
      StepOver(Run(s, es[..|es| - 1]), es[|es| - 1], id);
    }
  }

  /** What Get answers: the live job, else the record stored later on. */
  ghost predicate Answers(s: State, es: seq<Event>, id: JobId, j: Job) {
    if id in s.m.live then j == s.m.live[id].job else id in Run(s, es).stored && j == Run(s, es).stored[id]
  }

  /** A Get that starts once a job has ended never answers it as not ended,
      whatever happens between its two looks. */
  lemma GetAfterEnd(before: seq<Event>, es: seq<Event>, id: JobId, j: Job)
    requires id in Run(START, before).ended && Answers(Run(START, before), es, id, j)
    ensures j.state == Done && j.id == id
  {
    hide Run, Step;
    StartGood();
    RunKeeps(START, before);
    var s := Run(START, before);
    if id in s.m.live {
      assert LiveGood(s, id);
    } else {
      RunOver(s, es, id);
      RunKeeps(s, es);
    }
  }

  /** Once an unsaved job's record is gone no later attempt stores it, until a
      restart. */
  lemma {:induction false} NeverSaved(s: State, es: seq<Event>, id: JobId)
    requires Good(s) && id in s.m.unsaved && id !in s.stored && (id in s.inflight ==> s.inflight[id] !in s.landed)
    requires forall i | 0 <= i < |es| :: !es[i].Restart?
    ensures var s1 := Run(s, es); id in s1.m.unsaved && id !in s1.stored && (id in s1.inflight ==> s1.inflight[id] !in s1.landed)
  {
    hide Good, Step;
    if es != [] {
      var init := es[..|es| - 1];
      NeverSaved(s, init, id);
      RunKeeps(s, init);
      StaysUnsaved(Run(s, init), es[|es| - 1], id);
    }
  }

  lemma StaysUnsaved(s: State, e: Event, id: JobId)
    requires Good(s) && id in s.m.unsaved && id !in s.stored && (id in s.inflight ==> s.inflight[id] !in s.landed) && !e.Restart?
    ensures var s1 := Step(s, e); id in s1.m.unsaved && id !in s1.stored && (id in s1.inflight ==> s1.inflight[id] !in s1.landed)
  {
    hide Evicted;
    assert LiveGood(s, id);
    assert id in s.inflight ==> InflightGood(s, id);
    EvictedKeepsUnsaved(s, e);
  }

  lemma EvictedKeepsUnsaved(s: State, e: Event)
    ensures e.Expire? ==> Step(s, e).m.unsaved == s.m.unsaved
    ensures e.Report? ==> s.m.unsaved - {e.id} <= Step(s, e).m.unsaved
    ensures e.Report? && !e.ok ==> Step(s, e).m.unsaved == s.m.unsaved
  {
  }

  /** The next attempt of an unsaved job is stored exactly when its record is. */
  lemma NextLands(s: State, id: JobId)
    requires Good(s) && Savable(s.m, id)
    ensures var n := |s.issued|;
            var s1 := Step(s, Save(id));
            var s2 := Step(s1, Land(n));
            && (n in s2.landed <==> id in s.stored)
            && (n in s2.landed ==> id in s2.stored && s2.stored[id] == s1.issued[n])
            && s2.inflight == s.inflight[id := n] && id in s2.m.unsaved
  {
    SavableEnded(s, id);
    SaveAbove(s, id);
    assert forall n | n in s.landed :: n < |s.issued|;
  }

  /** Some run without a restart stores what is left of a job. */
  ghost predicate Saves(s: State, es: seq<Event>, id: JobId) {
    (forall i | 0 <= i < |es| :: !es[i].Restart?) && id !in Run(s, es).m.unsaved
  }

  /** An unsaved job's end can still be saved, short of a restart, exactly while
      its record is stored, or the attempt under way has landed. */
  lemma SavableExactly(s: State, id: JobId)
    requires Good(s) && id in s.m.unsaved
    ensures (exists es :: Saves(s, es, id)) <==> id in s.stored || (id in s.inflight && s.inflight[id] in s.landed)
  {
    hide Good, Step, Run;
    if es :| Saves(s, es, id) {
      if id !in s.stored && (id in s.inflight ==> s.inflight[id] !in s.landed) {
        NeverSaved(s, es, id);
        assert false;
      }
    }
    if id in s.stored || (id in s.inflight && s.inflight[id] in s.landed) {
      var es := SavingRun(s, id);
      assert Saves(s, es, id);
    }
  }

  lemma SavingRun(s: State, id: JobId) returns (es: seq<Event>)
    requires Good(s) && id in s.m.unsaved && (id in s.stored || (id in s.inflight && s.inflight[id] in s.landed))
    ensures Saves(s, es, id)
  {
    hide Good, Evicted;
    UnsavedLive(s, id);
    if id !in s.inflight {
      NextLands(s, id);
      es := [Save(id), Land(|s.issued|), Report(id, true, 0), Report(id, true, 0)];
      Four(s, es);
      SavedReport(Step(Step(s, es[0]), es[1]), id);
    } else if s.inflight[id] in s.landed {
      es := [Report(id, true, 0), Report(id, true, 0), Report(id, true, 0), Report(id, true, 0)];
      Four(s, es);
      SavedReport(s, id);
    } else {
      NeverStale(s, id);
      var n := s.inflight[id];
      es := [Land(n), Report(id, true, 0), Report(id, true, 0), Report(id, true, 0)];
      Four(s, es);
      SavedReport(Step(s, es[0]), id);
    }
  }

  lemma UnsavedLive(s: State, id: JobId)
    requires Good(s) && id in s.m.unsaved
    ensures id in s.m.live && (Savable(s.m, id) <==> id !in s.inflight)
  {
    assert LiveGood(s, id);
  }

  /** A report of a write that landed saves the job, and no later one undoes it. */
  lemma SavedReport(s: State, id: JobId)
    requires id in s.inflight && id in s.m.live && s.inflight[id] in s.landed
    ensures var s1 := Step(s, Report(id, true, 0)); id !in s1.m.unsaved && id !in s1.inflight && Step(s1, Report(id, true, 0)) == s1
  {
    hide Leaving;
  }

  /** The steps that lose it: a job ends, its write lands and reports failure,
      and its record is swept. */
  lemma SweptUnsaved(s: State, id: JobId, now: Time)
    requires Good(s) && Savable(s.m, id) && id in s.stored
    ensures var s4 := Run(s, [Save(id), Land(|s.issued|), Report(id, false, now), Sweep(id)]);
            Good(s4) && id in s4.m.unsaved && id !in s4.stored && id !in s4.inflight
  {
    hide Good, Evicted;
    var es := [Save(id), Land(|s.issued|), Report(id, false, now), Sweep(id)];
    RunKeeps(s, es);
    SaveAbove(s, id);
    SavableEnded(s, id);
    var s1 := Step(s, es[0]);
    assert s1.stored == s.stored && s1.inflight[id] == |s.issued|;
    var s2 := Step(s1, es[1]);
    assert id in s2.stored && s2.stored[id].state == Done && s2.m == s1.m;
    var s3 := Step(s2, es[2]);
    var s4 := Step(s3, es[3]);
    Four(s, es);
  }

  lemma SavableEnded(s: State, id: JobId)
    requires Good(s) && Savable(s.m, id)
    ensures id in s.m.unsaved
  {
    assert LiveGood(s, id);
  }

  lemma Four(s: State, es: seq<Event>)
    requires |es| == 4
    ensures Run(s, es) == Step(Step(Step(Step(s, es[0]), es[1]), es[2]), es[3])
  {
    hide Step;
    assert es[..3][..2] == es[..2] && es[..2][..1] == es[..1] && es[..1][..0] == [];
    assert Run(s, es[..1]) == Step(s, es[0]);
    assert Run(s, es[..2]) == Step(Run(s, es[..1]), es[1]);
    assert Run(s, es[..3]) == Step(Run(s, es[..2]), es[2]);
  }

  /** A new store gets there: one job begun, ended, and saved without knowing. */
  function Lost(job: Job, change: Job -> Job, now: Time): seq<Event> {
    [Insert(job, true), Begin(job.id), Change(job.id, change, now), Save(job.id)] + [Land(0), Report(job.id, false, now), Sweep(job.id)]
  }

  lemma LostForGood(job: Job, change: Job -> Job, now: Time)
    requires forall j: Job :: change(j).state == Done
    ensures var s := Run(START, Lost(job, change, now));
            && Good(s) && job.id in s.m.unsaved && job.id !in s.stored && job.id !in s.inflight
            && !exists es :: Saves(s, es, job.id)
  {
    var es := Lost(job, change, now);
    var id := job.id;
    var begun, rest := es[..4], es[4..];
    StartGood();
    RunKeeps(START, es);
    EndedSaving(job, change, now);
    assert es == begun + rest && begun == [Insert(job, true), Begin(id), Change(id, change, now), Save(id)];
    hide Good, Step, Evicted;
    RunJoin(START, begun, rest);
    var s4 := Run(START, begun);
    Three(s4, rest);
    SweptLast(s4, id, now);
    SavableExactly(Run(START, es), id);
  }

  lemma EndedSaving(job: Job, change: Job -> Job, now: Time)
    requires forall j: Job :: change(j).state == Done
    ensures var id := job.id;
            var s := Run(START, [Insert(job, true), Begin(id), Change(id, change, now), Save(id)]);
            && id in s.m.live && id in s.m.unsaved && id in s.stored && s.inflight == map[id := 0] && |s.issued| == 1
            && s.issued[0].id == id && s.issued[0].state == Done && s.issued[0].rev > s.stored[id].rev
  {
    var id := job.id;
    var es := [Insert(job, true), Begin(id), Change(id, change, now), Save(id)];
    Four(START, es);
    var s1 := Step(START, es[0]);
    assert id in s1.stored && s1.stored[id].rev == 1 && s1.stored[id].state == Queued && s1.begun == map[id := true] && s1.m == START.m;
    var s2 := Step(s1, es[1]);
    assert s2.m.live == map[id := Live(s1.stored[id], true, true, false, 0)] && s2.stored == s1.stored && s2.inflight == map[] && s2.issued == [];
    var s3 := Step(s2, es[2]);
    assert s3.m.live[id].job.state == Done && s3.m.live[id].job.rev == 2 && s3.m.live[id].job.id == id && !s3.m.live[id].durable && !s3.m.live[id].saving;
    assert s3.stored == s1.stored && s3.inflight == map[] && s3.issued == [];
  }

  lemma SweptLast(s: State, id: JobId, now: Time)
    requires id in s.m.live && id in s.m.unsaved && id in s.stored && s.inflight == map[id := 0] && |s.issued| == 1
    requires s.issued[0].id == id && s.issued[0].state == Done && s.issued[0].rev > s.stored[id].rev
    ensures var s1 := Step(Step(Step(s, Land(0)), Report(id, false, now)), Sweep(id));
            id in s1.m.unsaved && id !in s1.stored && id !in s1.inflight
  {
    hide Evicted;
    var s1 := Step(s, Land(0));
    assert s1.m == s.m && s1.inflight == s.inflight && id in s1.stored && s1.stored[id].state == Done;
    var s2 := Step(s1, Report(id, false, now));
    assert s2.stored == s1.stored && s2.m.unsaved == s.m.unsaved && s2.inflight == map[];
  }

  lemma {:induction false} RunJoin(s: State, a: seq<Event>, b: seq<Event>)
    ensures Run(s, a + b) == Run(Run(s, a), b)
  {
    hide Step;
    if b == [] {
      assert a + b == a;
    } else {
      var init := b[..|b| - 1];
      assert (a + b)[..|a + b| - 1] == a + init;
      RunJoin(s, a, init);
    }
  }

  lemma Three(s: State, es: seq<Event>)
    requires |es| == 3
    ensures Run(s, es) == Step(Step(Step(s, es[0]), es[1]), es[2])
  {
    hide Step;
    assert es[..2][..1] == es[..1] && es[..1][..0] == [];
    assert Run(s, es[..1]) == Step(s, es[0]);
    assert Run(s, es[..2]) == Step(Run(s, es[..1]), es[1]);
  }
}
