/** How a job ended, as every copy of its record tells it: the live one, the
    stored one and the writes on their way. */
module JobEnds {
  import opened JobStates
  import opened JobRuns

  /** Apart from the revision, which each attempt to store it raises. */
  predicate SameEnd(a: Job, b: Job) {
    b == a.(rev := b.rev)
  }

  /** A copy of id's record that tells of its end. */
  ghost predicate Tells(s: State, id: JobId, j: Job) {
    && j.state == Done
    && (|| (id in s.m.live && s.m.live[id].job == j)
        || (id in s.stored && s.stored[id] == j)
        || (j.id == id && exists n :: 0 <= n < |s.issued| && s.issued[n] == j))
  }

  /** No copy tells of an end before it, and all tell of one end after. */
  ghost predicate OneEnd(s: State, id: JobId) {
    && (id !in s.ended ==> forall j :: !Tells(s, id, j))
    && (forall i, j | Tells(s, id, i) && Tells(s, id, j) :: SameEnd(i, j))
  }

  predicate StoredDone(s: State, id: JobId) {
    id in s.stored && s.stored[id].state == Done
  }

  /* ---------- One step ---------- */

  lemma Fewer(s: State, e: Event, id: JobId, j: Job)
    requires (e.Expire? || e.Report? || e.Sweep? || e.Abandon?) && Tells(Step(s, e), id, j)
    ensures Tells(s, id, j)
  {
  }

  lemma SavedTold(s: State, e: Event, id: JobId, j: Job)
    requires Good(s) && e.Save? && Tells(Step(s, e), id, j)
    ensures Tells(s, id, j) || (id in s.m.live && Tells(s, id, s.m.live[id].job) && SameEnd(s.m.live[id].job, j))
  {
    if Savable(s.m, e.id) {
      assert LiveGood(s, e.id);
    }
  }

  /** What an event leaves of an ended job: copies told before, if only at a
      higher revision. */
  lemma ToldBefore(s: State, e: Event, id: JobId, j: Job)
    requires Good(s) && id in s.ended && !e.Restart? && Tells(Step(s, e), id, j)
    ensures exists i :: Tells(s, id, i) && SameEnd(i, j)
  {
    assert id in s.m.live ==> LiveGood(s, id);
    if e.Expire? || e.Report? || e.Sweep? || e.Abandon? {
      Fewer(s, e, id, j);
    } else if e.Save? {
      SavedTold(s, e, id, j);
    } else {
      hide Evicted;
      assert Tells(s, id, j);
    }
    assert SameEnd(j, j);
  }

  /** After a restart a copy is the stored record, ended as interrupted when
      it had not ended. */
  lemma ToldAfterRestart(s: State, now: Time, id: JobId, j: Job)
    requires Good(s) && Tells(Step(s, Restart(now)), id, j)
    ensures id in s.stored && j == Interrupt(s.stored[id], now)
    ensures id !in Step(s, Restart(now)).ended ==> Tells(s, id, s.stored[id])
  {
  }

  /** A stored end is replaced by another copy of an end, or swept; what is
      swept is not stored again. */
  lemma StillDone(s: State, e: Event, id: JobId)
    requires Good(s) && id in s.ended && (id in s.stored ==> StoredDone(s, id))
    ensures id in Step(s, e).stored ==> StoredDone(Step(s, e), id)
  {
    hide Evicted;
  }

  /** An event that ends a job: its copies are the one it made. */
  lemma FirstTold(s: State, e: Event, id: JobId, j: Job)
    requires Good(s) && id !in s.ended && !e.Restart? && Tells(Step(s, e), id, j)
    ensures Tells(s, id, j) || (id in Step(s, e).ended && id in Step(s, e).m.live && j == Step(s, e).m.live[id].job)
  {
    hide Evicted;
    assert id in s.m.live ==> LiveGood(s, id);
    if e.Expire? || e.Report? {
      Fewer(s, e, id, j);
    }
  }

  lemma StepOneEnd(s: State, e: Event, id: JobId)
    requires Good(s) && OneEnd(s, id)
    ensures OneEnd(Step(s, e), id)
  {
    hide Good, Step, Tells;
    forall j | Tells(Step(s, e), id, j)
      ensures id in Step(s, e).ended
    {
      EndedStays(s, e, id);
      if e.Restart? {
        ToldAfterRestart(s, e.now, id, j);
      } else if id !in s.ended {
        FirstTold(s, e, id, j);
      }
    }
    forall i, j | Tells(Step(s, e), id, i) && Tells(Step(s, e), id, j)
      ensures SameEnd(i, j)
    {
      if e.Restart? {
        ToldAfterRestart(s, e.now, id, i);
        ToldAfterRestart(s, e.now, id, j);
      } else if id in s.ended {
        ToldBefore(s, e, id, i);
        ToldBefore(s, e, id, j);
      } else {
        FirstTold(s, e, id, i);
        FirstTold(s, e, id, j);
      }
    }
  }

  lemma EndedStays(s: State, e: Event, id: JobId)
    ensures s.ended <= Step(s, e).ended
  {
  }

  lemma {:induction false} RunOneEnd(es: seq<Event>, id: JobId)
    ensures Good(Run(START, es)) && OneEnd(Run(START, es), id)
  {
    hide Good, Step, OneEnd;
    StartGood();
    RunKeeps(START, es);
    if es == [] {
      StartOneEnd(id);
    } else {
      RunOneEnd(es[..|es| - 1], id);
      StepOneEnd(Run(START, es[..|es| - 1]), es[|es| - 1], id);
    }
  }

  lemma StartOneEnd(id: JobId)
    ensures OneEnd(START, id)
  {
  }

  /* ---------- Whole runs ---------- */

  /** However a job ended, every copy of its record, live, stored or on its way
      to be, tells of that end for as long as the process runs: its outcome,
      time and facts are those it ended with. */
  lemma {:induction false} EndStays(before: seq<Event>, es: seq<Event>, id: JobId, i: Job, j: Job)
    requires forall n | 0 <= n < |es| :: !es[n].Restart?
    requires Tells(Run(START, before), id, i) && Tells(Run(Run(START, before), es), id, j)
    ensures SameEnd(i, j)
  {
    hide Good, Step, Tells;
    var s := Run(START, before);
    RunOneEnd(before, id);
    RunKeeps(s, es);
    if es != [] {
      var init := es[..|es| - 1];
      RunKeeps(s, init);
      RunEnded(s, init, id);
      ToldBefore(Run(s, init), es[|es| - 1], id, j);
      var k :| Tells(Run(s, init), id, k) && SameEnd(k, j);
      EndStays(before, init, id, i, k);
    }
  }

  lemma {:induction false} RunEnded(s: State, es: seq<Event>, id: JobId)
    ensures s.ended <= Run(s, es).ended
  {
    hide Step;
    if es != [] {
      RunEnded(s, es[..|es| - 1], id);
      EndedStays(Run(s, es[..|es| - 1]), es[|es| - 1], id);
    }
  }

  /** An end that is stored, and which every copy tells of. */
  ghost predicate Settled(s: State, id: JobId, end: Job) {
    id in s.ended && (id in s.stored ==> StoredDone(s, id)) && forall j | Tells(s, id, j) :: SameEnd(end, j)
  }

  lemma StepSettled(s: State, e: Event, id: JobId, end: Job)
    requires Good(s) && Settled(s, id, end)
    ensures Settled(Step(s, e), id, end)
  {
    hide Good, Step, Tells;
    EndedStays(s, e, id);
    StillDone(s, e, id);
    forall j | Tells(Step(s, e), id, j)
      ensures SameEnd(end, j)
    {
      if e.Restart? {
        ToldAfterRestart(s, e.now, id, j);
        StoredTells(s, id);
      } else {
        ToldBefore(s, e, id, j);
      }
    }
  }

  lemma StoredTells(s: State, id: JobId)
    requires StoredDone(s, id)
    ensures Tells(s, id, s.stored[id])
  {
  }

  lemma {:induction false} RunSettled(s: State, es: seq<Event>, id: JobId, end: Job)
    requires Good(s) && Settled(s, id, end)
    ensures Settled(Run(s, es), id, end)
  {
    hide Good, Step, Settled;
    if es != [] {
      RunSettled(s, es[..|es| - 1], id, end);
      RunKeeps(s, es[..|es| - 1]);
      StepSettled(Run(s, es[..|es| - 1]), es[|es| - 1], id, end);
    }
  }

  /** Once an end is stored no restart changes it either: for good, every copy
      of the record tells of it, and the stored one tells of it or is gone. */
  lemma StoredEndStays(before: seq<Event>, es: seq<Event>, id: JobId)
    requires var s := Run(START, before); id in s.stored && s.stored[id].state == Done
    ensures var s, s1 := Run(START, before), Run(Run(START, before), es);
            && (id in s1.stored ==> SameEnd(s.stored[id], s1.stored[id]))
            && (id in s1.m.live ==> SameEnd(s.stored[id], s1.m.live[id].job))
  {
    hide Good, Step, Run;
    var s := Run(START, before);
    RunOneEnd(before, id);
    StoredTells(s, id);
    RunSettled(s, es, id, s.stored[id]);
    RunKeeps(s, es);
    if id in Run(s, es).m.live {
      LiveTells(Run(s, es), id);
    }
  }

  lemma LiveTells(s: State, id: JobId)
    requires Good(s) && id in s.ended && id in s.m.live
    ensures Tells(s, id, s.m.live[id].job)
  {
    assert LiveGood(s, id);
  }

  /** A new process over the records of the last: one that had not ended ends
      as interrupted, the others stay; what is live is of the former, and has
      no end left to store. */
  lemma RestartEnds(before: seq<Event>, now: Time, id: JobId)
    ensures var s := Run(START, before);
            var s1 := Step(s, Restart(now));
            && (id in s1.stored <==> id in s.stored)
            && (id in s.stored && s.stored[id].state == Done ==> s1.stored[id] == s.stored[id])
            && (id in s.stored && s.stored[id].state != Done ==>
                  s1.stored[id] == s.stored[id].(state := Done, outcome := Interrupted, cancellable := false, ended := now, rev := s.stored[id].rev + 1))
            && (id in s1.m.live ==>
                  && id in s.stored && s.stored[id].state != Done && s1.m.live[id].job == s1.stored[id]
                  && s1.m.live[id].durable && !s1.m.live[id].stop)
            && s1.m.unsaved == {} && s1.inflight == map[]
  {
    hide Run, Leaving;
  }
}
