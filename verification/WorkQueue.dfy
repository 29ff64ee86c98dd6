/** The queue of instances to work on: one row an instance, its generation
    telling an acknowledgement of an older run from one of the newest. */
module WorkQueue {
  import opened Wrappers
  import opened Bytes
  import opened KeyBytes

  type InstId = nat
  type Time = int

  datatype Cause = Scan | Import | Item

  /** A queued instance; no time is due at once. */
  datatype Row = Row(order: nat, gen: nat, cause: Cause, notBefore: Option<Time>, firstDeferral: Option<Time>)
  /** A row as NextWork read it. */
  datatype Work = Work(inst: InstId, gen: nat, cause: Cause)

  datatype Queue = Queue(known: set<InstId>, rows: map<InstId, Row>, last: nat)

  const MAX_WORK_LIMIT := 1000

  function CauseByte(c: Cause): nat {
    match c case Scan => 1 case Import => 2 case Item => 3
  }

  function Higher(a: Cause, b: Cause): Cause {
    if CauseByte(a) >= CauseByte(b) then a else b
  }

  /* ---------- What each call does ---------- */

  /** A known instance is queued: a new row at the next position, a stored one
      where it is, at the higher cause and the next generation, due at once. */
  function Enqueued(q: Queue, id: InstId, cause: Cause): Queue {
    if id !in q.known then q
    else if id in q.rows then q.(rows := q.rows[id := q.rows[id].(cause := Higher(q.rows[id].cause, cause), gen := q.rows[id].gen + 1, notBefore := None)])
    else q.(last := q.last + 1, rows := q.rows[id := Row(q.last + 1, 1, cause, None, None)])
  }

  predicate Current(q: Queue, w: Work) {
    w.inst in q.rows && q.rows[w.inst].gen == w.gen
  }

  function Acked(q: Queue, w: Work): Queue {
    if Current(q, w) then q.(rows := q.rows - {w.inst}) else q
  }

  function Deferred(q: Queue, w: Work, notBefore: Time, now: Time): Queue {
    if !Current(q, w) then q
    else
      var row := q.rows[w.inst];
      q.(rows := q.rows[w.inst := row.(notBefore := Some(notBefore), firstDeferral := if row.firstDeferral.None? then Some(now) else row.firstDeferral)])
  }

  /** An instance deleted takes its row with it, and its number never comes
      back. */
  function Deleted(q: Queue, id: InstId): Queue {
    q.(known := q.known - {id}, rows := q.rows - {id})
  }

  datatype Event =
    | Enqueue(id: InstId, cause: Cause)
    | Ack(work: Work)
    | Defer(work: Work, notBefore: Time, now: Time)
    | Delete(id: InstId)

  function Step(q: Queue, e: Event): Queue {
    match e
    case Enqueue(id, cause) => Enqueued(q, id, cause)
    case Ack(w) => Acked(q, w)
    case Defer(w, notBefore, now) => Deferred(q, w, notBefore, now)
    case Delete(id) => Deleted(q, id)
  }

  function Run(q: Queue, es: seq<Event>): Queue {
    if es == [] then q else Step(Run(q, es[..|es| - 1]), es[|es| - 1])
  }

  /* ---------- Acknowledging ---------- */

  /** How many of the events queued an instance. */
  function Enqueues(es: seq<Event>, id: InstId): nat {
    if es == [] then 0
    else Enqueues(es[..|es| - 1], id) + (if es[|es| - 1].Enqueue? && es[|es| - 1].id == id then 1 else 0)
  }

  predicate Untouched(es: seq<Event>, id: InstId) {
    forall i | 0 <= i < |es| :: !(es[i].Ack? && es[i].work.inst == id)
  }

  /** While none of its rows is acknowledged, a queued instance's generation
      counts the enqueues since, unless the instance goes. */
  lemma {:induction false} GenerationCounts(q: Queue, es: seq<Event>, id: InstId)
    requires id in q.rows && id in q.known && Untouched(es, id)
    ensures var q1 := Run(q, es);
            if id in q1.known then id in q1.rows && q1.rows[id].gen == q.rows[id].gen + Enqueues(es, id) && q1.rows[id].order == q.rows[id].order
            else id !in q1.rows
  {
    if es != [] {
      GenerationCounts(q, es[..|es| - 1], id);
    }
  }

  /** A drainer that acknowledges a row once before it reads again removes it
      exactly when nothing queued the instance since: an enqueue committed
      after the read is never removed, nor put off. */
  lemma AckExactly(q: Queue, es: seq<Event>, w: Work, notBefore: Time, now: Time)
    requires Current(q, w) && w.inst in q.known && Untouched(es, w.inst) && w.inst in Run(q, es).known
    ensures var q1 := Run(q, es);
            && w.inst in q1.rows
            && (w.inst !in Acked(q1, w).rows <==> Enqueues(es, w.inst) == 0)
            && (Enqueues(es, w.inst) > 0 ==> Acked(q1, w) == q1 && Deferred(q1, w, notBefore, now) == q1)
  {
    GenerationCounts(q, es, w.inst);
  }

  /** Acknowledging one read twice can remove a later enqueue: the row queued
      afresh starts at the first generation again. */
  lemma AckTwice(known: set<InstId>, id: InstId, last: nat)
    requires id in known
    ensures var q := Enqueued(Queue(known, map[], last), id, Scan);
            var w := Work(id, 1, Scan);
            Current(q, w) && id !in Run(q, [Ack(w), Enqueue(id, Item), Ack(w)]).rows
  {
    var q := Enqueued(Queue(known, map[], last), id, Scan);
    var w := Work(id, 1, Scan);
    var es := [Ack(w), Enqueue(id, Item), Ack(w)];
    assert es[..2][..1] == es[..1] && es[..1][..0] == [];
    assert Run(q, es[..1]) == Acked(q, w);
    assert Run(q, es[..2]) == Enqueued(Acked(q, w), id, Item);
  }

  /** Once a row is acknowledged and gone, the generation of the row queued
      afresh counts from one again. */
  lemma {:induction false} CountsAfresh(q: Queue, es: seq<Event>, id: InstId)
    requires id !in q.rows && id in q.known && Untouched(es, id) && id in Run(q, es).known
    ensures var q1 := Run(q, es);
            if Enqueues(es, id) == 0 then id !in q1.rows else id in q1.rows && q1.rows[id].gen == Enqueues(es, id)
  {
    if es != [] {
      CountsAfresh(q, es[..|es| - 1], id);
    }
  }

  /** So acknowledging one read a second time removes a later enqueue exactly
      when the instance was queued since as often as it had been at the read. */
  lemma AckAgain(q: Queue, es: seq<Event>, w: Work)
    requires Current(q, w) && w.inst in q.known && w.gen > 0 && Untouched(es, w.inst)
    requires w.inst in Run(Acked(q, w), es).known
    ensures var q1 := Run(Acked(q, w), es);
            && (w.inst in q1.rows <==> Enqueues(es, w.inst) > 0)
            && (w.inst in q1.rows && w.inst !in Acked(q1, w).rows <==> Enqueues(es, w.inst) == w.gen)
  {
    CountsAfresh(Acked(q, w), es, w.inst);
  }

  /* ---------- The order ---------- */

  /** Every row's position was given out, once. */
  ghost predicate Ordered(q: Queue) {
    && (forall id | id in q.rows :: id in q.known && 0 < q.rows[id].order <= q.last && q.rows[id].gen > 0)
    && (forall a, b | a in q.rows && b in q.rows && a != b :: q.rows[a].order != q.rows[b].order)
  }

  lemma StepOrdered(q: Queue, e: Event)
    requires Ordered(q)
    ensures Ordered(Step(q, e))
  {
  }

  lemma {:induction false} RunOrdered(q: Queue, es: seq<Event>)
    requires Ordered(q)
    ensures Ordered(Run(q, es))
  {
    if es != [] {
      RunOrdered(q, es[..|es| - 1]);
      StepOrdered(Run(q, es[..|es| - 1]), es[|es| - 1]);
    }
  }

  /** The order index's key: the cause counted down from Item, then the
      position. */
  function OrderKey(r: Row): Bytes {
    [3 - CauseByte(r.cause)] + BigEndian(r.order, 8)
  }

  /** Item before Import before Scan, and within a cause the first queued. */
  predicate Before(a: Row, b: Row) {
    || (a.cause == Item && b.cause != Item) || (a.cause == Import && b.cause == Scan)
    || (a.cause == b.cause && a.order < b.order)
  }

  /** Byte order of the index is cause, highest first, then enqueue order. */
  lemma IndexOrder(a: Row, b: Row)
    requires a.order <= MAX_UINT64 && b.order <= MAX_UINT64
    ensures Less(OrderKey(a), OrderKey(b)) <==> Before(a, b)
  {
    Widths();
    var x, y := BigEndian(a.order, 8), BigEndian(b.order, 8);
    assert OrderKey(a)[1..] == x && OrderKey(b)[1..] == y;
    if a.order < b.order {
      BigEndianOrder(a.order, b.order, 8);
    } else if b.order < a.order {
      BigEndianOrder(b.order, a.order, 8);
    }
    LessTotal(x, y);
  }

  predicate Due(r: Row, now: Time) {
    match r.notBefore case None => true case Some(t) => t <= now
  }

  /** id's row once it is queued for a cause: due at once, at the higher of its
      causes, where it was in the order or after every row there was. */
  predicate QueuedAt(q: Queue, q1: Queue, id: InstId, cause: Cause) {
    && id in q1.rows
    && var row := q1.rows[id];
       && row.notBefore.None?
       && (row.cause == Item <==> cause == Item || (id in q.rows && q.rows[id].cause == Item))
       && (row.cause == Scan <==> cause == Scan && (id in q.rows ==> q.rows[id].cause == Scan))
       && if id in q.rows then row.order == q.rows[id].order && row.firstDeferral == q.rows[id].firstDeferral
          else row.order > q.last && row.firstDeferral.None?
  }

  predicate RowSame(q: Queue, q1: Queue, id: InstId) {
    (id in q1.rows <==> id in q.rows) && (id in q.rows ==> q1.rows[id] == q.rows[id])
  }

  lemma QueuedNow(q: Queue, id: InstId, cause: Cause)
    requires id in q.known
    ensures QueuedAt(q, Enqueued(q, id, cause), id, cause) && q.last <= Enqueued(q, id, cause).last
    ensures forall x | x != id :: RowSame(q, Enqueued(q, id, cause), x)
  {
  }

  lemma QueuedTwice(q: Queue, q1: Queue, q2: Queue, id: InstId, cause: Cause)
    requires QueuedAt(q, q1, id, cause) && QueuedAt(q1, q2, id, cause)
    ensures QueuedAt(q, q2, id, cause)
  {
  }

  /** What queuing the first n of ids leaves. */
  ghost predicate AllQueued(q: Queue, q1: Queue, ids: seq<InstId>, n: nat, cause: Cause)
    requires n <= |ids|
  {
    && q1.known == q.known && q.last <= q1.last
    && (forall i | 0 <= i < n && ids[i] in q.known :: QueuedAt(q, q1, ids[i], cause))
    && (forall id | id !in q.known || id !in ids[..n] :: RowSame(q, q1, id))
  }

  lemma AllQueuedNext(q: Queue, q1: Queue, ids: seq<InstId>, n: nat, cause: Cause)
    requires n < |ids| && AllQueued(q, q1, ids, n, cause)
    ensures AllQueued(q, Enqueued(q1, ids[n], cause), ids, n + 1, cause)
  {
    hide QueuedAt, Enqueued;
    assert ids[..n + 1] == ids[..n] + [ids[n]];
    var q2 := Enqueued(q1, ids[n], cause);
    if ids[n] !in q.known {
      NotQueued(q1, ids[n], cause);
    } else {
      QueuedNow(q1, ids[n], cause);
      QueuedKnown(q1, ids[n], cause);
      if ids[n] in ids[..n] {
        var i :| 0 <= i < n && ids[i] == ids[n];
        QueuedTwice(q, q1, q2, ids[n], cause);
      } else {
        QueuedFirst(q, q1, q2, ids[n], cause);
      }
      forall i | 0 <= i < n + 1 && ids[i] in q.known
        ensures QueuedAt(q, q2, ids[i], cause)
      {
        if ids[i] != ids[n] {
          QueuedOn(q, q1, q2, ids[i], cause);
        }
      }
      forall id | id !in q.known || id !in ids[..n + 1]
        ensures RowSame(q, q2, id)
      {
        assert RowSame(q, q1, id) && RowSame(q1, q2, id);
      }
    }
  }

  lemma NotQueued(q: Queue, id: InstId, cause: Cause)
    requires id !in q.known
    ensures Enqueued(q, id, cause) == q
  {
  }

  lemma QueuedKnown(q: Queue, id: InstId, cause: Cause)
    ensures Enqueued(q, id, cause).known == q.known
  {
  }

  lemma QueuedFirst(q: Queue, q1: Queue, q2: Queue, id: InstId, cause: Cause)
    requires RowSame(q, q1, id) && q.last <= q1.last && QueuedAt(q1, q2, id, cause)
    ensures QueuedAt(q, q2, id, cause)
  {
  }

  lemma QueuedOn(q: Queue, q1: Queue, q2: Queue, id: InstId, cause: Cause)
    requires QueuedAt(q, q1, id, cause) && RowSame(q1, q2, id)
    ensures QueuedAt(q, q2, id, cause)
  {
  }

  ghost predicate FirstInOrder(q: Queue, ids: set<InstId>, id: InstId)
    requires ids <= q.rows.Keys
  {
    id in ids && forall x | x in ids :: x == id || Before(q.rows[id], q.rows[x])
  }

  lemma {:induction false} FirstExists(q: Queue, ids: set<InstId>) returns (id: InstId)
    requires Ordered(q) && ids <= q.rows.Keys && ids != {}
    ensures FirstInOrder(q, ids, id)
    decreases |ids|
  {
    id :| id in ids;
    var rest := ids - {id};
    if rest != {} {
      var t := FirstExists(q, rest);
      forall x | x in ids
        ensures Before(q.rows[t], q.rows[id]) ==> x == t || Before(q.rows[t], q.rows[x])
        ensures !Before(q.rows[t], q.rows[id]) ==> x == id || Before(q.rows[id], q.rows[x])
      {
        assert x != id ==> x in rest;
        assert t in rest && t != id && q.rows[t].order != q.rows[id].order;
      }
      if Before(q.rows[t], q.rows[id]) {
        id := t;
      }
    } else {
      assert ids == {id};
    }
  }

  /** What a drainer is given: due rows as they are, in order, and none left
      out before one that is given, nor at all short of the limit. */
  ghost predicate Served(q: Queue, now: Time, limit: nat, out: seq<Work>) {
    && |out| <= limit
    && (forall i | 0 <= i < |out| :: Current(q, out[i]) && out[i].cause == q.rows[out[i].inst].cause && (q.rows[out[i].inst].notBefore.Some? ==> q.rows[out[i].inst].notBefore.value <= now))
    && (forall i, j | 0 <= i < j < |out| :: Before(q.rows[out[i].inst], q.rows[out[j].inst]))
    && (forall id | id in q.rows && (q.rows[id].notBefore.Some? ==> q.rows[id].notBefore.value <= now) ::
          || (exists i :: 0 <= i < |out| && out[i].inst == id)
          || (|out| == limit && forall i | 0 <= i < |out| :: Before(q.rows[out[i].inst], q.rows[id])))
  }

  /** What a scan of the index has given so far, rest being still to come. */
  ghost predicate Serving(q: Queue, now: Time, out: seq<Work>, rest: set<InstId>)
    requires rest <= q.rows.Keys
  {
    && (forall i | 0 <= i < |out| :: Current(q, out[i]) && out[i].cause == q.rows[out[i].inst].cause && Due(q.rows[out[i].inst], now))
    && (forall i, j | 0 <= i < j < |out| :: Before(q.rows[out[i].inst], q.rows[out[j].inst]))
    && (forall i, x | 0 <= i < |out| && x in rest :: Before(q.rows[out[i].inst], q.rows[x]))
    && (forall x | x in q.rows && x !in rest && Due(q.rows[x], now) :: exists i :: 0 <= i < |out| && out[i].inst == x)
  }

  lemma ServeNothing(q: Queue, now: Time)
    ensures Serving(q, now, [], q.rows.Keys)
  {
  }

  lemma ServeOne(q: Queue, now: Time, out: seq<Work>, rest: set<InstId>, id: InstId)
    requires rest <= q.rows.Keys && Serving(q, now, out, rest) && FirstInOrder(q, rest, id) && Due(q.rows[id], now)
    ensures Serving(q, now, out + [Work(id, q.rows[id].gen, q.rows[id].cause)], rest - {id})
  {
    hide Due, Before;
    var more := out + [Work(id, q.rows[id].gen, q.rows[id].cause)];
    forall x | x in q.rows && x !in rest - {id} && Due(q.rows[x], now)
      ensures exists i :: 0 <= i < |more| && more[i].inst == x
    {
      if x == id {
        assert more[|out|].inst == x;
      } else {
        var i :| 0 <= i < |out| && out[i].inst == x;
        assert more[i].inst == x;
      }
    }
  }

  lemma ServeNone(q: Queue, now: Time, out: seq<Work>, rest: set<InstId>, id: InstId)
    requires rest <= q.rows.Keys && Serving(q, now, out, rest) && id in rest && !Due(q.rows[id], now)
    ensures Serving(q, now, out, rest - {id})
  {
    hide Due, Before;
  }

  lemma ServedAll(q: Queue, now: Time, limit: nat, out: seq<Work>, rest: set<InstId>)
    requires rest <= q.rows.Keys && Serving(q, now, out, rest) && |out| <= limit && (rest == {} || |out| == limit)
    ensures Served(q, now, limit, out)
  {
    hide Before;
  }

  class Store {
    var known: set<InstId>
    var rows: map<InstId, Row>
    var last: nat
    /** The one wake the drainer waits on. */
    var ready: bool

    function Value(): Queue
      reads this
    {
      Queue(known, rows, last)
    }

    constructor (known: set<InstId>)
      ensures Value() == Queue(known, map[], 0) && Ordered(Value())
    {
      this.known, rows, last, ready := known, map[], 0, false;
    }

    method EnqueueOne(id: InstId, cause: Cause) returns (queued: bool)
      modifies this`rows, this`last
      ensures Value() == Enqueued(old(Value()), id, cause) && queued == (id in known)
    {
      if id !in known {
        return false;
      }
      if id in rows {
        var row := rows[id];
        rows := rows[id := row.(cause := Higher(row.cause, cause), gen := row.gen + 1, notBefore := None)];
      } else {
        last := last + 1;
        rows := rows[id := Row(last, 1, cause, None, None)];
      }
      queued := true;
    }

    /** Each known instance queued; the drainer is woken when any was. */
    method EnqueueWork(ids: seq<InstId>, cause: Cause)
      requires Ordered(Value())
      modifies this`rows, this`last, this`ready
      ensures Value() == Run(old(Value()), seq(|ids|, i requires 0 <= i < |ids| => Enqueue(ids[i], cause))) && Ordered(Value())
      ensures ready <==> old(ready) || exists i :: 0 <= i < |ids| && ids[i] in known
      ensures AllQueued(old(Value()), Value(), ids, |ids|, cause)
    {
      hide Ordered, Enqueued, QueuedAt;
      var queued := false;
      ghost var es := seq(|ids|, i requires 0 <= i < |ids| => Enqueue(ids[i], cause));
      for i := 0 to |ids|
        invariant Value() == Run(old(Value()), es[..i]) && Ordered(Value()) && ready == old(ready)
        invariant queued <==> exists j :: 0 <= j < i && ids[j] in known
        invariant AllQueued(old(Value()), Value(), ids, i, cause)
      {
        AllQueuedNext(old(Value()), Value(), ids, i, cause);
        assert es[..i + 1][..i] == es[..i];
        StepOrdered(Value(), es[i]);
        var ok := EnqueueOne(ids[i], cause);
        queued := queued || ok;
      }
      assert es[..|ids|] == es;
      if queued {
        ready := true;
      }
    }

    /** The next rows to work on, at most limit of them and none before its
        time: Item rows lead, and within a cause the longest queued comes
        first. None refuses the limit. */
    method NextWork(limit: int, now: Time) returns (r: Option<seq<Work>>)
      requires Ordered(Value())
      ensures r.Some? <==> 1 <= limit <= 1000
      ensures r.Some? ==> Served(Value(), now, limit, r.value)
    {
      hide Serving, Before, Ordered, Served;
      if limit < 1 || limit > MAX_WORK_LIMIT {
        return None;
      }
      var out: seq<Work> := [];
      var rest := rows.Keys;
      ghost var q := Value();
      ServeNothing(q, now);
      while rest != {} && |out| < limit
        invariant rest <= rows.Keys && |out| <= limit
        invariant Serving(q, now, out, rest)
        decreases |rest|
      {
        ghost var g := FirstExists(q, rest);
        var id :| id in rest && forall x | x in rest :: x == id || Before(rows[id], rows[x]);
        if rows[id].notBefore.None? || rows[id].notBefore.value <= now {
          ServeOne(q, now, out, rest, id);
          out := out + [Work(id, rows[id].gen, rows[id].cause)];
        } else {
          ServeNone(q, now, out, rest, id);
        }
        rest := rest - {id};
      }
      ServedAll(q, now, limit, out, rest);
      r := Some(out);
    }

    method AckWork(ws: seq<Work>)
      modifies this`rows
      ensures Value() == Run(old(Value()), seq(|ws|, i requires 0 <= i < |ws| => Ack(ws[i])))
    {
      ghost var es := seq(|ws|, i requires 0 <= i < |ws| => Ack(ws[i]));
      for i := 0 to |ws|
        invariant Value() == Run(old(Value()), es[..i])
      {
        assert es[..i + 1][..i] == es[..i];
        if ws[i].inst in rows && rows[ws[i].inst].gen == ws[i].gen {
          rows := rows - {ws[i].inst};
        }
      }
      assert es[..|ws|] == es;
    }

    /** The row due no earlier than a time, when it is still as read; its first
        deferral is kept. */
    method DeferWork(w: Work, notBefore: Time, now: Time) returns (first: Option<Time>)
      modifies this`rows
      ensures Value() == Deferred(old(Value()), w, notBefore, now)
      ensures first == if Current(old(Value()), w) then rows[w.inst].firstDeferral else None
      ensures forall id :: (id == w.inst && Current(old(Value()), w)) || RowSame(old(Value()), Value(), id)
      ensures Current(old(Value()), w) ==>
                && w.inst in rows && rows[w.inst].notBefore == Some(notBefore)
                && rows[w.inst].firstDeferral == (match old(rows)[w.inst].firstDeferral case Some(t) => Some(t) case None => Some(now))
                && rows[w.inst] == old(rows)[w.inst].(notBefore := rows[w.inst].notBefore, firstDeferral := rows[w.inst].firstDeferral)
    {
      if w.inst !in rows || rows[w.inst].gen != w.gen {
        return None;
      }
      var row := rows[w.inst];
      row := row.(notBefore := Some(notBefore));
      if row.firstDeferral.None? {
        row := row.(firstDeferral := Some(now));
      }
      rows := rows[w.inst := row];
      first := row.firstDeferral;
    }
  }
}
