/** The two searches for the best shift: a sweep of sorted breakpoints, and a
    dense array of second differences. */
module AlignmentSearch {
  import opened Alignment

  /* ---------- Sorted breakpoints ---------- */

  predicate Ascending(es: seq<Event>) {
    forall i, j | 0 <= i < j < |es| :: es[i].offset <= es[j].offset
  }

  /** One reference span's breakpoints added, cut short at the event cap. */
  method AddRow(r: Span, inc: seq<Span>, prior: seq<Event>) returns (es: seq<Event>, cut: bool)
    ensures !cut ==> es == prior + RowEvents(r, inc)
    ensures cut ==> |prior| + |RowEvents(r, inc)| > MAX_EVENTS
  {
    hide Score, RowEvents;
    es, cut := prior, false;
    RowStart(r);
    for j := 0 to |inc|
      invariant es == prior + RowEvents(r, inc[..j])
    {
      RowStep(r, inc, j);
      RowSize(r, inc, j + 1);
      var s, score := inc[j], Score(r, inc[j]);
      if score != 0.0 {
        if |es| + 4 > MAX_EVENTS {
          return es, true;
        }
        var four := [Event(r.start - s.end, score), Event(r.end - s.end, -score), Event(r.start - s.start, -score), Event(r.end - s.start, score)];
        assert prior + RowEvents(r, inc[..j]) + four == prior + (RowEvents(r, inc[..j]) + four);
        es := es + four;
      }
    }
    assert inc[..|inc|] == inc;
  }

  /** Every scored pair's breakpoints, cut short at the event cap. */
  method BuildEvents(ref: seq<Span>, inc: seq<Span>) returns (es: seq<Event>)
    ensures |AllEvents(ref, inc)| <= MAX_EVENTS ==> es == AllEvents(ref, inc)
  {
    hide RowEvents;
    es := [];
    for i := 0 to |ref|
      invariant es == AllEvents(ref[..i], inc)
    {
      assert ref[..i + 1][..i] == ref[..i];
      RowsSize(ref, inc, i + 1);
      var cut;
      es, cut := AddRow(ref[i], inc, es);
      if cut {
        return;
      }
    }
    assert ref[..|ref|] == ref;
  }

  lemma RowStart(r: Span)
    ensures RowEvents(r, []) == []
  {
  }

  lemma RowStep(r: Span, inc: seq<Span>, j: nat)
    requires j < |inc|
    ensures RowEvents(r, inc[..j + 1]) == RowEvents(r, inc[..j]) + PairEvents(r, inc[j])
  {
    assert inc[..j + 1][..j] == inc[..j];
  }

  lemma {:induction false} RowSize(r: Span, inc: seq<Span>, j: nat)
    requires j <= |inc|
    ensures |RowEvents(r, inc[..j])| <= |RowEvents(r, inc)|
  {
    if j < |inc| {
      assert inc[..|inc| - 1][..j] == inc[..j];
      RowSize(r, inc[..|inc| - 1], j);
    } else {
      assert inc[..j] == inc;
    }
  }

  lemma {:induction false} RowsSize(ref: seq<Span>, inc: seq<Span>, i: nat)
    requires i <= |ref|
    ensures |AllEvents(ref[..i], inc)| <= |AllEvents(ref, inc)|
  {
    if i < |ref| {
      assert ref[..|ref| - 1][..i] == ref[..i];
      RowsSize(ref[..|ref| - 1], inc, i);
    } else {
      assert ref[..i] == ref;
    }
  }

  /** One more event among those sorted, after its equals. */
  method InsertEvent(es: seq<Event>, e: Event) returns (r: seq<Event>)
    requires Ascending(es)
    ensures Ascending(r) && multiset(r) == multiset(es) + multiset{e}
  {
    var k := |es|;
    while k > 0 && es[k - 1].offset > e.offset
      invariant 0 <= k <= |es|
      invariant AllFollow(es, k, e)
    {
      k := k - 1;
    }
    InsertedAscending(es, k, e);
    InsertedSame(es, k, e);
    r := es[..k] + [e] + es[k..];
  }

  predicate AllFollow(es: seq<Event>, k: nat, e: Event)
    requires k <= |es|
  {
    forall j | k <= j < |es| :: es[j].offset > e.offset
  }

  lemma InsertedAscending(es: seq<Event>, k: nat, e: Event)
    requires Ascending(es) && k <= |es| && AllFollow(es, k, e) && (k > 0 ==> es[k - 1].offset <= e.offset)
    ensures Ascending(es[..k] + [e] + es[k..])
  {
  }

  lemma InsertedSame(es: seq<Event>, k: nat, e: Event)
    requires k <= |es|
    ensures multiset(es[..k] + [e] + es[k..]) == multiset(es) + multiset{e}
  {
    assert es == es[..k] + es[k..];
  }

  /** The events by offset. */
  method SortEvents(events: seq<Event>) returns (es: seq<Event>)
    ensures Ascending(es) && multiset(es) == multiset(events)
  {
    hide Ascending;
    es := [];
    SortedNothing();
    for i := 0 to |events|
      invariant Ascending(es) && multiset(es) == multiset(events[..i])
    {
      assert events[..i + 1] == events[..i] + [events[i]];
      es := InsertEvent(es, events[i]);
    }
    assert events[..|events|] == events;
  }

  lemma SortedNothing()
    ensures Ascending([])
  {
  }

  lemma RampRemove(es: seq<Event>, k: nat, d: int)
    requires k < |es|
    ensures Ramp(es, d) == Ramp(es[..k] + es[k + 1..], d) + Term(es[k], d)
  {
    assert es == es[..k] + ([es[k]] + es[k + 1..]);
    RampJoin(es[..k], [es[k]] + es[k + 1..], d);
    RampJoin([es[k]], es[k + 1..], d);
    RampJoin(es[..k], es[k + 1..], d);
  }

  /** The rating does not depend on the order of the events. */
  lemma {:induction false} RampPermuted(a: seq<Event>, b: seq<Event>, d: int)
    requires multiset(a) == multiset(b)
    ensures Ramp(a, d) == Ramp(b, d)
    decreases |b|
  {
    if b == [] {
      assert |multiset(a)| == 0;
    } else {
      hide Term;
      var n := |b| - 1;
      var k := Matching(a, b);
      RampRemove(a, k, d);
      RampPermuted(a[..k] + a[k + 1..], b[..n], d);
    }
  }

  /** Where the last of b is in a, and what is left of both without it. */
  lemma Matching(a: seq<Event>, b: seq<Event>) returns (k: nat)
    requires multiset(a) == multiset(b) && b != []
    ensures k < |a| && a[k] == b[|b| - 1] && multiset(a[..k] + a[k + 1..]) == multiset(b[..|b| - 1])
  {
    var n := |b| - 1;
    assert b[n] in multiset(b);
    assert b[n] in multiset(a);
    assert b[n] in a;
    k :| 0 <= k < |a| && a[k] == b[n];
    WithoutOne(a, k);
    WithoutOne(b, n);
    assert b[..n] + b[n + 1..] == b[..n];
  }

  lemma WithoutOne(s: seq<Event>, k: nat)
    requires k < |s|
    ensures multiset(s[..k] + s[k + 1..]) == multiset(s) - multiset{s[k]}
  {
    var p, q := s[..k], s[k + 1..];
    assert s == p + ([s[k]] + q);
    assert multiset(p + ([s[k]] + q)) == multiset(p) + (multiset{s[k]} + multiset(q));
    assert multiset(p + q) == multiset(p) + multiset(q);
  }

  /* ---------- The sweep of events ---------- */

  /** The best rating met at the first n event offsets, or none above 0. */
  ghost predicate BestSoFar(es: seq<Event>, n: nat, rating: real, offset: int)
    requires n <= |es|
  {
    && rating >= 0.0
    && (forall j | 0 <= j < n :: Ramp(es, es[j].offset) <= rating)
    && (rating > 0.0 ==> exists j :: 0 <= j < n && es[j].offset == offset)
    && (rating > 0.0 ==> Ramp(es, offset) == rating && forall j | 0 <= j < n && es[j].offset < offset :: Ramp(es, es[j].offset) < rating)
  }

  /** Past the last event the rating is back to nothing. */
  ghost predicate Levels(es: seq<Event>) {
    es != [] ==> Ramp(es, es[|es| - 1].offset + 1) <= 0.0
  }

  /** A sweep of the events in order: the rating at each next event's offset,
      and the first offset where it is greatest. */
  method SweepEvents(es: seq<Event>, start: int) returns (best: int, ghost rating: real)
    requires Ascending(es)
    ensures Levels(es) ==> BestSoFar(es, |es|, rating, best)
  {
    hide Ramp, Times, BestSoFar, Levels;
    SweepStart(es, start);
    var derivative, sum, top := 0.0, 0.0, 0.0;
    best := start;
    for i := 0 to |es|
      invariant derivative == Slope(es[..i])
      invariant i < |es| ==> sum == Ramp(es, es[i].offset)
      invariant i < |es| ==> BestSoFar(es, i + 1, top, best)
      invariant i == |es| && (Levels(es) || es == []) ==> BestSoFar(es, |es|, top, best)
    {
      assert es[..i + 1][..i] == es[..i];
      derivative := derivative + es[i].delta;
      var next, gap := es[i].offset, 1;
      if i + 1 < |es| {
        next := es[i + 1].offset;
        gap := next - es[i].offset;
      }
      SweepStep(es, i, es[i].offset + gap);
      sum := sum + Times(derivative, gap);
      if i + 1 < |es| {
        BestStep(es, i + 1, top, best, sum);
      } else {
        BestEnd(es, top, best, sum);
      }
      if sum > top {
        top, best := sum, next;
      }
    }
    rating := top;
  }

  lemma SweepStart(es: seq<Event>, best: int)
    requires Ascending(es)
    ensures es != [] ==> Ramp(es, es[0].offset) == 0.0
    ensures BestSoFar(es, if es == [] then 0 else 1, 0.0, best)
  {
    if es != [] {
      RampZero(es, es[0].offset);
    }
  }

  lemma BestStep(es: seq<Event>, n: nat, top: real, best: int, sum: real)
    requires n < |es| && Ascending(es) && BestSoFar(es, n, top, best) && sum == Ramp(es, es[n].offset)
    ensures if sum > top then BestSoFar(es, n + 1, sum, es[n].offset) else BestSoFar(es, n + 1, top, best)
  {
    hide Ramp;
  }

  lemma BestEnd(es: seq<Event>, top: real, best: int, sum: real)
    requires es != [] && BestSoFar(es, |es|, top, best) && sum == Ramp(es, es[|es| - 1].offset + 1)
    ensures Levels(es) ==> sum <= top
  {
    hide Ramp;
  }

  lemma SweepStep(es: seq<Event>, i: nat, d: int)
    requires i < |es| && Ascending(es) && d >= es[i].offset && (i + 1 < |es| ==> d <= es[i + 1].offset)
    ensures Ramp(es, d) == Ramp(es, es[i].offset) + Times(Slope(es[..i + 1]), d - es[i].offset)
  {
    hide Ramp, Slope, Times;
    var o := es[i].offset;
    RampPrefix(es, i + 1, d);
    RampPrefix(es, i + 1, o);
    RampLine(es[..i + 1], o, d - o);
  }

  /** Between two events the rating is a line, so no offset beats them both. */
  lemma BetweenEvents(es: seq<Event>, i: nat, d: int, top: real, best: int)
    requires Ascending(es) && i + 1 < |es| && es[i].offset <= d < es[i + 1].offset
    requires BestSoFar(es, |es|, top, best)
    ensures Ramp(es, d) <= top && (top > 0.0 && d < best ==> Ramp(es, d) < top)
  {
    hide Ramp, Slope, Times;
    var a, b := es[i].offset, es[i + 1].offset;
    SweepStep(es, i, d);
    SweepStep(es, i, b);
    var slope := Slope(es[..i + 1]);
    if slope <= 0.0 {
      LineFalls(slope, d - a);
    } else {
      LineRises(slope, d - a, b - a);
    }
  }

  lemma LineFalls(slope: real, x: int)
    requires slope <= 0.0 && x >= 0
    ensures Times(slope, x) <= 0.0
  {
  }

  lemma LineRises(slope: real, x: int, y: int)
    requires slope > 0.0 && x < y
    ensures Times(slope, x) < Times(slope, y)
  {
  }

  lemma {:induction false} Bracket(es: seq<Event>, d: int, n: nat) returns (i: nat)
    requires Ascending(es) && n < |es| && es[0].offset <= d < es[n].offset
    ensures i + 1 < |es| && es[i].offset <= d < es[i + 1].offset
    decreases n
  {
    if es[n - 1].offset <= d {
      i := n - 1;
    } else {
      i := Bracket(es, d, n - 1);
    }
  }

  /** What is best at the events' offsets is best at every offset. */
  lemma EverywhereBest(ref: seq<Span>, inc: seq<Span>, es: seq<Event>, top: real, best: int, d: int)
    requires multiset(es) == multiset(AllEvents(ref, inc)) && Ascending(es) && BestSoFar(es, |es|, top, best)
    ensures Weighted(ref, inc, d) <= top && (top > 0.0 && d < best ==> Weighted(ref, inc, d) < top)
  {
    SortedRamp(ref, inc, es, d);
    if es == [] || d <= es[0].offset {
      OutsideSorted(ref, inc, es, d);
    } else if es[|es| - 1].offset <= d {
      OutsideSorted(ref, inc, es, d);
    } else {
      var i := Bracket(es, d, |es| - 1);
      BetweenEvents(es, i, d, top, best);
    }
  }

  lemma SortedRamp(ref: seq<Span>, inc: seq<Span>, es: seq<Event>, d: int)
    requires multiset(es) == multiset(AllEvents(ref, inc))
    ensures Ramp(es, d) == Weighted(ref, inc, d)
  {
    RampPermuted(es, AllEvents(ref, inc), d);
    RampIsOverlap(ref, inc, d);
  }

  lemma OutsideSorted(ref: seq<Span>, inc: seq<Span>, es: seq<Event>, d: int)
    requires multiset(es) == multiset(AllEvents(ref, inc)) && Ascending(es)
    requires es == [] || d <= es[0].offset || es[|es| - 1].offset <= d
    ensures Weighted(ref, inc, d) == 0.0 && Ramp(es, d) == 0.0
  {
    hide Weighted, Ramp, AllEvents, AllAfter, AllBefore;
    var all := AllEvents(ref, inc);
    if es != [] && d <= es[0].offset {
      SortedAfter(all, es, d);
    } else {
      SortedBefore(all, es, d);
    }
    NothingOutside(all, ref, inc, d);
    SortedRamp(ref, inc, es, d);
  }

  lemma SortedHas(all: seq<Event>, es: seq<Event>, i: nat)
    requires multiset(es) == multiset(all) && i < |all|
    ensures exists j :: 0 <= j < |es| && es[j] == all[i]
  {
    assert all[i] in multiset(all);
    assert all[i] in multiset(es);
    assert all[i] in es;
  }

  lemma SortedAfter(all: seq<Event>, es: seq<Event>, d: int)
    requires multiset(es) == multiset(all) && Ascending(es) && es != [] && d <= es[0].offset
    ensures AllAfter(all, d)
  {
    forall i | 0 <= i < |all|
      ensures all[i].offset >= d
    {
      SortedHas(all, es, i);
      var j :| 0 <= j < |es| && es[j] == all[i];
      assert es[0].offset <= es[j].offset;
    }
  }

  lemma SortedBefore(all: seq<Event>, es: seq<Event>, d: int)
    requires multiset(es) == multiset(all) && Ascending(es) && (es == [] || es[|es| - 1].offset <= d)
    ensures AllBefore(all, d)
  {
    forall i | 0 <= i < |all|
      ensures all[i].offset <= d
    {
      SortedHas(all, es, i);
      var j :| 0 <= j < |es| && es[j] == all[i];
      assert es[j].offset <= es[|es| - 1].offset;
    }
  }

  /** The sweep answers the first of the offsets, over all the integers, where
      the weighted overlap is greatest. */
  method AlignMergeSort(ref: seq<Span>, inc: seq<Span>, start: int) returns (best: int)
    ensures |AllEvents(ref, inc)| <= MAX_EVENTS && AnyPositive(ref, inc) ==> FirstBest(ref, inc, best)
  {
    var events := BuildEvents(ref, inc);
    var es := SortEvents(events);
    ghost var top;
    best, top := SweepEvents(es, start);
    if |AllEvents(ref, inc)| <= MAX_EVENTS && AnyPositive(ref, inc) {
      SweptBest(ref, inc, es, top, best);
    }
  }

  lemma Levelled(ref: seq<Span>, inc: seq<Span>, es: seq<Event>)
    requires multiset(es) == multiset(AllEvents(ref, inc)) && Ascending(es)
    ensures Levels(es)
  {
    if es != [] {
      OutsideSorted(ref, inc, es, es[|es| - 1].offset + 1);
    }
  }

  lemma SweptBest(ref: seq<Span>, inc: seq<Span>, es: seq<Event>, top: real, best: int)
    requires multiset(es) == multiset(AllEvents(ref, inc)) && Ascending(es) && AnyPositive(ref, inc)
    requires Levels(es) ==> BestSoFar(es, |es|, top, best)
    ensures FirstBest(ref, inc, best)
  {
    hide Ramp, Weighted, AllEvents, Levels;
    Levelled(ref, inc, es);
    var i, j :| 0 <= i < |ref| && 0 <= j < |inc| && Positive(ref[i]) && Positive(inc[j]);
    SomePositive(ref, inc, i, j);
    EverywhereBest(ref, inc, es, top, best, ref[i].start - inc[j].start);
    SortedRamp(ref, inc, es, best);
    forall x: int
      ensures Weighted(ref, inc, x) <= top && (x < best ==> Weighted(ref, inc, x) < top)
    {
      EverywhereBest(ref, inc, es, top, best, x);
    }
  }

  /* ---------- The dense array ---------- */

  /** The sum of the changes at one offset. */
  function At(es: seq<Event>, o: int): real {
    if es == [] then 0.0 else At(es[..|es| - 1], o) + (if es[|es| - 1].offset == o then es[|es| - 1].delta else 0.0)
  }

  /** The sum of the changes up to an offset. */
  function UpTo(es: seq<Event>, o: int): real {
    if es == [] then 0.0 else UpTo(es[..|es| - 1], o) + (if es[|es| - 1].offset <= o then es[|es| - 1].delta else 0.0)
  }

  lemma {:induction false} UpToStep(es: seq<Event>, o: int)
    ensures UpTo(es, o) == UpTo(es, o - 1) + At(es, o)
  {
    if es != [] {
      UpToStep(es[..|es| - 1], o);
    }
  }

  lemma {:induction false} UpToNone(es: seq<Event>, o: int)
    requires AllAfter(es, o)
    ensures UpTo(es, o - 1) == 0.0
  {
    if es != [] {
      UpToNone(es[..|es| - 1], o);
    }
  }

  /** One more step of the first sum is one more step of the second. */
  lemma {:induction false} RampStep(es: seq<Event>, o: int)
    ensures Ramp(es, o + 1) == Ramp(es, o) + UpTo(es, o)
  {
    if es != [] {
      RampStep(es[..|es| - 1], o);
      TermStep(es[|es| - 1], o);
    }
  }

  lemma TermStep(e: Event, o: int)
    ensures Term(e, o + 1) == Term(e, o) + (if e.offset <= o then e.delta else 0.0)
  {
  }

  /** The array holds what every event so far adds at each offset of it. */
  ghost predicate Filled(deltas: array<real>, es: seq<Event>, start: int)
    reads deltas
  {
    forall k | 0 <= k < deltas.Length :: deltas[k] == At(es, start + k)
  }

  method AddDelta(deltas: array<real>, e: Event, start: int, ghost es: seq<Event>)
    requires Filled(deltas, es, start)
    modifies deltas
    ensures Filled(deltas, es + [e], start)
  {
    assert (es + [e])[..|es|] == es;
    var idx := e.offset - start;
    if 0 <= idx < deltas.Length {
      deltas[idx] := deltas[idx] + e.delta;
    }
  }

  method AddPair(deltas: array<real>, r: Span, s: Span, start: int, ghost es: seq<Event>)
    requires Filled(deltas, es, start)
    modifies deltas
    ensures Filled(deltas, es + PairEvents(r, s), start)
  {
    hide Filled, Score;
    var score := Score(r, s);
    if score == 0.0 {
      assert es + [] == es;
      return;
    }
    ghost var four := PairEvents(r, s);
    assert four[..1] == [four[0]] && four[..2] == four[..1] + [four[1]] && four[..3] == four[..2] + [four[2]] && four == four[..3] + [four[3]];
    AddDelta(deltas, Event(r.start - s.end, score), start, es);
    AddDelta(deltas, Event(r.end - s.end, -score), start, es + four[..1]);
    assert es + four[..1] + [four[1]] == es + four[..2];
    AddDelta(deltas, Event(r.start - s.start, -score), start, es + four[..2]);
    assert es + four[..2] + [four[2]] == es + four[..3];
    AddDelta(deltas, Event(r.end - s.start, score), start, es + four[..3]);
    assert es + four[..3] + [four[3]] == es + four;
  }

  /** Every pair's breakpoints added into the array. */
  method AccumulateDeltas(deltas: array<real>, ref: seq<Span>, inc: seq<Span>, start: int)
    requires forall k | 0 <= k < deltas.Length :: deltas[k] == 0.0
    modifies deltas
    ensures Filled(deltas, AllEvents(ref, inc), start)
  {
    hide PairEvents;
    ghost var es: seq<Event> := [];
    for i := 0 to |ref|
      invariant es == AllEvents(ref[..i], inc) && Filled(deltas, es, start)
    {
      assert ref[..i + 1][..i] == ref[..i];
      ghost var prior := es;
      RowStart(ref[i]);
      for j := 0 to |inc|
        invariant es == prior + RowEvents(ref[i], inc[..j]) && Filled(deltas, es, start)
      {
        RowStep(ref[i], inc, j);
        AddPair(deltas, ref[i], inc[j], start, es);
        assert prior + RowEvents(ref[i], inc[..j]) + PairEvents(ref[i], inc[j]) == prior + (RowEvents(ref[i], inc[..j]) + PairEvents(ref[i], inc[j]));
        es := es + PairEvents(ref[i], inc[j]);
      }
      assert inc[..|inc|] == inc;
    }
    assert ref[..|ref|] == ref;
  }

  /** The best rating at the n offsets after start, or none above 0. */
  ghost predicate BestAfter(es: seq<Event>, start: int, n: nat, rating: real, offset: int) {
    && rating >= 0.0
    && (forall x: int | start < x <= start + n :: Ramp(es, x) <= rating)
    && (rating > 0.0 ==> start <= offset < start + n && Ramp(es, offset + 1) == rating)
    && (rating > 0.0 ==> forall x: int | start < x <= offset :: Ramp(es, x) < rating)
  }

  /** The array integrated twice in one sweep: at index i the second sum is
      the rating at the offset after i's. */
  method SweepDeltas(deltas: array<real>, ghost es: seq<Event>, start: int) returns (best: int, ghost rating: real)
    requires Filled(deltas, es, start)
    ensures AllAfter(es, start) ==> BestAfter(es, start, deltas.Length, rating, best)
  {
    var derivative, sum, top := 0.0, 0.0, 0.0;
    best := 0;
    if AllAfter(es, start) {
      UpToNone(es, start);
      RampZero(es, start);
    }
    hide Ramp, UpTo, At, AllAfter;
    for i := 0 to deltas.Length
      invariant AllAfter(es, start) ==> derivative == UpTo(es, start + i - 1) && sum == Ramp(es, start + i)
      invariant AllAfter(es, start) ==> BestAfter(es, start, i, top, best)
    {
      UpToStep(es, start + i);
      derivative := derivative + deltas[i];
      RampStep(es, start + i);
      sum := sum + derivative;
      if sum > top {
        top, best := sum, start + i;
      }
    }
    rating := top;
  }

  /** The array's first i entries summed, and those sums summed. */
  function Sum(deltas: seq<real>, i: nat): real
    requires i <= |deltas|
  {
    if i == 0 then 0.0 else Sum(deltas, i - 1) + deltas[i - 1]
  }

  function SumOfSums(deltas: seq<real>, i: nat): real
    requires i <= |deltas|
  {
    if i == 0 then 0.0 else SumOfSums(deltas, i - 1) + Sum(deltas, i)
  }

  /** The array integrated twice to index i is the weighted overlap one
      millisecond past i's offset. */
  lemma {:induction false} TwiceIntegrated(ref: seq<Span>, inc: seq<Span>, deltas: seq<real>, start: int, i: nat)
    requires i < |deltas| && AllAfter(AllEvents(ref, inc), start)
    requires forall k | 0 <= k < |deltas| :: deltas[k] == At(AllEvents(ref, inc), start + k)
    ensures SumOfSums(deltas, i + 1) == Weighted(ref, inc, start + i + 1)
  {
    hide AllAfter, At, Weighted;
    RampIsOverlap(ref, inc, start + i + 1);
    RampStep(AllEvents(ref, inc), start + i);
    SumIs(AllEvents(ref, inc), deltas, start, i + 1);
    if i == 0 {
      RampZero(AllEvents(ref, inc), start);
    } else {
      TwiceIntegrated(ref, inc, deltas, start, i - 1);
      RampIsOverlap(ref, inc, start + i);
    }
  }

  lemma {:induction false} SumIs(es: seq<Event>, deltas: seq<real>, start: int, i: nat)
    requires i <= |deltas| && AllAfter(es, start)
    requires forall k | 0 <= k < |deltas| :: deltas[k] == At(es, start + k)
    ensures Sum(deltas, i) == UpTo(es, start + i - 1)
  {
    if i == 0 {
      UpToNone(es, start);
    } else {
      SumIs(es, deltas, start, i - 1);
      UpToStep(es, start + i - 1);
    }
  }

  /* ---------- Choosing one ---------- */

  /** Every breakpoint lies in the range the first reference span's start and
      the last one's end give. */
  ghost predicate InRange(ref: seq<Span>, inc: seq<Span>, start: int, end: int) {
    forall i, j | 0 <= i < |ref| && 0 <= j < |inc| && Positive(ref[i]) && Positive(inc[j]) ::
      start <= ref[i].start - inc[j].end && ref[i].end - inc[j].start <= end
  }

  lemma {:induction false} RowAfter(r: Span, inc: seq<Span>, start: int)
    requires forall j | 0 <= j < |inc| && Positive(r) && Positive(inc[j]) :: start <= r.start - inc[j].end
    ensures AllAfter(RowEvents(r, inc), start)
  {
    if inc != [] {
      RowAfter(r, inc[..|inc| - 1], start);
    }
  }

  lemma {:induction false} EventsAfter(ref: seq<Span>, inc: seq<Span>, start: int, end: int)
    requires InRange(ref, inc, start, end)
    ensures AllAfter(AllEvents(ref, inc), start)
  {
    if ref != [] {
      EventsAfter(ref[..|ref| - 1], inc, start, end);
      RowAfter(ref[|ref| - 1], inc, start);
    }
  }

  /** Outside the range nothing overlaps. */
  lemma NothingOut(ref: seq<Span>, inc: seq<Span>, start: int, end: int, d: int)
    requires InRange(ref, inc, start, end) && (d <= start || d >= end)
    ensures Weighted(ref, inc, d) == 0.0
  {
    NoneOverlap(ref, inc, d);
  }

  /** The array's best is the offset before the first best of all. */
  lemma SweptBuckets(ref: seq<Span>, inc: seq<Span>, start: int, end: int, top: real, best: int)
    requires InRange(ref, inc, start, end) && AnyPositive(ref, inc) && end >= start
    requires BestAfter(AllEvents(ref, inc), start, end - start + 1, top, best)
    ensures FirstBest(ref, inc, best + 1)
  {
    hide Ramp, Weighted, AllEvents, InRange, AnyPositive;
    BucketTop(ref, inc, start, end, top, best);
    RampIsOverlap(ref, inc, best + 1);
    forall x: int
      ensures Weighted(ref, inc, x) <= top && (x < best + 1 ==> Weighted(ref, inc, x) < top)
    {
      RampIsOverlap(ref, inc, x);
      if x <= start || x > end {
        NothingOut(ref, inc, start, end, x);
      }
    }
  }

  lemma BucketTop(ref: seq<Span>, inc: seq<Span>, start: int, end: int, top: real, best: int)
    requires InRange(ref, inc, start, end) && AnyPositive(ref, inc) && end >= start
    requires BestAfter(AllEvents(ref, inc), start, end - start + 1, top, best)
    ensures top > 0.0
  {
    hide Weighted, Ramp, AllEvents, InRange;
    var i, j :| 0 <= i < |ref| && 0 <= j < |inc| && Positive(ref[i]) && Positive(inc[j]);
    var d := ref[i].start - inc[j].start;
    SomePositive(ref, inc, i, j);
    RampIsOverlap(ref, inc, d);
    WithinRange(ref, inc, start, end, i, j);
  }

  lemma WithinRange(ref: seq<Span>, inc: seq<Span>, start: int, end: int, i: nat, j: nat)
    requires InRange(ref, inc, start, end) && i < |ref| && j < |inc| && Positive(ref[i]) && Positive(inc[j])
    ensures start < ref[i].start - inc[j].start < end
  {
  }

  /** A dense sweep answers one less than the first best offset; a range past
      the array cap falls back to the sweep of events. */
  method AlignBucketSort(ref: seq<Span>, inc: seq<Span>, start: int, end: int) returns (best: int)
    requires end >= start
    ensures end - start + 1 <= MAX_BUCKET_RANGE && InRange(ref, inc, start, end) && AnyPositive(ref, inc) ==> FirstBest(ref, inc, best + 1)
    ensures end - start + 1 > MAX_BUCKET_RANGE && |AllEvents(ref, inc)| <= MAX_EVENTS && AnyPositive(ref, inc) ==> FirstBest(ref, inc, best)
  {
    hide FirstBest, AllEvents, InRange, AnyPositive, BestAfter, AllAfter;
    var size := end - start + 1;
    if size > MAX_BUCKET_RANGE {
      best := AlignMergeSort(ref, inc, start);
      return;
    }
    var deltas := new real[size](i => 0.0);
    AccumulateDeltas(deltas, ref, inc, start);
    ghost var top;
    best, top := SweepDeltas(deltas, AllEvents(ref, inc), start);
    if InRange(ref, inc, start, end) && AnyPositive(ref, inc) {
      EventsAfter(ref, inc, start, end);
      SweptBuckets(ref, inc, start, end, top, best);
    }
  }

  function Capped(spans: seq<Span>): seq<Span> {
    if |spans| > MAX_SPANS then spans[..MAX_SPANS] else spans
  }

  /** The shifts at which the first and last spans could meet. */
  function RangeOf(ref: seq<Span>, inc: seq<Span>): (int, int)
    requires ref != [] && inc != []
  {
    (ref[0].start - inc[|inc| - 1].end, ref[|ref| - 1].end - inc[0].start)
  }

  predicate Dense(ref: seq<Span>, inc: seq<Span>)
    requires ref != [] && inc != []
  {
    var size := RangeOf(ref, inc).1 - RangeOf(ref, inc).0 + 1;
    |inc| * |ref| * 4 > size / 10 && size <= MAX_BUCKET_RANGE
  }

  /** Both subtitles have a span with a length, spans lie between the first's
      start and the last's end, and the breakpoints are within the event cap. */
  ghost predicate Alignable(ref: seq<Span>, inc: seq<Span>) {
    && ref != [] && inc != []
    && AnyPositive(ref, inc) && InRange(ref, inc, RangeOf(ref, inc).0, RangeOf(ref, inc).1)
    && (!Dense(ref, inc) ==> |AllEvents(ref, inc)| <= MAX_EVENTS)
  }

  /** No offset overlaps more than d. */
  ghost predicate Greatest(ref: seq<Span>, inc: seq<Span>, d: int) {
    forall x: int :: Weighted(ref, inc, x) <= Weighted(ref, inc, d)
  }

  /** The first offset of greatest overlap is one; the one before is not. */
  lemma FirstGreatest(ref: seq<Span>, inc: seq<Span>, d: int)
    requires FirstBest(ref, inc, d)
    ensures Greatest(ref, inc, d) && !Greatest(ref, inc, d - 1)
  {
    hide Weighted;
    assert Weighted(ref, inc, d - 1) < Weighted(ref, inc, d);
  }

  /** The constant shift chosen: the first of the offsets that overlap most
      when the events are swept, and exactly one millisecond before it, which
      is never one of them, when the dense array is. */
  method AlignConstantOffset(reference: seq<Span>, incorrect: seq<Span>) returns (offset: int)
    ensures var ref, inc := reference[..Min(10_000, |reference|)], incorrect[..Min(10_000, |incorrect|)];
            Alignable(ref, inc) ==>
              var size := ref[|ref| - 1].end - ref[0].start + inc[|inc| - 1].end - inc[0].start + 1;
              var dense := size <= 32_000_000 && |inc| * |ref| * 4 > size / 10;
              FirstBest(ref, inc, if dense then offset + 1 else offset) && (Greatest(ref, inc, offset) <==> !dense)
    ensures reference == [] || incorrect == [] ==> offset == 0
  {
    hide FirstBest, AllEvents, InRange, AnyPositive, Greatest;
    if reference == [] || incorrect == [] {
      return 0;
    }
    var ref, inc := Capped(reference), Capped(incorrect);
    assert ref == reference[..Min(10_000, |reference|)] && inc == incorrect[..Min(10_000, |incorrect|)];
    var start, end := ref[0].start - inc[|inc| - 1].end, ref[|ref| - 1].end - inc[0].start;
    if Alignable(ref, inc) {
      RangeOpen(ref, inc, start, end);
    }
    var size := end - start + 1;
    if size <= 0 {
      return 0;
    }
    if |inc| * |ref| * 4 > size / 10 {
      offset := AlignBucketSort(ref, inc, start, end);
    } else {
      offset := AlignMergeSort(ref, inc, start);
    }
    if Alignable(ref, inc) {
      FirstGreatest(ref, inc, if Dense(ref, inc) then offset + 1 else offset);
    }
  }

  lemma RangeOpen(ref: seq<Span>, inc: seq<Span>, start: int, end: int)
    requires AnyPositive(ref, inc) && InRange(ref, inc, start, end)
    ensures start < end
  {
  }

  /** Two equal one-millisecond spans are moved apart, from overlapping whole
      to not at all. */
  lemma DenseMisses()
    ensures var ref, inc := [Span(0, 1)], [Span(0, 1)];
            && Alignable(ref, inc) && Dense(ref, inc) && FirstBest(ref, inc, 0) && (forall d: int :: FirstBest(ref, inc, d) ==> d == 0)
            && Weighted(ref, inc, 0) == 1.0 && Weighted(ref, inc, -1) == 0.0
  {
    var ref, inc := [Span(0, 1)], [Span(0, 1)];
    assert Positive(ref[0]) && Positive(inc[0]);
    assert Score(ref[0], inc[0]) == 1.0;
    forall d: int
      ensures Weighted(ref, inc, d) == Overlap(ref[0], inc[0], d) as real
    {
      assert ref[..0] == [] && inc[..0] == [];
      assert RowOverlap(ref[0], inc, d) == RowOverlap(ref[0], [], d) + Times(Score(ref[0], inc[0]), Overlap(ref[0], inc[0], d));
      assert Weighted(ref, inc, d) == Weighted([], inc, d) + RowOverlap(ref[0], inc, d);
    }
  }
}
