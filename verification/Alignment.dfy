/** The constant shift that best aligns one subtitle's spans with another's:
    the weighted overlap of every pair of spans, and its second differences. */
module Alignment {
  datatype Span = Span(start: int, end: int)
  /** A change of the rating's slope, from an offset on. */
  datatype Event = Event(offset: int, delta: real)

  const MAX_SPANS := 10_000
  const MAX_EVENTS := 16_000_000
  const MAX_BUCKET_RANGE := 32_000_000

  /* ---------- What is to be maximised ---------- */

  function Min(a: int, b: int): int {
    if a <= b then a else b
  }

  function Max(a: int, b: int): int {
    if a >= b then a else b
  }

  predicate Positive(r: Span) {
    r.end > r.start
  }

  /** How alike two spans are in length; 0 when either has none. */
  function Score(r: Span, s: Span): (x: real)
    ensures x >= 0.0 && (x > 0.0 <==> Positive(r) && Positive(s))
  {
    var a, b := r.end - r.start, s.end - s.start;
    if a <= 0 || b <= 0 then 0.0 else (Min(a, b) as real) / (Max(a, b) as real)
  }

  function Times(x: real, n: int): real {
    x * (n as real)
  }

  /** How long r and s overlap once s is shifted by d. */
  function Overlap(r: Span, s: Span, d: int): int {
    Max(0, Min(r.end, s.end + d) - Max(r.start, s.start + d))
  }

  function Length(r: Span): int {
    r.end - r.start
  }

  /** The instants from a up to b. */
  function Instants(a: int, b: int): (s: set<int>)
    ensures |s| == Max(0, b - a) && forall t :: t in s <==> a <= t < b
    decreases b - a
  {
    if b <= a then {} else Instants(a, b - 1) + {b - 1}
  }

  /** The overlap counts the instants r shares with s shifted by d. */
  lemma OverlapCounts(r: Span, s: Span, d: int)
    ensures Overlap(r, s, d) == |Instants(r.start, r.end) * Instants(s.start + d, s.end + d)|
  {
    hide Instants;
    InstantsShared(r.start, r.end, s.start + d, s.end + d);
  }

  lemma InstantsShared(a: int, b: int, c: int, e: int)
    ensures Instants(a, b) * Instants(c, e) == Instants(Max(a, c), Min(b, e))
  {
    hide Instants;
  }

  lemma ShareTimes(a: int, b: int)
    requires b > 0
    ensures Times(a as real / b as real, b) == a as real
  {
  }

  lemma TimesGrows(x: real, y: real, n: int)
    ensures n > 0 ==> (x <= y <==> Times(x, n) <= Times(y, n))
    ensures n > 0 ==> (x == y <==> Times(x, n) == Times(y, n))
  {
  }

  /** The score is the share of the longer span that the best shift covers:
      no shift covers more, and one that lines up the starts covers it. */
  lemma ScoreCovers(r: Span, s: Span, d: int)
    requires Positive(r) && Positive(s)
    ensures Overlap(r, s, d) as real <= Times(Score(r, s), Max(Length(r), Length(s)))
    ensures Overlap(r, s, r.start - s.start) as real == Times(Score(r, s), Max(Length(r), Length(s)))
  {
    hide Times;
    ShareTimes(Min(Length(r), Length(s)), Max(Length(r), Length(s)));
  }

  /** Spans of one length score 1, others less, whichever is named first. */
  lemma ScoreAtMostOne(r: Span, s: Span)
    requires Positive(r) && Positive(s)
    ensures Score(r, s) <= 1.0 && (Score(r, s) == 1.0 <==> Length(r) == Length(s)) && Score(r, s) == Score(s, r)
  {
    hide Score;
    var longer := Max(Length(r), Length(s));
    ScoreCovers(r, s, 0);
    ScoreCovers(s, r, 0);
    TimesGrows(Score(r, s), 1.0, longer);
    TimesGrows(Score(r, s), Score(s, r), longer);
  }

  lemma TimesWithin(x: real, n: int)
    requires 0.0 <= x <= 1.0 && n >= 0
    ensures 0.0 <= Times(x, n) <= n as real
  {
    if n == 0 {
      assert x * 0.0 == 0.0;
    } else {
      TimesNone(n);
      TimesGrows(0.0, x, n);
      TimesGrows(x, 1.0, n);
    }
  }

  lemma TimesShrinks(x: real, y: real, a: int, b: int, c: int)
    requires 0 < a <= b <= c && Times(x, b) == a as real && Times(y, c) == a as real
    ensures y <= x
  {
    assert x * (b as real) <= x * (c as real);
    TimesGrows(y, x, c);
  }

  /** The further two lengths are apart, the lower the score. */
  lemma ScoreFalls(r: Span, s: Span, t: Span)
    requires Positive(r) && Positive(s) && Positive(t)
    requires Length(r) <= Length(s) <= Length(t) || Length(r) >= Length(s) >= Length(t)
    ensures Score(r, s) >= Score(r, t)
  {
    hide Score, Times;
    ScoreCovers(r, s, 0);
    ScoreCovers(r, t, 0);
    if Length(r) <= Length(s) && Length(s) <= Length(t) {
      TimesShrinks(Score(r, s), Score(r, t), Length(r), Length(s), Length(t));
    } else {
      TimesGrows(Score(r, t), Score(r, s), Length(r));
    }
  }

  /** No pair weighs more than it overlaps. */
  lemma WeighsAtMost(r: Span, s: Span, d: int)
    ensures 0.0 <= Times(Score(r, s), Overlap(r, s, d)) <= Overlap(r, s, d) as real
  {
    hide Overlap, Score, Instants;
    OverlapCounts(r, s, d);
    if Positive(r) && Positive(s) {
      ScoreAtMostOne(r, s);
    }
    TimesWithin(Score(r, s), Overlap(r, s, d));
  }

  function RowOverlap(r: Span, inc: seq<Span>, d: int): real {
    if inc == [] then 0.0
    else RowOverlap(r, inc[..|inc| - 1], d) + Times(Score(r, inc[|inc| - 1]), Overlap(r, inc[|inc| - 1], d))
  }

  /** The overlap of every pair, weighted by its score. */
  function Weighted(ref: seq<Span>, inc: seq<Span>, d: int): real {
    if ref == [] then 0.0 else Weighted(ref[..|ref| - 1], inc, d) + RowOverlap(ref[|ref| - 1], inc, d)
  }

  /** d is the first of the offsets that overlap most. */
  ghost predicate FirstBest(ref: seq<Span>, inc: seq<Span>, d: int) {
    && (forall x: int :: Weighted(ref, inc, x) <= Weighted(ref, inc, d))
    && (forall x: int | x < d :: Weighted(ref, inc, x) < Weighted(ref, inc, d))
  }

  /** Whatever its parts, a rating is the sum of theirs, down to one pair's. */
  lemma {:induction false} WeightedSums(ref: seq<Span>, more: seq<Span>, inc: seq<Span>, d: int)
    ensures Weighted(ref + more, inc, d) == Weighted(ref, inc, d) + Weighted(more, inc, d)
  {
    if more == [] {
      assert ref + more == ref;
    } else {
      assert (ref + more)[..|ref + more| - 1] == ref + more[..|more| - 1];
      WeightedSums(ref, more[..|more| - 1], inc, d);
    }
  }

  lemma {:induction false} RowSums(r: Span, inc: seq<Span>, more: seq<Span>, d: int)
    ensures Weighted([r], inc + more, d) == Weighted([r], inc, d) + Weighted([r], more, d)
    ensures inc == [] ==> Weighted([r], inc, d) == 0.0
    ensures |inc| == 1 ==> Weighted([r], inc, d) == Score(r, inc[0]) * (Overlap(r, inc[0], d) as real)
  {
    hide Score, Overlap;
    WeightedRow(r, inc, d);
    WeightedRow(r, more, d);
    WeightedRow(r, inc + more, d);
    if more == [] {
      assert inc + more == inc;
    } else {
      assert (inc + more)[..|inc + more| - 1] == inc + more[..|more| - 1];
      RowSums(r, inc, more[..|more| - 1], d);
      WeightedRow(r, inc + more[..|more| - 1], d);
      WeightedRow(r, more[..|more| - 1], d);
    }
  }

  lemma WeightedRow(r: Span, inc: seq<Span>, d: int)
    ensures Weighted([r], inc, d) == RowOverlap(r, inc, d)
  {
    hide RowOverlap;
    assert [r][..0] == [];
  }

  /* ---------- Second differences ---------- */

  /** The four breakpoints of one pair. */
  function PairEvents(r: Span, s: Span): seq<Event> {
    if Score(r, s) == 0.0 then []
    else [Event(r.start - s.end, Score(r, s)), Event(r.end - s.end, -Score(r, s)),
          Event(r.start - s.start, -Score(r, s)), Event(r.end - s.start, Score(r, s))]
  }

  function RowEvents(r: Span, inc: seq<Span>): seq<Event> {
    if inc == [] then [] else RowEvents(r, inc[..|inc| - 1]) + PairEvents(r, inc[|inc| - 1])
  }

  function AllEvents(ref: seq<Span>, inc: seq<Span>): seq<Event> {
    if ref == [] then [] else AllEvents(ref[..|ref| - 1], inc) + RowEvents(ref[|ref| - 1], inc)
  }

  function Term(e: Event, d: int): real {
    Times(e.delta, Max(0, d - e.offset))
  }

  /** Events integrated twice, up to d. */
  function Ramp(es: seq<Event>, d: int): real {
    if es == [] then 0.0 else Ramp(es[..|es| - 1], d) + Term(es[|es| - 1], d)
  }

  lemma {:induction false} RampJoin(a: seq<Event>, b: seq<Event>, d: int)
    ensures Ramp(a + b, d) == Ramp(a, d) + Ramp(b, d)
  {
    if b == [] {
      assert a + b == a;
    } else {
      assert (a + b)[..|a + b| - 1] == a + b[..|b| - 1];
      RampJoin(a, b[..|b| - 1], d);
    }
  }

  /** One pair's overlap rises, stays and falls between its breakpoints. */
  lemma Tent(r: Span, s: Span, d: int)
    requires Positive(r) && Positive(s)
    ensures Overlap(r, s, d)
         == Max(0, d - (r.start - s.end)) - Max(0, d - (r.end - s.end)) - Max(0, d - (r.start - s.start)) + Max(0, d - (r.end - s.start))
  {
  }

  lemma PairRamp(r: Span, s: Span, d: int)
    ensures Ramp(PairEvents(r, s), d) == Times(Score(r, s), Overlap(r, s, d))
  {
    hide Score, Times, Overlap;
    TimesNone(Overlap(r, s, d));
    if Score(r, s) != 0.0 {
      Tent(r, s, d);
      var x := Score(r, s);
      var es := PairEvents(r, s);
      assert es[..3][..2] == es[..2] && es[..2][..1] == es[..1] && es[..1][..0] == [];
      assert Ramp(es[..1], d) == Term(es[0], d);
      assert Ramp(es[..2], d) == Ramp(es[..1], d) + Term(es[1], d);
      assert Ramp(es[..3], d) == Ramp(es[..2], d) + Term(es[2], d);
      Distribute(x, Max(0, d - (r.start - s.end)), Max(0, d - (r.end - s.end)), Max(0, d - (r.start - s.start)), Max(0, d - (r.end - s.start)));
    }
  }

  lemma TimesNone(n: int)
    ensures Times(0.0, n) == 0.0
  {
  }

  lemma Distribute(x: real, a: int, b: int, c: int, e: int)
    ensures Times(x, a) + Times(-x, b) + Times(-x, c) + Times(x, e) == Times(x, a - b - c + e)
  {
  }

  lemma {:induction false} RowRamp(r: Span, inc: seq<Span>, d: int)
    ensures Ramp(RowEvents(r, inc), d) == RowOverlap(r, inc, d)
  {
    hide PairEvents, Overlap, Score, Term, Times;
    if inc != [] {
      var n := |inc| - 1;
      RowRamp(r, inc[..n], d);
      PairRamp(r, inc[n], d);
      RampJoin(RowEvents(r, inc[..n]), PairEvents(r, inc[n]), d);
    }
  }

  /** Integrating every pair's breakpoints twice gives the weighted overlap. */
  lemma {:induction false} RampIsOverlap(ref: seq<Span>, inc: seq<Span>, d: int)
    ensures Ramp(AllEvents(ref, inc), d) == Weighted(ref, inc, d)
  {
    if ref != [] {
      var n := |ref| - 1;
      RampIsOverlap(ref[..n], inc, d);
      RowRamp(ref[n], inc, d);
      RampJoin(AllEvents(ref[..n], inc), RowEvents(ref[n], inc), d);
    }
  }

  /* ---------- Slopes ---------- */

  function Slope(es: seq<Event>): real {
    if es == [] then 0.0 else Slope(es[..|es| - 1]) + es[|es| - 1].delta
  }

  predicate AllBefore(es: seq<Event>, d: int) {
    forall i | 0 <= i < |es| :: es[i].offset <= d
  }

  predicate AllAfter(es: seq<Event>, d: int) {
    forall i | 0 <= i < |es| :: es[i].offset >= d
  }

  /** Past every event the rating is a straight line. */
  lemma {:induction false} RampLine(es: seq<Event>, d: int, gap: nat)
    requires AllBefore(es, d)
    ensures Ramp(es, d + gap) == Ramp(es, d) + Times(Slope(es), gap)
  {
    hide Term, Times;
    TimesNone(gap);
    if es != [] {
      var n := |es| - 1;
      RampLine(es[..n], d, gap);
      TermLine(es[n], d, gap, Slope(es[..n]));
    }
  }

  lemma TermLine(e: Event, d: int, gap: nat, slope: real)
    requires e.offset <= d
    ensures Term(e, d + gap) == Term(e, d) + Times(e.delta, gap)
    ensures Times(slope + e.delta, gap) == Times(slope, gap) + Times(e.delta, gap)
  {
  }

  lemma TimesZero(x: real)
    ensures Times(x, 0) == 0.0
  {
  }

  lemma {:induction false} RampZero(es: seq<Event>, d: int)
    requires AllAfter(es, d)
    ensures Ramp(es, d) == 0.0
  {
    hide Times;
    if es != [] {
      RampZero(es[..|es| - 1], d);
      TimesZero(es[|es| - 1].delta);
    }
  }

  /** Events at or after d add nothing at d. */
  lemma RampPrefix(es: seq<Event>, i: nat, d: int)
    requires i <= |es| && AllAfter(es[i..], d)
    ensures Ramp(es, d) == Ramp(es[..i], d)
  {
    assert es == es[..i] + es[i..];
    RampJoin(es[..i], es[i..], d);
    RampZero(es[i..], d);
  }

  /* ---------- Where the rating is positive ---------- */

  lemma {:induction false} RowPositive(r: Span, inc: seq<Span>, j: nat)
    requires j < |inc| && Positive(r) && Positive(inc[j])
    ensures RowOverlap(r, inc, r.start - inc[j].start) > 0.0
  {
    hide Score, Times;
    var d, n := r.start - inc[j].start, |inc| - 1;
    RowNonNegative(r, inc[..n], d);
    if j == n {
      assert Overlap(r, inc[n], d) > 0;
      Product(Score(r, inc[n]), Overlap(r, inc[n], d));
    } else {
      RowPositive(r, inc[..n], j);
      Product(Score(r, inc[n]), Overlap(r, inc[n], d));
    }
  }

  lemma Product(x: real, n: int)
    requires x >= 0.0 && n >= 0
    ensures Times(x, n) >= 0.0 && (x > 0.0 && n > 0 ==> Times(x, n) > 0.0)
  {
  }

  lemma OverlapNonNegative(r: Span, s: Span, d: int)
    ensures Overlap(r, s, d) >= 0
  {
  }

  lemma {:induction false} RowNonNegative(r: Span, inc: seq<Span>, d: int)
    ensures RowOverlap(r, inc, d) >= 0.0
  {
    hide Score, Times, Overlap;
    if inc != [] {
      OverlapNonNegative(r, inc[|inc| - 1], d);
      RowNonNegative(r, inc[..|inc| - 1], d);
      Product(Score(r, inc[|inc| - 1]), Overlap(r, inc[|inc| - 1], d));
    }
  }

  lemma {:induction false} NonNegative(ref: seq<Span>, inc: seq<Span>, d: int)
    ensures Weighted(ref, inc, d) >= 0.0
  {
    if ref != [] {
      NonNegative(ref[..|ref| - 1], inc, d);
      RowNonNegative(ref[|ref| - 1], inc, d);
    }
  }

  /** Two spans with a length overlap at some offset. */
  lemma {:induction false} SomePositive(ref: seq<Span>, inc: seq<Span>, i: nat, j: nat)
    requires i < |ref| && j < |inc| && Positive(ref[i]) && Positive(inc[j])
    ensures Weighted(ref, inc, ref[i].start - inc[j].start) > 0.0
  {
    var d, n := ref[i].start - inc[j].start, |ref| - 1;
    RowNonNegative(ref[n], inc, d);
    NonNegative(ref[..n], inc, d);
    if i == n {
      RowPositive(ref[n], inc, j);
    } else {
      SomePositive(ref[..n], inc, i, j);
    }
  }

  ghost predicate AnyPositive(ref: seq<Span>, inc: seq<Span>) {
    exists i, j :: 0 <= i < |ref| && 0 <= j < |inc| && Positive(ref[i]) && Positive(inc[j])
  }

  lemma PairNone(r: Span, s: Span, d: int)
    requires Score(r, s) == 0.0 || d <= r.start - s.end || d >= r.end - s.start
    ensures Times(Score(r, s), Overlap(r, s, d)) == 0.0
  {
    hide Score, Times;
    TimesNone(Overlap(r, s, d));
    TimesZero(Score(r, s));
  }

  lemma {:induction false} RowNone(r: Span, inc: seq<Span>, d: int)
    requires forall j | 0 <= j < |inc| :: Score(r, inc[j]) == 0.0 || d <= r.start - inc[j].end || d >= r.end - inc[j].start
    ensures RowOverlap(r, inc, d) == 0.0
  {
    hide Score, Times, Overlap;
    if inc != [] {
      RowNone(r, inc[..|inc| - 1], d);
      PairNone(r, inc[|inc| - 1], d);
    }
  }

  /** Shifted before or past every pair's breakpoints, nothing overlaps. */
  lemma {:induction false} NoneOverlap(ref: seq<Span>, inc: seq<Span>, d: int)
    requires forall i, j | 0 <= i < |ref| && 0 <= j < |inc| ::
               Score(ref[i], inc[j]) == 0.0 || d <= ref[i].start - inc[j].end || d >= ref[i].end - inc[j].start
    ensures Weighted(ref, inc, d) == 0.0
  {
    if ref != [] {
      NoneOverlap(ref[..|ref| - 1], inc, d);
      RowNone(ref[|ref| - 1], inc, d);
    }
  }

  /** Before every breakpoint, or past them all, nothing overlaps. */
  lemma NothingOutside(es: seq<Event>, ref: seq<Span>, inc: seq<Span>, d: int)
    requires AllEvents(ref, inc) == es
    requires AllBefore(es, d) || AllAfter(es, d)
    ensures Weighted(ref, inc, d) == 0.0
  {
    forall i, j | 0 <= i < |ref| && 0 <= j < |inc|
      ensures Score(ref[i], inc[j]) == 0.0 || d <= ref[i].start - inc[j].end || d >= ref[i].end - inc[j].start
    {
      if Score(ref[i], inc[j]) != 0.0 {
        EventsThere(ref, inc, i, j);
      }
    }
    NoneOverlap(ref, inc, d);
  }

  lemma {:induction false} RowThere(r: Span, inc: seq<Span>, j: nat)
    requires j < |inc| && Score(r, inc[j]) != 0.0
    ensures exists k :: 0 <= k < |RowEvents(r, inc)| && RowEvents(r, inc)[k].offset == r.start - inc[j].end
    ensures exists k :: 0 <= k < |RowEvents(r, inc)| && RowEvents(r, inc)[k].offset == r.end - inc[j].start
  {
    var n := |inc| - 1;
    var prior := |RowEvents(r, inc[..n])|;
    if j == n {
      assert RowEvents(r, inc)[prior].offset == r.start - inc[j].end && RowEvents(r, inc)[prior + 3].offset == r.end - inc[j].start;
    } else {
      RowThere(r, inc[..n], j);
      var a :| 0 <= a < prior && RowEvents(r, inc[..n])[a].offset == r.start - inc[j].end;
      var b :| 0 <= b < prior && RowEvents(r, inc[..n])[b].offset == r.end - inc[j].start;
      assert RowEvents(r, inc)[a].offset == r.start - inc[j].end && RowEvents(r, inc)[b].offset == r.end - inc[j].start;
    }
  }

  lemma {:induction false} EventsThere(ref: seq<Span>, inc: seq<Span>, i: nat, j: nat)
    requires i < |ref| && j < |inc| && Score(ref[i], inc[j]) != 0.0
    ensures exists k :: 0 <= k < |AllEvents(ref, inc)| && AllEvents(ref, inc)[k].offset == ref[i].start - inc[j].end
    ensures exists k :: 0 <= k < |AllEvents(ref, inc)| && AllEvents(ref, inc)[k].offset == ref[i].end - inc[j].start
  {
    hide RowEvents, Score;
    var n := |ref| - 1;
    var es, row := AllEvents(ref[..n], inc), RowEvents(ref[n], inc);
    assert AllEvents(ref, inc) == es + row;
    if i == n {
      RowThere(ref[n], inc, j);
      var a :| 0 <= a < |row| && row[a].offset == ref[i].start - inc[j].end;
      var b :| 0 <= b < |row| && row[b].offset == ref[i].end - inc[j].start;
      assert AllEvents(ref, inc)[|es| + a] == row[a] && AllEvents(ref, inc)[|es| + b] == row[b];
    } else {
      EventsThere(ref[..n], inc, i, j);
      var a :| 0 <= a < |es| && es[a].offset == ref[i].start - inc[j].end;
      var b :| 0 <= b < |es| && es[b].offset == ref[i].end - inc[j].start;
      assert AllEvents(ref, inc)[a] == es[a] && AllEvents(ref, inc)[b] == es[b];
    }
  }
}
