/** The lines removed and added between two texts, around a longest common
    subsequence of what their common start and end leave. */
module LineDiff {
  const MAX_DIFF_CELLS := 4_000_000

  type Lines = seq<string>

  /* ---------- Subsequences ---------- */

  predicate Subsequence(c: Lines, a: Lines) {
    if c == [] then true
    else if a == [] then false
    else (c[0] == a[0] && Subsequence(c[1..], a[1..])) || Subsequence(c, a[1..])
  }

  predicate Common(c: Lines, a: Lines, b: Lines) {
    Subsequence(c, a) && Subsequence(c, b)
  }

  function Larger(m: nat, n: nat): nat {
    if m >= n then m else n
  }

  /** The length the table holds for a and b. */
  function Lcs(a: Lines, b: Lines): nat
    decreases |a| + |b|
  {
    if a == [] || b == [] then 0
    else if a[0] == b[0] then Lcs(a[1..], b[1..]) + 1
    else Larger(Lcs(a[1..], b), Lcs(a, b[1..]))
  }

  lemma {:induction false} SubsequenceTail(c: Lines, a: Lines)
    requires c != [] && Subsequence(c, a)
    ensures Subsequence(c[1..], a) && (a != [] ==> Subsequence(c[1..], a[1..]))
  {
    if !(c[0] == a[0] && Subsequence(c[1..], a[1..])) {
      SubsequenceTail(c, a[1..]);
    } else if c[1..] != [] {
      assert Subsequence(c[1..], a);
    }
  }

  /** No common subsequence is longer than the table's length. */
  lemma {:induction false} LcsBounds(c: Lines, a: Lines, b: Lines)
    requires Common(c, a, b)
    ensures |c| <= Lcs(a, b)
    decreases |a| + |b|
  {
    if c != [] {
      if a[0] == b[0] {
        SubsequenceTail(c, a);
        SubsequenceTail(c, b);
        LcsBounds(c[1..], a[1..], b[1..]);
      } else if c[0] == a[0] {
        LcsBounds(c, a, b[1..]);
      } else {
        LcsBounds(c, a[1..], b);
      }
    }
  }

  /** Some common subsequence has the table's length. */
  lemma {:induction false} LcsReached(a: Lines, b: Lines) returns (c: Lines)
    ensures Common(c, a, b) && |c| == Lcs(a, b)
    decreases |a| + |b|
  {
    if a == [] || b == [] {
      c := [];
    } else if a[0] == b[0] {
      c := LcsReached(a[1..], b[1..]);
      c := [a[0]] + c;
      assert c[1..] == c[1..];
    } else if Lcs(a[1..], b) >= Lcs(a, b[1..]) {
      c := LcsReached(a[1..], b);
    } else {
      c := LcsReached(a, b[1..]);
    }
  }

  lemma LcsShorter(a: Lines, b: Lines)
    requires b != []
    ensures Lcs(a, b[1..]) <= Lcs(a, b)
  {
    var c := LcsReached(a, b[1..]);
    LcsBounds(c, a, b);
  }

  lemma {:induction false} SubsequenceEnd(c: Lines, a: Lines, x: string)
    ensures Subsequence(c, a) ==> Subsequence(c + [x], a + [x])
    ensures c != [] && Subsequence(c, a + [x]) ==> Subsequence(c[..|c| - 1], a)
  {
    if a == [] {
      assert a + [x] == [x] && [x][1..] == [];
      if c != [] && Subsequence(c, [x]) {
        assert Subsequence(c[1..], []) || Subsequence(c, []);
        assert c[..|c| - 1] == [];
      }
    } else {
      assert (a + [x])[1..] == a[1..] + [x];
      if c != [] {
        assert (c + [x])[1..] == c[1..] + [x];
        SubsequenceEnd(c[1..], a[1..], x);
        if |c| > 1 {
          assert c[1..][..|c[1..]| - 1] == c[..|c| - 1][1..];
        }
      }
      SubsequenceEnd(c, a[1..], x);
    }
  }

  /** A line both end with adds one to their longest common subsequence. */
  lemma LcsEnd(a: Lines, b: Lines, x: string)
    ensures Lcs(a + [x], b + [x]) == Lcs(a, b) + 1
  {
    var c := LcsReached(a, b);
    SubsequenceEnd(c, a, x);
    SubsequenceEnd(c, b, x);
    LcsBounds(c + [x], a + [x], b + [x]);
    var d := LcsReached(a + [x], b + [x]);
    if d != [] {
      SubsequenceEnd(d, a, x);
      SubsequenceEnd(d, b, x);
      LcsBounds(d[..|d| - 1], a, b);
    }
  }

  /* ---------- Edits ---------- */

  /** What becomes of one line. */
  datatype Edit = Keep(line: string) | Remove(line: string) | Add(line: string)

  function Old(s: seq<Edit>): Lines {
    if s == [] then [] else Old(s[..|s| - 1]) + (if s[|s| - 1].Add? then [] else [s[|s| - 1].line])
  }

  function New(s: seq<Edit>): Lines {
    if s == [] then [] else New(s[..|s| - 1]) + (if s[|s| - 1].Remove? then [] else [s[|s| - 1].line])
  }

  function Kept(s: seq<Edit>): Lines {
    if s == [] then [] else Kept(s[..|s| - 1]) + (if s[|s| - 1].Keep? then [s[|s| - 1].line] else [])
  }

  /** The changed lines, each marked. */
  function Marked(s: seq<Edit>): Lines {
    if s == [] then []
    else Marked(s[..|s| - 1]) + (match s[|s| - 1] case Keep(_) => [] case Remove(l) => ["- " + l] case Add(l) => ["+ " + l])
  }

  /** Between two kept lines, what is removed comes before what is added. */
  predicate RemovalsFirst(s: seq<Edit>) {
    forall i | 0 <= i < |s| - 1 :: !(s[i].Add? && s[i + 1].Remove?)
  }

  lemma {:induction false} TextsJoin(s: seq<Edit>, t: seq<Edit>)
    ensures Old(s + t) == Old(s) + Old(t) && New(s + t) == New(s) + New(t)
  {
    if t == [] {
      assert s + t == s;
    } else {
      assert (s + t)[..|s + t| - 1] == s + t[..|t| - 1];
      TextsJoin(s, t[..|t| - 1]);
    }
  }

  lemma {:induction false} LinesJoin(s: seq<Edit>, t: seq<Edit>)
    ensures Kept(s + t) == Kept(s) + Kept(t) && Marked(s + t) == Marked(s) + Marked(t)
  {
    if t == [] {
      assert s + t == s;
    } else {
      assert (s + t)[..|s + t| - 1] == s + t[..|t| - 1];
      LinesJoin(s, t[..|t| - 1]);
    }
  }

  lemma EditsJoin(s: seq<Edit>, t: seq<Edit>)
    ensures Old(s + t) == Old(s) + Old(t) && New(s + t) == New(s) + New(t) && Kept(s + t) == Kept(s) + Kept(t) && Marked(s + t) == Marked(s) + Marked(t)
  {
    TextsJoin(s, t);
    LinesJoin(s, t);
  }

  /** No changed line, no change. */
  lemma {:induction false} NothingMarked(s: seq<Edit>)
    requires Marked(s) == []
    ensures Old(s) == New(s)
  {
    if s != [] {
      NothingMarked(s[..|s| - 1]);
    }
  }

  lemma NothingThere(s: seq<Edit>)
    requires Old(s) == [] && New(s) == []
    ensures Marked(s) == []
  {
  }

  function Keeps(ls: Lines): (s: seq<Edit>)
    ensures |s| == |ls|
  {
    seq(|ls|, i requires 0 <= i < |ls| => Keep(ls[i]))
  }

  function Removes(ls: Lines): (s: seq<Edit>)
    ensures |s| == |ls|
  {
    seq(|ls|, i requires 0 <= i < |ls| => Remove(ls[i]))
  }

  function Adds(ls: Lines): (s: seq<Edit>)
    ensures |s| == |ls|
  {
    seq(|ls|, i requires 0 <= i < |ls| => Add(ls[i]))
  }

  lemma {:induction false} KeepsAre(ls: Lines)
    ensures Old(Keeps(ls)) == New(Keeps(ls)) == Kept(Keeps(ls)) == ls && Marked(Keeps(ls)) == []
  {
    if ls != [] {
      assert Keeps(ls)[..|ls| - 1] == Keeps(ls[..|ls| - 1]);
      KeepsAre(ls[..|ls| - 1]);
    }
  }

  lemma {:induction false} RemovesAre(ls: Lines)
    ensures Old(Removes(ls)) == ls && New(Removes(ls)) == Kept(Removes(ls)) == [] && Marked(Removes(ls)) == Prefixed("- ", ls)
  {
    if ls != [] {
      assert Removes(ls)[..|ls| - 1] == Removes(ls[..|ls| - 1]);
      RemovesAre(ls[..|ls| - 1]);
      assert Prefixed("- ", ls) == Prefixed("- ", ls[..|ls| - 1]) + ["- " + ls[|ls| - 1]];
    }
  }

  lemma {:induction false} AddsAre(ls: Lines)
    ensures New(Adds(ls)) == ls && Old(Adds(ls)) == Kept(Adds(ls)) == [] && Marked(Adds(ls)) == Prefixed("+ ", ls)
  {
    if ls != [] {
      assert Adds(ls)[..|ls| - 1] == Adds(ls[..|ls| - 1]);
      AddsAre(ls[..|ls| - 1]);
      assert Prefixed("+ ", ls) == Prefixed("+ ", ls[..|ls| - 1]) + ["+ " + ls[|ls| - 1]];
    }
  }

  function Prefixed(p: string, ls: Lines): (r: Lines)
    ensures |r| == |ls|
  {
    seq(|ls|, i requires 0 <= i < |ls| => p + ls[i])
  }

  /** What the edits keep is common to both texts. */
  lemma {:induction false} KeptCommon(s: seq<Edit>)
    ensures Common(Kept(s), Old(s), New(s))
  {
    if s != [] {
      var t, e := s[..|s| - 1], s[|s| - 1];
      KeptCommon(t);
      SubsequenceEnd(Kept(t), Old(t), e.line);
      SubsequenceEnd(Kept(t), New(t), e.line);
      SubsequenceMore(Kept(t), Old(t), e.line);
      SubsequenceMore(Kept(t), New(t), e.line);
      assert Kept(t) + [] == Kept(t) && Old(t) + [] == Old(t) && New(t) + [] == New(t);
    } else {
      assert Subsequence([], []);
    }
  }

  lemma {:induction false} SubsequenceMore(c: Lines, a: Lines, x: string)
    requires Subsequence(c, a)
    ensures Subsequence(c, a + [x])
  {
    if c != [] {
      assert (a + [x])[1..] == a[1..] + [x];
      if c[0] == a[0] && Subsequence(c[1..], a[1..]) {
        SubsequenceMore(c[1..], a[1..], x);
      } else {
        SubsequenceMore(c, a[1..], x);
      }
    }
  }

  /* ---------- The table and the walk ---------- */

  lemma LcsAt(a: Lines, b: Lines, i: nat, j: nat)
    requires i < |a| && j < |b|
    ensures Lcs(a[i..], b[j..])
         == if a[i] == b[j] then Lcs(a[i + 1..], b[j + 1..]) + 1 else Larger(Lcs(a[i + 1..], b[j..]), Lcs(a[i..], b[j + 1..]))
  {
    assert a[i..][1..] == a[i + 1..] && b[j..][1..] == b[j + 1..];
  }

  ghost predicate RowsFrom(t: array2<nat>, a: Lines, b: Lines, i: int)
    reads t
  {
    && t.Length0 == |a| + 1 && t.Length1 == |b| + 1
    && forall m, n | 0 <= m <= |a| && 0 <= n <= |b| && i <= m :: t[m, n] == Lcs(a[m..], b[n..])
  }

  /** Dynamic programming from the ends: entry [i, j] is how much a[i..] and
      b[j..] have in common. */
  method LcsTable(a: Lines, b: Lines) returns (t: array2<nat>)
    ensures fresh(t) && RowsFrom(t, a, b, 0)
  {
    t := new nat[|a| + 1, |b| + 1]((_, _) => 0);
    assert a[|a|..] == [];
    var i := |a|;
    while i > 0
      invariant 0 <= i <= |a| && RowsFrom(t, a, b, i)
      invariant forall m, n | 0 <= m < i && 0 <= n <= |b| :: t[m, n] == 0
    {
      i := i - 1;
      FillRow(t, a, b, i);
    }
  }

  method FillRow(t: array2<nat>, a: Lines, b: Lines, i: nat)
    requires i < |a| && RowsFrom(t, a, b, i + 1) && t[i, |b|] == 0
    modifies t
    ensures RowsFrom(t, a, b, i)
    ensures forall m, n | 0 <= m < i && 0 <= n <= |b| :: t[m, n] == old(t[m, n])
  {
    assert b[|b|..] == [];
    assert Lcs(a[i..], []) == 0;
    hide Lcs;
    ghost var below := Row(a, b, i + 1);
    assert forall n | 0 <= n <= |b| :: t[i + 1, n] == below[n] == Lcs(a[i + 1..], b[n..]);
    hide Row, Larger;
    var j := |b|;
    while j > 0
      invariant 0 <= j <= |b|
      invariant forall n | 0 <= n <= |b| :: t[i + 1, n] == below[n]
      invariant forall n | j <= n <= |b| :: t[i, n] == Lcs(a[i..], b[n..])
      invariant forall m, n | 0 <= m <= |a| && 0 <= n <= |b| && m != i :: t[m, n] == old(t[m, n])
    {
      j := j - 1;
      LcsAt(a, b, i, j);
      if a[i] == b[j] {
        t[i, j] := t[i + 1, j + 1] + 1;
      } else {
        t[i, j] := Larger(t[i + 1, j], t[i, j + 1]);
      }
    }
  }

  ghost function Row(a: Lines, b: Lines, i: nat): (r: seq<nat>)
    requires i <= |a|
    ensures |r| == |b| + 1
  {
    seq(|b| + 1, n requires 0 <= n <= |b| => Lcs(a[i..], b[n..]))
  }

  /** Where a walk is: what it has used of both, and what it can still keep. */
  ghost predicate Walked(s: seq<Edit>, a: Lines, b: Lines, i: nat, j: nat) {
    && i <= |a| && j <= |b|
    && Old(s) == a[..i] && New(s) == b[..j] && |Kept(s)| + Lcs(a[i..], b[j..]) == Lcs(a, b)
    && RemovalsFirst(s)
    && (s != [] && s[|s| - 1].Add? && i < |a| ==> j > 0 && Lcs(a[i..], b[j..]) > Lcs(a[i + 1..], b[j - 1..]))
  }

  lemma WalkKeep(s: seq<Edit>, a: Lines, b: Lines, i: nat, j: nat)
    requires Walked(s, a, b, i, j) && i < |a| && j < |b| && a[i] == b[j]
    ensures Walked(s + [Keep(a[i])], a, b, i + 1, j + 1)
  {
    LcsAt(a, b, i, j);
    Extended(s, Keep(a[i]));
  }

  lemma WalkRemove(s: seq<Edit>, a: Lines, b: Lines, i: nat, j: nat)
    requires Walked(s, a, b, i, j) && i < |a| && (j < |b| ==> a[i] != b[j] && Lcs(a[i + 1..], b[j..]) >= Lcs(a[i..], b[j + 1..]))
    ensures Walked(s + [Remove(a[i])], a, b, i + 1, j)
  {
    if j < |b| {
      LcsAt(a, b, i, j);
    }
    if j > 0 {
      assert b[j - 1..][1..] == b[j..];
      LcsShorter(a[i + 1..], b[j - 1..]);
    }
    Extended(s, Remove(a[i]));
  }

  lemma WalkAdd(s: seq<Edit>, a: Lines, b: Lines, i: nat, j: nat)
    requires Walked(s, a, b, i, j) && j < |b| && (i < |a| ==> a[i] != b[j] && Lcs(a[i + 1..], b[j..]) < Lcs(a[i..], b[j + 1..]))
    ensures Walked(s + [Add(b[j])], a, b, i, j + 1)
  {
    if i < |a| {
      LcsAt(a, b, i, j);
    }
    Extended(s, Add(b[j]));
  }

  lemma Extended(s: seq<Edit>, e: Edit)
    ensures (s + [e])[..|s|] == s
    ensures RemovalsFirst(s) && !(s != [] && s[|s| - 1].Add? && e.Remove?) ==> RemovalsFirst(s + [e])
  {
  }

  /** What the table spells from (0, 0): where dropping either line loses
      nothing, a's goes first. */
  method WalkDiff(a: Lines, b: Lines, t: array2<nat>) returns (out: Lines, ghost s: seq<Edit>)
    requires RowsFrom(t, a, b, 0)
    ensures out == Marked(s) && Old(s) == a && New(s) == b && |Kept(s)| == Lcs(a, b) && RemovalsFirst(s)
  {
    out, s := [], [];
    var i, j := 0, 0;
    assert a[0..] == a && b[0..] == b;
    hide Walked, RemovalsFirst;
    WalkStart(a, b);
    while i < |a| || j < |b|
      invariant i <= |a| && j <= |b| && Walked(s, a, b, i, j) && out == Marked(s)
      decreases |a| - i + |b| - j
    {
      if i < |a| && j < |b| && a[i] == b[j] {
        WalkKeep(s, a, b, i, j);
        Extended(s, Keep(a[i]));
        s := s + [Keep(a[i])];
        i, j := i + 1, j + 1;
      } else if i < |a| && (j == |b| || t[i + 1, j] >= t[i, j + 1]) {
        WalkRemove(s, a, b, i, j);
        Extended(s, Remove(a[i]));
        s := s + [Remove(a[i])];
        out := out + ["- " + a[i]];
        i := i + 1;
      } else {
        WalkAdd(s, a, b, i, j);
        Extended(s, Add(b[j]));
        s := s + [Add(b[j])];
        out := out + ["+ " + b[j]];
        j := j + 1;
      }
    }
    WalkEnd(s, a, b);
  }

  lemma WalkStart(a: Lines, b: Lines)
    ensures Walked([], a, b, 0, 0)
  {
    assert a[0..] == a && b[0..] == b;
  }

  lemma WalkEnd(s: seq<Edit>, a: Lines, b: Lines)
    requires Walked(s, a, b, |a|, |b|)
    ensures Old(s) == a && New(s) == b && |Kept(s)| == Lcs(a, b) && RemovalsFirst(s)
  {
    assert a[..|a|] == a && b[..|b|] == b;
  }

  /* ---------- The whole diff ---------- */

  ghost predicate Longest(c: Lines, a: Lines, b: Lines) {
    Common(c, a, b) && forall d | Common(d, a, b) :: |d| <= |c|
  }

  lemma LcsLongest(s: seq<Edit>)
    requires |Kept(s)| == Lcs(Old(s), New(s))
    ensures Longest(Kept(s), Old(s), New(s))
  {
    KeptCommon(s);
    forall d | Common(d, Old(s), New(s))
      ensures |d| <= |Kept(s)|
    {
      LcsBounds(d, Old(s), New(s));
    }
  }

  /** Whether two regions fit the table. */
  predicate Fits(a: Lines, b: Lines) {
    (|a| + 1) * (|b| + 1) <= MAX_DIFF_CELLS
  }

  lemma {:induction false} LcsStart(p: Lines, a: Lines, b: Lines)
    ensures Lcs(p + a, p + b) == |p| + Lcs(a, b)
  {
    if p == [] {
      assert p + a == a && p + b == b;
    } else {
      assert (p + a)[1..] == p[1..] + a && (p + b)[1..] == p[1..] + b;
      LcsStart(p[1..], a, b);
    }
  }

  lemma {:induction false} LcsFinish(a: Lines, b: Lines, q: Lines)
    ensures Lcs(a + q, b + q) == Lcs(a, b) + |q|
    decreases |q|
  {
    if q == [] {
      assert a + q == a && b + q == b;
    } else {
      assert a + q == a + [q[0]] + q[1..] && b + q == b + [q[0]] + q[1..];
      LcsFinish(a + [q[0]], b + [q[0]], q[1..]);
      LcsEnd(a, b, q[0]);
    }
  }

  /** How many lines both start with. */
  method CommonStart(a: Lines, b: Lines) returns (n: nat)
    ensures n <= |a| && n <= |b| && a[..n] == b[..n]
    ensures n < |a| && n < |b| ==> a[n] != b[n]
  {
    n := 0;
    while n < |a| && n < |b| && a[n] == b[n]
      invariant n <= |a| && n <= |b| && a[..n] == b[..n]
    {
      n := n + 1;
    }
  }

  method CommonEnd(a: Lines, b: Lines) returns (n: nat)
    ensures n <= |a| && n <= |b| && a[|a| - n..] == b[|b| - n..]
    ensures n < |a| && n < |b| ==> a[|a| - n - 1] != b[|b| - n - 1]
  {
    n := 0;
    while n < |a| && n < |b| && a[|a| - n - 1] == b[|b| - n - 1]
      invariant n <= |a| && n <= |b| && a[|a| - n..] == b[|b| - n..]
    {
      assert a[|a| - n - 1..] == [a[|a| - n - 1]] + a[|a| - n..];
      assert b[|b| - n - 1..] == [b[|b| - n - 1]] + b[|b| - n..];
      n := n + 1;
    }
  }

  /** m and n are left of a and b between their longest common start and, after
      it, their longest common end. */
  ghost predicate Trims(a: Lines, b: Lines, first: Lines, m: Lines, n: Lines, last: Lines) {
    && a == first + (m + last) && b == first + (n + last)
    && (m + last != [] && n + last != [] ==> (m + last)[0] != (n + last)[0])
    && (m != [] && n != [] ==> m[|m| - 1] != n[|n| - 1])
  }

  /** What trimming leaves of a and b. */
  ghost predicate Trimmed(a: Lines, b: Lines, m: Lines, n: Lines) {
    exists first, last :: Trims(a, b, first, m, n, last)
  }

  lemma PartAt(u: Lines, head: Lines, tail: Lines, k: nat)
    requires u == head + tail && k < |u|
    ensures u[k] == if k < |head| then head[k] else tail[k - |head|]
  {
  }

  /** A common start is no longer than one after which the texts differ. */
  lemma StartsLongest(a: Lines, b: Lines, first: Lines, u: Lines, v: Lines, first1: Lines, u1: Lines, v1: Lines)
    requires a == first + u == first1 + u1 && b == first + v == first1 + v1
    requires u != [] && v != [] ==> u[0] != v[0]
    ensures |first1| <= |first|
  {
    var k := |first|;
    if u != [] && v != [] {
      PartAt(a, first, u, k);
      PartAt(b, first, v, k);
      PartAt(a, first1, u1, k);
      PartAt(b, first1, v1, k);
    }
  }

  lemma EndsLongest(u: Lines, v: Lines, m: Lines, n: Lines, last: Lines, m1: Lines, n1: Lines, last1: Lines)
    requires u == m + last == m1 + last1 && v == n + last == n1 + last1
    requires m != [] && n != [] ==> m[|m| - 1] != n[|n| - 1]
    ensures |last1| <= |last|
  {
    if m != [] && n != [] {
      PartAt(u, m, last, |m| - 1);
      PartAt(v, n, last, |n| - 1);
      PartAt(u, m1, last1, |m| - 1);
      PartAt(v, n1, last1, |n| - 1);
    }
  }

  lemma PartsSame(head: Lines, tail: Lines, head1: Lines, tail1: Lines)
    requires head + tail == head1 + tail1 && |head| == |head1|
    ensures head == head1 && tail == tail1
  {
    assert (head + tail)[..|head|] == head && (head1 + tail1)[..|head|] == head1;
    assert (head + tail)[|head|..] == tail && (head1 + tail1)[|head|..] == tail1;
  }

  lemma TrimsOnce(a: Lines, b: Lines, first: Lines, m: Lines, n: Lines, last: Lines, first1: Lines, m1: Lines, n1: Lines, last1: Lines)
    requires Trims(a, b, first, m, n, last) && Trims(a, b, first1, m1, n1, last1)
    ensures first == first1 && m == m1 && n == n1 && last == last1
  {
    StartsLongest(a, b, first, m + last, n + last, first1, m1 + last1, n1 + last1);
    StartsLongest(a, b, first1, m1 + last1, n1 + last1, first, m + last, n + last);
    PartsSame(first, m + last, first1, m1 + last1);
    PartsSame(first, n + last, first1, n1 + last1);
    EndsLongest(m + last, n + last, m, n, last, m1, n1, last1);
    EndsLongest(m + last, n + last, m1, n1, last1, m, n, last);
    PartsSame(m, last, m1, last1);
    PartsSame(n, last, n1, last1);
  }

  /** What trimming leaves is settled by the texts alone. */
  lemma TrimmedOnce(a: Lines, b: Lines, m: Lines, n: Lines, m1: Lines, n1: Lines)
    requires Trimmed(a, b, m, n) && Trimmed(a, b, m1, n1)
    ensures m == m1 && n == n1
  {
    hide Trims;
    var first, last :| Trims(a, b, first, m, n, last);
    var first1, last1 :| Trims(a, b, first1, m1, n1, last1);
    TrimsOnce(a, b, first, m, n, last, first1, m1, n1, last1);
  }

  /** Equal texts are trimmed away. */
  lemma TrimsEqual(a: Lines, first: Lines, m: Lines, n: Lines, last: Lines)
    requires Trims(a, a, first, m, n, last)
    ensures m == [] && n == []
  {
    PartsSame(first, m + last, first, n + last);
  }

  /** The edits of the whole texts, from those of what trimming leaves. */
  lemma FramedDiff(a: Lines, b: Lines, first: Lines, m: Lines, n: Lines, last: Lines, mid: seq<Edit>, out: Lines)
    requires Trims(a, b, first, m, n, last) && Old(mid) == m && New(mid) == n && RemovalsFirst(mid) && out == Marked(mid)
    ensures var s := Framed(first, mid, last);
            && out == Marked(s) && Old(s) == a && New(s) == b && Common(Kept(s), a, b) && RemovalsFirst(s)
            && (|Kept(mid)| == Lcs(m, n) ==> Longest(Kept(s), a, b))
            && (out == [] <==> a == b)
  {
    hide Lcs, Old, New, Kept, Marked, RemovalsFirst, Common, Longest, Framed, Trims;
    var s := Framed(first, mid, last);
    TrimsWhole(a, b, first, m, n, last);
    FramedAre(first, mid, last);
    KeptCommon(s);
    if |Kept(mid)| == Lcs(m, n) {
      LcsStart(first, m + last, n + last);
      LcsFinish(m, n, last);
      LcsLongest(s);
    }
    if a == b {
      TrimsEqual(a, first, m, n, last);
    }
    Unchanged(a, b, s, mid);
  }

  lemma TrimsWhole(a: Lines, b: Lines, first: Lines, m: Lines, n: Lines, last: Lines)
    requires Trims(a, b, first, m, n, last)
    ensures a == first + (m + last) && b == first + (n + last)
  {
  }

  lemma Unchanged(a: Lines, b: Lines, s: seq<Edit>, mid: seq<Edit>)
    requires Old(s) == a && New(s) == b && Marked(s) == Marked(mid)
    requires a == b ==> Old(mid) == [] && New(mid) == []
    ensures Marked(s) == [] <==> a == b
  {
    if Marked(s) == [] {
      NothingMarked(s);
    }
    if a == b {
      NothingThere(mid);
    }
  }

  /** The changed lines are, in order, what is left of both texts around one
      common subsequence. When what trimming leaves fits the table, no common
      subsequence of the whole texts is longer; else what it leaves is removed
      and added whole. */
  method Diff(a: Lines, b: Lines) returns (out: Lines, ghost s: seq<Edit>, ghost m: Lines, ghost n: Lines)
    ensures out == Marked(s) && Old(s) == a && New(s) == b && Common(Kept(s), a, b) && RemovalsFirst(s)
    ensures Trimmed(a, b, m, n)
    ensures Fits(m, n) ==> Longest(Kept(s), a, b)
    ensures !Fits(m, n) ==> out == Prefixed("- ", m) + Prefixed("+ ", n)
    ensures out == [] <==> a == b
  {
    hide *;
    var p := CommonStart(a, b);
    var x, y := a[p..], b[p..];
    var q := CommonEnd(x, y);
    var u, v := x[..|x| - q], y[..|y| - q];
    m, n := u, v;
    ghost var mid;
    out, mid := DiffRegion(u, v);
    s := Framed(a[..p], mid, x[|x| - q..]);
    ghost var first, last := a[..p], x[|x| - q..];
    StartCut(a, b, p);
    TrimmedAt(a, b, first, x, y, q);
    FramedDiff(a, b, first, u, v, last, mid, out);
  }

  lemma StartCut(a: Lines, b: Lines, p: nat)
    requires p <= |a| && p <= |b| && a[..p] == b[..p] && (p < |a| && p < |b| ==> a[p] != b[p])
    ensures a == a[..p] + a[p..] && b == a[..p] + b[p..]
    ensures a[p..] != [] && b[p..] != [] ==> a[p..][0] != b[p..][0]
  {
  }

  lemma TrimmedAt(a: Lines, b: Lines, first: Lines, x: Lines, y: Lines, q: nat)
    requires a == first + x && b == first + y && (x != [] && y != [] ==> x[0] != y[0])
    requires q <= |x| && q <= |y| && x[|x| - q..] == y[|y| - q..]
    requires q < |x| && q < |y| ==> x[|x| - q - 1] != y[|y| - q - 1]
    ensures Trims(a, b, first, x[..|x| - q], y[..|y| - q], x[|x| - q..])
    ensures Trimmed(a, b, x[..|x| - q], y[..|y| - q])
  {
    var m, n, last := x[..|x| - q], y[..|y| - q], x[|x| - q..];
    assert m + last == x && n + last == y;
    assert Trims(a, b, first, m, n, last);
  }

  /** The region between the common start and end: by the table, or, too
      large for it, removed and added whole. */
  method DiffRegion(m: Lines, n: Lines) returns (out: Lines, ghost mid: seq<Edit>)
    ensures out == Marked(mid) && Old(mid) == m && New(mid) == n && RemovalsFirst(mid)
    ensures Fits(m, n) ==> |Kept(mid)| == Lcs(m, n)
    ensures !Fits(m, n) ==> out == Prefixed("- ", m) + Prefixed("+ ", n)
  {
    hide *;
    if !Fits(m, n) {
      out := Prefixed("- ", m) + Prefixed("+ ", n);
      mid := Removes(m) + Adds(n);
      RegionWhole(m, n);
    } else {
      var t := LcsTable(m, n);
      out, mid := WalkDiff(m, n, t);
    }
  }

  lemma RegionWhole(m: Lines, n: Lines)
    ensures var s := Removes(m) + Adds(n);
            Old(s) == m && New(s) == n && Marked(s) == Prefixed("- ", m) + Prefixed("+ ", n) && RemovalsFirst(s)
  {
    hide Old, New, Kept, Marked, Prefixed;
    RemovesAre(m);
    AddsAre(n);
    EditsJoin(Removes(m), Adds(n));
    assert m + [] == m && [] + n == n;
  }

  ghost function Framed(first: Lines, mid: seq<Edit>, last: Lines): seq<Edit> {
    Keeps(first) + mid + Keeps(last)
  }

  lemma FramedAre(first: Lines, mid: seq<Edit>, last: Lines)
    ensures var s := Framed(first, mid, last);
            && Old(s) == first + (Old(mid) + last) && New(s) == first + (New(mid) + last)
            && Marked(s) == Marked(mid) && |Kept(s)| == |first| + |Kept(mid)| + |last|
            && (RemovalsFirst(mid) ==> RemovalsFirst(s))
  {
    hide Old, New, Kept, Marked, Keeps;
    KeepsAre(first);
    KeepsAre(last);
    EditsJoin(Keeps(first), mid);
    EditsJoin(Keeps(first) + mid, Keeps(last));
    FramedFirst(first, mid, last);
  }

  lemma FramedFirst(first: Lines, mid: seq<Edit>, last: Lines)
    ensures RemovalsFirst(mid) ==> RemovalsFirst(Framed(first, mid, last))
  {
  }
}
