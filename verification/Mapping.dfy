/** Mapping the paths a source reports to local ones, and the check of its
    configuration that no two reported paths share a local one. */
module Mapping {
  import opened Wrappers
  import opened Paths

  const MAX_PATH_BYTES := 4096

  datatype PathMapping = PathMapping(from: string, dest: string)
  datatype PathError = PathRule | Aliased

  /** The rule a path meets; safe stands for the runes one line may hold. */
  predicate ValidPath(safe: char -> bool, p: string) {
    AbsClean(p) && |p| <= MAX_PATH_BYTES && forall i | 0 <= i < |p| :: safe(p[i])
  }

  predicate ValidMappings(safe: char -> bool, ms: seq<PathMapping>) {
    forall i | 0 <= i < |ms| :: ValidPath(safe, ms[i].from) && ValidPath(safe, ms[i].dest)
  }

  /** What is left of p below root; None where root is no directory above it. */
  function Under(root: string, p: string): (rel: Option<seq<string>>)
    requires AbsClean(root) && AbsClean(p)
    ensures rel.Some? <==> Components(root) <= Components(p)
    ensures rel.Some? ==> Components(root) + rel.value == Components(p)
  {
    var a, b := Components(root), Components(p);
    if a <= b then Some(b[|a|..]) else None
  }

  function Joining(root: string, rel: seq<string>): string
    requires AbsClean(root)
  {
    Text(Components(root) + rel)
  }

  /* ---------- The longest mapping ---------- */

  /** m after every mapping whose from is as long, before the shorter ones. */
  function Inserted(m: PathMapping, maps: seq<PathMapping>): seq<PathMapping> {
    if maps == [] || |m.from| > |maps[0].from| then [m] + maps
    else [maps[0]] + Inserted(m, maps[1..])
  }

  lemma {:induction false} InsertedSame(m: PathMapping, maps: seq<PathMapping>)
    ensures multiset(Inserted(m, maps)) == multiset(maps) + multiset{m}
  {
    if maps != [] && |m.from| <= |maps[0].from| {
      InsertedSame(m, maps[1..]);
      assert maps == [maps[0]] + maps[1..];
    }
  }

  /** The mappings by length of from, longest first, equal ones in order. */
  function ByLength(ms: seq<PathMapping>): seq<PathMapping> {
    if ms == [] then [] else Inserted(ms[|ms| - 1], ByLength(ms[..|ms| - 1]))
  }

  predicate Descending(maps: seq<PathMapping>) {
    forall i, j | 0 <= i < j < |maps| :: |maps[i].from| >= |maps[j].from|
  }

  predicate Holds(m: PathMapping, p: string) {
    AbsClean(m.from) && AbsClean(p) && Components(m.from) <= Components(p)
  }

  function FirstMatch(maps: seq<PathMapping>, p: string): Option<PathMapping> {
    if maps == [] then None
    else if Holds(maps[0], p) then Some(maps[0])
    else FirstMatch(maps[1..], p)
  }

  predicate NoLonger(maps: seq<PathMapping>, n: nat) {
    forall i | 0 <= i < |maps| :: |maps[i].from| <= n
  }

  lemma {:induction false} InsertedDescending(m: PathMapping, maps: seq<PathMapping>)
    requires Descending(maps)
    ensures Descending(Inserted(m, maps))
  {
    if maps != [] && |m.from| <= |maps[0].from| {
      InsertedDescending(m, maps[1..]);
      InsertedLengths(m, maps[1..], |maps[0].from|);
      HeadDescending(maps[0], Inserted(m, maps[1..]));
    } else if maps != [] {
      HeadDescending(m, maps);
    }
  }

  lemma HeadDescending(m: PathMapping, maps: seq<PathMapping>)
    requires Descending(maps) && NoLonger(maps, |m.from|)
    ensures Descending([m] + maps)
  {
  }

  lemma {:induction false} InsertedLengths(m: PathMapping, maps: seq<PathMapping>, n: nat)
    requires |m.from| <= n && NoLonger(maps, n)
    ensures NoLonger(Inserted(m, maps), n)
  {
    if maps != [] && |m.from| <= |maps[0].from| {
      InsertedLengths(m, maps[1..], n);
    }
  }

  /** Inserting one more mapping changes the first match only to it, and only
      when it is longer. */
  lemma {:induction false} InsertedMatch(m: PathMapping, maps: seq<PathMapping>, p: string)
    requires Descending(maps)
    ensures var was := FirstMatch(maps, p);
            FirstMatch(Inserted(m, maps), p)
            == if Holds(m, p) && (was.None? || |m.from| > |was.value.from|) then Some(m) else was
  {
    FirstShorter(maps, p);
    if maps == [] {
      assert [m][1..] == [];
    } else if |m.from| > |maps[0].from| {
      assert ([m] + maps)[1..] == maps;
    } else {
      InsertedMatch(m, maps[1..], p);
      assert ([maps[0]] + Inserted(m, maps[1..]))[1..] == Inserted(m, maps[1..]);
    }
  }

  lemma {:induction false} FirstShorter(maps: seq<PathMapping>, p: string)
    requires Descending(maps)
    ensures var f := FirstMatch(maps, p); f.Some? ==> f.value in maps && Holds(f.value, p) && |f.value.from| <= |maps[0].from|
    ensures FirstMatch(maps, p).None? ==> forall i | 0 <= i < |maps| :: !Holds(maps[i], p)
  {
    if maps != [] && !Holds(maps[0], p) {
      FirstShorter(maps[1..], p);
    }
  }

  /** m's from contains p, and no other containing p is longer, or as long and
      configured earlier. */
  ghost predicate Longest(ms: seq<PathMapping>, i: nat, p: string) {
    && i < |ms| && Holds(ms[i], p)
    && forall j | 0 <= j < |ms| && Holds(ms[j], p) :: |ms[j].from| < |ms[i].from| || (|ms[j].from| == |ms[i].from| && i <= j)
  }

  lemma NoMatch(p: string)
    ensures FirstMatch([], p).None? && Descending([])
  {
  }

  lemma {:induction false} ByLengthMatch(ms: seq<PathMapping>, p: string) returns (i: nat)
    ensures Descending(ByLength(ms))
    ensures FirstMatch(ByLength(ms), p).Some? ==> Longest(ms, i, p) && FirstMatch(ByLength(ms), p).value == ms[i]
    ensures FirstMatch(ByLength(ms), p).None? ==> forall j | 0 <= j < |ms| :: !Holds(ms[j], p)
  {
    hide Holds, Inserted, FirstMatch, Descending;
    i := 0;
    NoMatch(p);
    if ms != [] {
      var n := |ms| - 1;
      i := ByLengthMatch(ms[..n], p);
      InsertedDescending(ms[n], ByLength(ms[..n]));
      InsertedMatch(ms[n], ByLength(ms[..n]), p);
      var was := FirstMatch(ByLength(ms[..n]), p);
      if Holds(ms[n], p) && (was.None? || |ms[n].from| > |was.value.from|) {
        i := n;
      }
    }
  }

  /** The longest from is the one with the most components of the path. */
  lemma LongestComponents(ms: seq<PathMapping>, i: nat, p: string, j: nat)
    requires Longest(ms, i, p) && j < |ms| && Holds(ms[j], p)
    ensures Components(ms[j].from) <= Components(ms[i].from)
  {
    var a, b := Components(ms[i].from), Components(ms[j].from);
    TextComponents(ms[i].from);
    TextComponents(ms[j].from);
    if |b| > |a| {
      assert a == Components(p)[..|a|] && b == Components(p)[..|b|];
      assert a <= b;
      ContainedLonger(a, b);
    } else {
      assert a == Components(p)[..|a|] && b == Components(p)[..|b|];
    }
  }

  /* ---------- Mapping a path ---------- */

  predicate Shadowed(maps: seq<PathMapping>, p: string) {
    exists i :: 0 <= i < |maps| && AbsClean(maps[i].dest) && AbsClean(p) && Components(maps[i].dest) <= Components(p)
  }

  /** The local path of a reported one: under the longest mapping, or as it
      is unless a mapping's to contains it. */
  function ToLocal(safe: char -> bool, maps: seq<PathMapping>, p: string): Result<string, PathError>
    requires ValidMappings(safe, maps)
  {
    if !ValidPath(safe, p) then Failure(PathRule)
    else
      match FirstMatch(maps, p)
      case Some(m) =>
        FirstIn(maps, p);
        var local := Joining(m.dest, Under(m.from, p).value);
        if ValidPath(safe, local) then Success(local) else Failure(PathRule)
      case None => if Shadowed(maps, p) then Failure(Aliased) else Success(p)
  }

  lemma {:induction false} FirstIn(maps: seq<PathMapping>, p: string)
    ensures var f := FirstMatch(maps, p); f.Some? ==> f.value in maps && Holds(f.value, p)
  {
    if maps != [] && !Holds(maps[0], p) {
      FirstIn(maps[1..], p);
    }
  }

  /** A path one line may hold, of at most four thousand and ninety-six bytes. */
  predicate Fits(safe: char -> bool, p: string) {
    AbsClean(p) && |p| <= 4096 && forall c | c in p :: safe(c)
  }

  /** m's part from contains the clean path p. */
  predicate Contains(from: string, p: string) {
    AbsClean(from) && AbsClean(p) && Components(from) <= Components(p)
  }

  /** What a path is answered with, of mappings as they are configured: under
      the longest that contains it, the earlier among equals, its own rest below
      that one's to; else itself, unless some to contains it. */
  ghost predicate Answers(safe: char -> bool, ms: seq<PathMapping>, p: string, r: Result<string, PathError>) {
    if !Fits(safe, p) then r == Failure(PathRule)
    else if exists i :: 0 <= i < |ms| && Contains(ms[i].from, p) then
      exists i :: 0 <= i < |ms| && Contains(ms[i].from, p) && AbsClean(ms[i].dest)
                  && (forall j | 0 <= j < |ms| && Contains(ms[j].from, p) ::
                        |ms[j].from| < |ms[i].from| || (|ms[j].from| == |ms[i].from| && i <= j))
                  && var local := Text(Components(ms[i].dest) + Components(p)[|Components(ms[i].from)|..]);
                     r == if Fits(safe, local) then Success(local) else Failure(PathRule)
    else if exists i :: 0 <= i < |ms| && Contains(ms[i].dest, p) then r == Failure(Aliased)
    else r == Success(p)
  }

  lemma FitsValid(safe: char -> bool, p: string)
    ensures ValidPath(safe, p) <==> Fits(safe, p)
  {
    hide AbsClean;
    if ValidPath(safe, p) {
      forall c | c in p
        ensures safe(c)
      {
        var i :| 0 <= i < |p| && p[i] == c;
      }
    }
  }

  lemma ShadowedConfigured(ms: seq<PathMapping>, p: string)
    ensures Shadowed(ByLength(ms), p) <==> exists i :: 0 <= i < |ms| && Contains(ms[i].dest, p)
  {
    hide AbsClean, Components;
    var maps := ByLength(ms);
    SameMappings(ms);
    if i :| 0 <= i < |maps| && Contains(maps[i].dest, p) {
      assert maps[i] in multiset(maps);
      assert maps[i] in ms;
    }
    if i :| 0 <= i < |ms| && Contains(ms[i].dest, p) {
      assert ms[i] in multiset(ms);
      assert ms[i] in maps;
    }
  }

  lemma MatchedAnswers(safe: char -> bool, ms: seq<PathMapping>, i: nat, p: string)
    requires ValidMappings(safe, ms) && Fits(safe, p) && Longest(ms, i, p)
    ensures var local := Joining(ms[i].dest, Under(ms[i].from, p).value);
            Answers(safe, ms, p, if ValidPath(safe, local) then Success(local) else Failure(PathRule))
  {
    MatchedAt(safe, ms, i, p);
    forall j | 0 <= j < |ms|
      ensures Holds(ms[j], p) <==> Contains(ms[j].from, p)
    {
    }
    FitsValid(safe, Text(Components(ms[i].dest) + Components(p)[|Components(ms[i].from)|..]));
    hide AbsClean, Components, Text, Fits, ValidPath, Holds, Contains;
  }

  lemma UnmatchedAnswers(safe: char -> bool, ms: seq<PathMapping>, p: string)
    requires Fits(safe, p) && forall j | 0 <= j < |ms| :: !Holds(ms[j], p)
    ensures Answers(safe, ms, p, if Shadowed(ByLength(ms), p) then Failure(Aliased) else Success(p))
  {
    ShadowedConfigured(ms, p);
    forall j | 0 <= j < |ms|
      ensures Holds(ms[j], p) <==> Contains(ms[j].from, p)
    {
    }
    hide AbsClean, Components, Text, Fits, Holds, Contains, Shadowed, ByLength;
  }

  /** The mapper's order decides what the configuration promises. */
  lemma LocalAnswers(safe: char -> bool, ms: seq<PathMapping>, p: string)
    requires ValidMappings(safe, ms) && ValidMappings(safe, ByLength(ms))
    ensures Answers(safe, ms, p, ToLocal(safe, ByLength(ms), p))
  {
    hide AbsClean, Components, FirstMatch, Shadowed, ByLength, Text, Joining, Under, Answers, Longest, Holds, ValidMappings;
    FitsValid(safe, p);
    if !Fits(safe, p) {
      UnfitAnswers(safe, ms, p);
    } else {
      var i := ByLengthMatch(ms, p);
      if FirstMatch(ByLength(ms), p).Some? {
        MatchedAnswers(safe, ms, i, p);
      } else {
        UnmatchedAnswers(safe, ms, p);
      }
    }
  }

  lemma UnfitAnswers(safe: char -> bool, ms: seq<PathMapping>, p: string)
    requires !Fits(safe, p)
    ensures Answers(safe, ms, p, Failure(PathRule))
  {
  }

  lemma MatchedAt(safe: char -> bool, ms: seq<PathMapping>, i: nat, p: string)
    requires ValidMappings(safe, ms) && Longest(ms, i, p)
    ensures AbsClean(ms[i].dest) && Contains(ms[i].from, p) && Under(ms[i].from, p) == Some(Components(p)[|Components(ms[i].from)|..])
  {
  }

  /** A source's mappings, longest from first. */
  class Mapper {
    const safe: char -> bool
    var maps: seq<PathMapping>
    ghost const configured: seq<PathMapping>

    ghost predicate Valid()
      reads this
    {
      maps == ByLength(configured) && ValidMappings(safe, maps)
    }

    constructor (safe: char -> bool, ms: seq<PathMapping>)
      requires ValidMappings(safe, ms)
      ensures Valid() && this.safe == safe && configured == ms
    {
      var sorted: seq<PathMapping> := [];
      for i := 0 to |ms|
        invariant sorted == ByLength(ms[..i])
      {
        assert ms[..i + 1][..i] == ms[..i];
        sorted := Inserted(ms[i], sorted);
      }
      assert ms[..|ms|] == ms;
      SameMappings(ms);
      ValidSorted(safe, ms, sorted);
      this.safe, configured, maps := safe, ms, sorted;
    }

    lemma ValidConfigured()
      requires Valid()
      ensures ValidMappings(safe, configured)
    {
      SameMappings(configured);
      forall i | 0 <= i < |configured|
        ensures ValidPath(safe, configured[i].from) && ValidPath(safe, configured[i].dest)
      {
        assert configured[i] in multiset(configured);
        assert configured[i] in maps;
      }
    }

    /** The first mapping in order whose from contains a path. */
    method Match(p: string) returns (m: Option<PathMapping>)
      requires Valid() && AbsClean(p)
      ensures m == FirstMatch(maps, p)
    {
      hide AbsClean, Components, FirstMatch, ByLength;
      for i := 0 to |maps|
        invariant FirstMatch(maps, p) == FirstMatch(maps[i..], p)
      {
        MatchStep(maps, i, p);
        if Under(maps[i].from, p).Some? {
          return Some(maps[i]);
        }
      }
      NoMatch(p);
      assert maps[|maps|..] == [];
      m := None;
    }

    /** Whether some mapping's to contains a path. */
    method Shadows(p: string) returns (shadowed: bool)
      requires Valid() && AbsClean(p)
      ensures shadowed == Shadowed(maps, p)
    {
      hide AbsClean, Components, ByLength;
      for i := 0 to |maps|
        invariant forall j | 0 <= j < i :: !(Components(maps[j].dest) <= Components(p))
      {
        if Under(maps[i].dest, p).Some? {
          return true;
        }
      }
      shadowed := false;
    }

    /** The first match in order is the longest by component. */
    method Local(reported: string) returns (r: Result<string, PathError>)
      requires Valid()
      ensures r == ToLocal(safe, maps, reported) && Answers(safe, configured, reported, r)
    {
      ValidConfigured();
      LocalAnswers(safe, configured, reported);
      hide Answers, AbsClean, Components, FirstMatch, Shadowed, Joining, ByLength;
      if !ValidPath(safe, reported) {
        return Failure(PathRule);
      }
      var m := Match(reported);
      if m.Some? {
        FirstIn(maps, reported);
        var local := Joining(m.value.dest, Under(m.value.from, reported).value);
        return if ValidPath(safe, local) then Success(local) else Failure(PathRule);
      }
      var shadowed := Shadows(reported);
      r := if shadowed then Failure(Aliased) else Success(reported);
    }
  }

  lemma MatchStep(maps: seq<PathMapping>, i: nat, p: string)
    requires i < |maps|
    ensures FirstMatch(maps[i..], p) == if Holds(maps[i], p) then Some(maps[i]) else FirstMatch(maps[i + 1..], p)
  {
    assert maps[i..][1..] == maps[i + 1..];
  }

  lemma {:induction false} SameMappings(ms: seq<PathMapping>)
    ensures multiset(ByLength(ms)) == multiset(ms)
  {
    hide Inserted;
    if ms != [] {
      SameMappings(ms[..|ms| - 1]);
      InsertedSame(ms[|ms| - 1], ByLength(ms[..|ms| - 1]));
      assert ms == ms[..|ms| - 1] + [ms[|ms| - 1]];
    }
  }

  lemma ValidSorted(safe: char -> bool, ms: seq<PathMapping>, maps: seq<PathMapping>)
    requires ValidMappings(safe, ms) && multiset(maps) == multiset(ms)
    ensures ValidMappings(safe, maps)
  {
    forall i | 0 <= i < |maps|
      ensures ValidPath(safe, maps[i].from) && ValidPath(safe, maps[i].dest)
    {
      assert maps[i] in multiset(maps);
      assert maps[i] in ms;
    }
  }

  /* ---------- The check of a configuration ---------- */

  predicate Overlaps(a: string, b: string)
    requires AbsClean(a) && AbsClean(b)
  {
    Components(a) <= Components(b) || Components(b) <= Components(a)
  }

  /** Two mappings agree where they overlap: the step between their froms is
      the step between their tos. */
  predicate NestsExactly(a: PathMapping, b: PathMapping)
    requires AbsClean(a.from) && AbsClean(a.dest) && AbsClean(b.from) && AbsClean(b.dest)
  {
    if Under(a.dest, b.dest).Some? then Under(a.from, b.from) == Under(a.dest, b.dest)
    else Under(b.dest, a.dest).Some? && Under(b.from, a.from) == Under(b.dest, a.dest)
  }

  predicate Clashes(safe: char -> bool, ms: seq<PathMapping>, i: nat, j: nat)
    requires ValidMappings(safe, ms) && i < |ms| && j < |ms|
  {
    Overlaps(ms[i].dest, ms[j].dest) && !NestsExactly(ms[i], ms[j])
  }

  /** The first mapping that clashes with an earlier one, or -1. */
  method Injective(safe: char -> bool, ms: seq<PathMapping>) returns (at: int)
    requires ValidMappings(safe, ms)
    ensures -1 <= at < |ms|
    ensures at >= 0 ==> exists i: nat :: i < at && Clashes(safe, ms, i, at)
    ensures forall i: nat, j: nat | i < j < (if at >= 0 then at else |ms|) :: !Clashes(safe, ms, i, j)
  {
    hide Clashes, ValidMappings;
    for j := 0 to |ms|
      invariant forall i: nat, k: nat | i < k < j :: !Clashes(safe, ms, i, k)
    {
      for i := 0 to j
        invariant forall k: nat | k < i :: !Clashes(safe, ms, k, j)
      {
        if Clashes(safe, ms, i, j) {
          return j;
        }
      }
    }
    at := -1;
  }

  ghost predicate Accepted(safe: char -> bool, ms: seq<PathMapping>)
    requires ValidMappings(safe, ms)
  {
    forall i: nat, j: nat | i < j < |ms| :: !Clashes(safe, ms, i, j)
  }

  lemma NestedSeqs(a: seq<string>, rx: seq<string>, b: seq<string>, ry: seq<string>, t: seq<string>, rel: seq<string>)
    requires t + rx == t + rel + ry && b == a + rel
    ensures a + rx == b + ry
  {
    assert t + rel + ry == t + (rel + ry) && a + rel + ry == a + (rel + ry);
    Cancel(t, rx, rel + ry);
  }

  /** Two nested mappings move a path by the same components. */
  lemma NestedSame(a: PathMapping, b: PathMapping, x: string, y: string)
    requires AbsClean(a.from) && AbsClean(a.dest) && AbsClean(b.from) && AbsClean(b.dest)
    requires NestsExactly(a, b) && Holds(a, x) && Holds(b, y)
    requires Components(a.dest) + Under(a.from, x).value == Components(b.dest) + Under(b.from, y).value
    ensures x == y
  {
    TextComponents(x);
    TextComponents(y);
    hide AbsClean, Components, Text;
    var rx, ry := Under(a.from, x).value, Under(b.from, y).value;
    if Under(a.dest, b.dest).Some? {
      NestedSeqs(Components(a.from), rx, Components(b.from), ry, Components(a.dest), Under(a.dest, b.dest).value);
    } else {
      NestedSeqs(Components(b.from), ry, Components(a.from), rx, Components(b.dest), Under(b.dest, a.dest).value);
    }
  }

  lemma Cancel(p: seq<string>, a: seq<string>, b: seq<string>)
    requires p + a == p + b
    ensures a == b
  {
    assert (p + a)[|p|..] == a && (p + b)[|p|..] == b;
  }

  lemma NestsBack(a: PathMapping, b: PathMapping)
    requires AbsClean(a.from) && AbsClean(a.dest) && AbsClean(b.from) && AbsClean(b.dest)
    ensures NestsExactly(a, b) <==> NestsExactly(b, a)
  {
    if Under(a.dest, b.dest).Some? && Under(b.dest, a.dest).Some? {
      assert Components(a.dest) == Components(b.dest);
    }
  }

  lemma LocalComponents(safe: char -> bool, m: PathMapping, p: string)
    requires ValidPath(safe, m.dest) && Holds(m, p)
    ensures AbsClean(Joining(m.dest, Under(m.from, p).value))
         && Components(Joining(m.dest, Under(m.from, p).value)) == Components(m.dest) + Under(m.from, p).value
  {
    var rel := Under(m.from, p).value;
    TextComponents(m.dest);
    TextComponents(p);
    var cs := Components(m.dest) + rel;
    forall i | 0 <= i < |cs|
      ensures PlainComponent(cs[i]) && '/' !in cs[i]
    {
      if i >= |Components(m.dest)| {
        assert cs[i] == Components(p)[|Components(m.from)| + i - |Components(m.dest)|];
      }
    }
    ComponentsText(cs);
  }

  /** Of mappings the check accepts, no two reported paths have one local
      path: mapped, nested or passed through. */
  lemma ToLocalInjective(safe: char -> bool, ms: seq<PathMapping>, x: string, y: string)
    requires ValidMappings(safe, ms) && Accepted(safe, ms)
    requires ValidMappings(safe, ByLength(ms))
    requires ToLocal(safe, ByLength(ms), x).Success? && ToLocal(safe, ByLength(ms), y).Success?
    requires ToLocal(safe, ByLength(ms), x).value == ToLocal(safe, ByLength(ms), y).value
    ensures x == y
  {
    var maps := ByLength(ms);
    var i := ByLengthMatch(ms, x);
    var j := ByLengthMatch(ms, y);
    SameMappings(ms);
    var fx, fy := FirstMatch(maps, x), FirstMatch(maps, y);
    if fx.Some? {
      LocalComponents(safe, ms[i], x);
    }
    if fy.Some? {
      LocalComponents(safe, ms[j], y);
    }
    if fx.Some? && fy.Some? {
      BothMapped(safe, ms, i, j, x, y);
    } else if fx.Some? {
      MappedElsewhere(ms, maps, i, x, y);
    } else if fy.Some? {
      MappedElsewhere(ms, maps, j, y, x);
    }
  }

  lemma BothMapped(safe: char -> bool, ms: seq<PathMapping>, i: nat, j: nat, x: string, y: string)
    requires ValidMappings(safe, ms) && Accepted(safe, ms) && i < |ms| && j < |ms| && Holds(ms[i], x) && Holds(ms[j], y)
    requires Components(ms[i].dest) + Under(ms[i].from, x).value == Components(ms[j].dest) + Under(ms[j].from, y).value
    ensures x == y
  {
    var rx, ry := Under(ms[i].from, x).value, Under(ms[j].from, y).value;
    Overlapping(Components(ms[i].dest), rx, Components(ms[j].dest), ry);
    assert Overlaps(ms[i].dest, ms[j].dest);
    if i == j {
      Cancel(Components(ms[i].dest), rx, ry);
      TextComponents(x);
      TextComponents(y);
    } else {
      NestsBack(ms[i], ms[j]);
      if i < j {
        assert !Clashes(safe, ms, i, j);
      } else {
        assert !Clashes(safe, ms, j, i);
      }
      NestedSame(ms[i], ms[j], x, y);
    }
  }

  lemma Overlapping(a: seq<string>, ra: seq<string>, b: seq<string>, rb: seq<string>)
    requires a + ra == b + rb
    ensures a <= b || b <= a
  {
    assert (a + ra)[..|a|] == a && (b + rb)[..|b|] == b;
    if |a| <= |b| {
      assert (b + rb)[..|a|] == b[..|a|];
    } else {
      assert (a + ra)[..|b|] == a[..|b|];
    }
  }

  /** A path passed through is under no to, so it is no mapped path. */
  lemma MappedElsewhere(ms: seq<PathMapping>, maps: seq<PathMapping>, i: nat, x: string, y: string)
    requires i < |ms| && multiset(maps) == multiset(ms) && Holds(ms[i], x) && AbsClean(ms[i].dest) && AbsClean(y)
    requires Components(y) == Components(ms[i].dest) + Under(ms[i].from, x).value
    ensures Shadowed(maps, y)
  {
    assert ms[i] in multiset(maps);
    var k :| 0 <= k < |maps| && maps[k] == ms[i];
  }

  /** What m sends tail to, and where it comes from. */
  function Source(m: PathMapping, tail: seq<string>): string
    requires AbsClean(m.from)
  {
    Text(Components(m.from) + tail)
  }

  lemma ClashApart(a: PathMapping, b: PathMapping, tail: seq<string>)
    requires AbsClean(a.from) && AbsClean(a.dest) && AbsClean(b.from) && AbsClean(b.dest)
    requires Under(a.dest, b.dest).Some? && !NestsExactly(a, b) && Plain(tail)
    ensures Source(a, Under(a.dest, b.dest).value + tail) != Source(b, tail)
  {
    TextComponents(a.from);
    TextComponents(b.from);
    RelPlain(a.dest, b.dest);
    var p, q, rel := Components(a.from), Components(b.from), Under(a.dest, b.dest).value;
    ComponentsText(p + (rel + tail));
    ComponentsText(q + tail);
    hide AbsClean, Components, Text;
    if p + (rel + tail) == q + tail {
      assert p + (rel + tail) == p + rel + tail;
      CancelBack(p + rel, q, tail);
    }
  }

  /** What the check refuses is real: a clash sends two reported paths to one
      local path, unless longer mappings take them elsewhere. */
  lemma ClashCollides(safe: char -> bool, maps: seq<PathMapping>, a: PathMapping, b: PathMapping, tail: seq<string>)
    requires AbsClean(a.from) && AbsClean(a.dest) && AbsClean(b.from) && AbsClean(b.dest) && Plain(tail)
    requires Under(a.dest, b.dest).Some? && !NestsExactly(a, b)
    requires var x, y := Source(a, Under(a.dest, b.dest).value + tail), Source(b, tail);
             && ValidMappings(safe, maps) && ValidPath(safe, x) && ValidPath(safe, y) && ValidPath(safe, Text(Components(b.dest) + tail))
             && FirstMatch(maps, x) == Some(a) && FirstMatch(maps, y) == Some(b)
    ensures var x, y := Source(a, Under(a.dest, b.dest).value + tail), Source(b, tail);
            x != y && ToLocal(safe, maps, x) == ToLocal(safe, maps, y) == Success(Text(Components(b.dest) + tail))
  {
    hide *;
    RelPlain(a.dest, b.dest);
    ClashApart(a, b, tail);
    var rel := Under(a.dest, b.dest).value;
    assert Components(a.dest) + (rel + tail) == Components(b.dest) + tail;
    PlainJoin(rel, tail);
    Routed(safe, maps, a, rel + tail);
    Routed(safe, maps, b, tail);
  }

  lemma PlainJoin(a: seq<string>, b: seq<string>)
    requires Plain(a) && Plain(b)
    ensures Plain(a + b)
  {
  }

  lemma RelPlain(root: string, p: string)
    requires AbsClean(root) && AbsClean(p) && Under(root, p).Some?
    ensures Plain(Under(root, p).value)
  {
    TextComponents(p);
    var rel := Under(root, p).value;
    forall k | 0 <= k < |rel|
      ensures PlainComponent(rel[k]) && '/' !in rel[k]
    {
      assert rel[k] == Components(p)[|Components(root)| + k];
    }
  }

  /** A path whose first match is m goes where m sends it. */
  lemma Routed(safe: char -> bool, maps: seq<PathMapping>, m: PathMapping, rel: seq<string>)
    requires ValidMappings(safe, maps) && AbsClean(m.from) && AbsClean(m.dest) && Plain(rel)
    requires ValidPath(safe, Source(m, rel)) && ValidPath(safe, Text(Components(m.dest) + rel))
    requires FirstMatch(maps, Source(m, rel)) == Some(m)
    ensures ToLocal(safe, maps, Source(m, rel)) == Success(Text(Components(m.dest) + rel))
  {
    TextComponents(m.from);
    var p := Text(Components(m.from) + rel);
    ComponentsText(Components(m.from) + rel);
    hide AbsClean, Components, Text, FirstMatch;
    FirstIn(maps, p);
    Cancel(Components(m.from), Under(m.from, p).value, rel);
  }

  lemma CancelBack(a: seq<string>, b: seq<string>, tail: seq<string>)
    requires a + tail == b + tail
    ensures a == b
  {
    assert (a + tail)[..|a|] == a && (b + tail)[..|b|] == b;
  }
}
