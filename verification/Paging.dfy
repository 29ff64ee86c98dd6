/** Reading a list in pages: where a page resumes, and why pages join into
    the whole list. */
module Paging {
  import opened Wrappers
  import opened Bytes

  /* ---------- Rows in key order ---------- */

  ghost predicate IsLeast(s: set<Bytes>, b: Bytes) {
    b in s && forall x | x in s :: x == b || Less(b, x)
  }

  lemma LeastUnique(s: set<Bytes>, a: Bytes, b: Bytes)
    requires IsLeast(s, a) && IsLeast(s, b)
    ensures a == b
  {
    LessTotal(a, b);
  }

  lemma {:induction false} LeastExists(s: set<Bytes>) returns (b: Bytes)
    requires s != {}
    ensures IsLeast(s, b)
    decreases |s|
  {
    b :| b in s;
    var rest := s - {b};
    if rest != {} {
      var t := LeastExists(rest);
      LessTotal(b, t);
      forall x | x in s
        ensures Less(b, t) ==> x == b || Less(b, x)
        ensures Less(t, b) ==> x == t || Less(t, x)
      {
        if x != b && x != t && Less(b, t) {
          assert x in rest;
          LessTransitive(b, t, x);
        }
        assert x != b ==> x in rest;
      }
      if Less(t, b) {
        b := t;
      }
    }
  }

  ghost function Sorted(s: set<Bytes>): (l: seq<Bytes>)
    ensures forall b :: b in l <==> b in s
    decreases |s|
  {
    if s == {} then []
    else
      assert exists b :: IsLeast(s, b) by { var b := LeastExists(s); }
      var b :| IsLeast(s, b);
      [b] + Sorted(s - {b})
  }

  lemma SortedFirst(s: set<Bytes>, b: Bytes)
    requires IsLeast(s, b)
    ensures Sorted(s) == [b] + Sorted(s - {b})
  {
    assert exists x :: IsLeast(s, x);
    LeastUnique(s, Sorted(s)[0], b);
  }

  lemma SortedNothing()
    ensures Sorted({}) == []
  {
  }

  ghost predicate Ascending(l: seq<Bytes>) {
    forall i, j | 0 <= i < j < |l| :: Less(l[i], l[j])
  }

  lemma {:induction false} SortedAscending(s: set<Bytes>)
    ensures Ascending(Sorted(s))
    decreases |s|
  {
    if s != {} {
      var b := LeastExists(s);
      SortedFirst(s, b);
      SortedAscending(s - {b});
      forall x | x in Sorted(s - {b})
        ensures Less(b, x)
      {
      }
    }
  }

  /** The next row of a scan. */
  method Next(s: set<Bytes>) returns (b: Bytes)
    requires s != {}
    ensures IsLeast(s, b)
  {
    assert exists x :: IsLeast(s, x) by { var x := LeastExists(s); }
    b :| b in s && forall x | x in s :: x == b || Less(b, x);
  }

  /* ---------- Where a page resumes ---------- */

  /** Where a page starts: right above the last key, stored or not. */
  function ResumeAt(last: Bytes): Bytes {
    last + [0]
  }

  lemma {:induction false} ResumesPast(last: Bytes, b: Bytes)
    ensures !Less(b, ResumeAt(last)) <==> Less(last, b)
  {
    if last == [] {
      if b != [] {
        assert !Less(b, [0]) <==> !(b[0] < 0 || (b[0] == 0 && Less(b[1..], [])));
      }
    } else if b != [] {
      assert ResumeAt(last)[1..] == ResumeAt(last[1..]);
      ResumesPast(last[1..], b[1..]);
    }
  }

  /** The rows of a list after a position, all of them at the start. */
  function After(l: seq<Bytes>, last: Option<Bytes>): seq<Bytes> {
    if l != [] && last.Some? && !Less(last.value, l[0]) then After(l[1..], last) else l
  }

  /** Those of s after a position. */
  ghost function Past(s: set<Bytes>, last: Option<Bytes>): set<Bytes> {
    set b | b in s && (last.Some? ==> Less(last.value, b))
  }

  lemma {:induction false} AfterSorted(s: set<Bytes>, last: Option<Bytes>)
    ensures After(Sorted(s), last) == Sorted(Past(s, last))
    decreases |s|
  {
    if s == {} {
      assert Past(s, last) == {};
    } else {
      var b := LeastExists(s);
      SortedFirst(s, b);
      if last.Some? && !Less(last.value, b) {
        AfterSorted(s - {b}, last);
        assert Past(s - {b}, last) == Past(s, last);
        assert ([b] + Sorted(s - {b}))[1..] == Sorted(s - {b});
      } else {
        forall x | x in s
          ensures x in Past(s, last)
        {
          if last.Some? && x != b {
            LessTransitive(last.value, b, x);
          }
        }
        assert Past(s, last) == s;
      }
    }
  }

  /* ---------- Pages ---------- */

  function Taken(l: seq<Bytes>, limit: nat): seq<Bytes> {
    if |l| > limit then l[..limit] else l
  }

  /** Where the next page starts, none after the last row. */
  function NextAfter(l: seq<Bytes>, limit: nat): Option<Bytes>
    requires limit > 0
  {
    if |l| > limit then Some(l[limit - 1]) else None
  }

  lemma {:induction false} AfterIs(l: seq<Bytes>, last: Bytes, n: nat)
    requires Ascending(l) && 0 < n <= |l| && l[n - 1] == last
    ensures After(l, Some(last)) == l[n..]
  {
    LessTotal(last, last);
    if n > 1 {
      LessTotal(l[0], last);
      AfterIs(l[1..], last, n - 1);
      assert l[1..][n - 1..] == l[n..];
    } else {
      assert After(l, Some(last)) == After(l[1..], Some(last));
      assert l[1..] != [] ==> Less(last, l[1..][0]);
    }
  }

  lemma {:induction false} AfterSuffix(l: seq<Bytes>, last: Option<Bytes>) returns (n: nat)
    ensures n <= |l| && After(l, last) == l[n..]
  {
    if l != [] && last.Some? && !Less(last.value, l[0]) {
      n := AfterSuffix(l[1..], last);
      n := n + 1;
      assert l[1..][n - 1..] == l[n..];
    } else {
      n := 0;
    }
  }

  lemma AfterStep(l: seq<Bytes>, last: Option<Bytes>, limit: nat)
    requires Ascending(l) && 0 < limit < |After(l, last)|
    ensures After(l, NextAfter(After(l, last), limit)) == After(l, last)[limit..]
  {
    var n := AfterSuffix(l, last);
    AfterIs(l, l[n + limit - 1], n + limit);
    assert l[n..][limit..] == l[n + limit..];
  }

  /** Every page from a position on, one after the other. */
  ghost function AllPages(l: seq<Bytes>, last: Option<Bytes>, limit: nat): seq<Bytes>
    requires Ascending(l) && limit > 0
    decreases |After(l, last)|
  {
    var rows, next := Taken(After(l, last), limit), NextAfter(After(l, last), limit);
    if next.None? then rows
    else
      AfterStep(l, last, limit);
      rows + AllPages(l, next, limit)
  }

  /** Pages join into the list: no row is repeated or skipped. */
  lemma {:induction false} PagesJoin(l: seq<Bytes>, last: Option<Bytes>, limit: nat)
    requires Ascending(l) && limit > 0
    ensures AllPages(l, last, limit) == After(l, last)
    decreases |After(l, last)|
  {
    var rest := After(l, last);
    if |rest| > limit {
      AfterStep(l, last, limit);
      PagesJoin(l, NextAfter(rest, limit), limit);
      assert rest == rest[..limit] + rest[limit..];
    }
  }

  /* ---------- Cursors ---------- */

  datatype ListKind = RootsList | ItemsList | UnidentifiedList

  function ListByte(l: ListKind): nat {
    match l case RootsList => 1 case ItemsList => 2 case UnidentifiedList => 3
  }

  /** A list and what a cursor of it must name: a key under prefix, in form. */
  datatype Scope = Scope(list: ListKind, prefix: Bytes, valid: Bytes -> bool) {
    function Cursor(last: Bytes): Bytes {
      [ListByte(list)] + last
    }

    /** What a page answers for its successor: [] when it has none. */
    function CursorAfter(next: Option<Bytes>): Bytes {
      if next.Some? then Cursor(next.value) else []
    }

    /** The key a cursor names, none for the first page; Failure for a cursor
        of another list or scope. */
    function Position(c: Bytes): Result<Option<Bytes>, ()> {
      if c == [] then Success(None)
      else if c[0] != ListByte(list) || !(prefix <= c[1..]) || !valid(c[1..]) then Failure(())
      else Success(Some(c[1..]))
    }
  }

  /** A cursor a page answers is a position of its list, and of no other. */
  lemma CursorBack(l: Scope, other: Scope, last: Bytes)
    requires l.prefix <= last && l.valid(last)
    ensures l.Position(l.Cursor(last)) == Success(Some(last))
    ensures other.list != l.list || !(other.prefix <= last) ==> other.Position(l.Cursor(last)).Failure?
  {
    assert l.Cursor(last)[1..] == last;
  }

  /* ---------- Following the cursors ---------- */

  /** What a page read of a list must hold: its part of the rows past the
      position, and where the next page starts. */
  ghost predicate PageOf(rest: seq<Bytes>, limit: nat, keys: seq<Bytes>, next: Option<Bytes>)
    requires limit > 0
  {
    keys == Taken(rest, limit) && next == NextAfter(rest, limit)
  }

  /** One read: the cursor given, its rows' keys, and the cursor answered. */
  datatype Turn = Turn(cursor: Bytes, keys: seq<Bytes>, next: Bytes)

  ghost predicate Answers(l: Scope, list: seq<Bytes>, limit: nat, t: Turn)
    requires limit > 0
  {
    && l.Position(t.cursor).Success?
    && exists next :: PageOf(After(list, l.Position(t.cursor).value), limit, t.keys, next) && t.next == l.CursorAfter(next)
  }

  /** Reads that each resume at the cursor the last one answered, until none. */
  predicate Followed(turns: seq<Turn>) {
    && turns != []
    && if |turns| == 1 then turns[0].next == []
       else turns[1].cursor == turns[0].next != [] && Followed(turns[1..])
  }

  function Joined(turns: seq<Turn>): seq<Bytes> {
    if turns == [] then [] else turns[0].keys + Joined(turns[1..])
  }

  /** A list's rows are all keys its cursors may name. */
  predicate Listing(l: Scope, list: seq<Bytes>) {
    forall b | b in list :: l.prefix <= b && l.valid(b)
  }

  lemma NextListed(list: seq<Bytes>, last: Option<Bytes>, limit: nat)
    requires 0 < limit < |After(list, last)|
    ensures NextAfter(After(list, last), limit).value in list
  {
    var n := AfterSuffix(list, last);
    assert After(list, last)[limit - 1] == list[n + limit - 1];
  }

  /** The page after one that was not the last starts past its last row. */
  lemma TurnNext(l: Scope, list: seq<Bytes>, limit: nat, t: Turn)
    requires Ascending(list) && Listing(l, list) && limit > 0 && Answers(l, list, limit, t)
    ensures var rest := After(list, l.Position(t.cursor).value);
            if t.next == [] then t.keys == rest
            else l.Position(t.next).Success? && rest == t.keys + After(list, l.Position(t.next).value)
  {
    hide After, Ascending;
    var last := l.Position(t.cursor).value;
    var rest := After(list, last);
    var next :| PageOf(rest, limit, t.keys, next) && t.next == l.CursorAfter(next);
    if next.Some? {
      NextListed(list, last, limit);
      CursorBack(l, l, next.value);
      AfterStep(list, last, limit);
      assert rest == rest[..limit] + rest[limit..];
    }
  }

  /** Whoever follows the cursors from any page on reads the rest of the list,
      each row once. */
  lemma {:induction false} FollowedWhole(l: Scope, list: seq<Bytes>, limit: nat, turns: seq<Turn>)
    requires Ascending(list) && Listing(l, list) && limit > 0 && Followed(turns)
    requires forall i | 0 <= i < |turns| :: Answers(l, list, limit, turns[i])
    ensures l.Position(turns[0].cursor).Success?
    ensures Joined(turns) == After(list, l.Position(turns[0].cursor).value)
  {
    TurnNext(l, list, limit, turns[0]);
    if |turns| > 1 {
      FollowedWhole(l, list, limit, turns[1..]);
    } else {
      assert turns == [turns[0]];
      assert turns[0].keys + [] == turns[0].keys;
    }
  }
}
