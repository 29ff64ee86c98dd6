/** Absolute, clean slash-separated paths. */
module Paths {
  /** The components of a path's text after its leading slash. */
  function Split(s: string): (r: seq<string>)
    ensures r != []
  {
    if s == "" then [""]
    else
      var rest := Split(s[1..]);
      if s[0] == '/' then [""] + rest else [[s[0]] + rest[0]] + rest[1..]
  }

  predicate PlainComponent(c: string) {
    c != "" && c != "." && c != ".."
  }

  /** An absolute path in its shortest form: "/", or components none of which
      is empty, "." or "..". */
  predicate AbsClean(p: string) {
    && p != "" && p[0] == '/'
    && (p == "/" || forall i | 0 <= i < |Split(p[1..])| :: PlainComponent(Split(p[1..])[i]))
  }

  /* ---------- A path as its components ---------- */

  predicate Plain(cs: seq<string>) {
    forall i | 0 <= i < |cs| :: PlainComponent(cs[i]) && '/' !in cs[i]
  }

  function Components(p: string): seq<string>
    requires AbsClean(p)
  {
    if p == "/" then [] else Split(p[1..])
  }

  function Joined(cs: seq<string>): string
    requires cs != []
  {
    if |cs| == 1 then cs[0] else cs[0] + "/" + Joined(cs[1..])
  }

  function Text(cs: seq<string>): string {
    if cs == [] then "/" else "/" + Joined(cs)
  }

  lemma {:induction false} SplitPlain(s: string)
    ensures forall i | 0 <= i < |Split(s)| :: '/' !in Split(s)[i]
  {
    if s != "" {
      SplitPlain(s[1..]);
    }
  }

  lemma {:induction false} JoinedSplit(s: string)
    ensures Joined(Split(s)) == s
  {
    if s != "" {
      JoinedSplit(s[1..]);
      var rest := Split(s[1..]);
      if s[0] == '/' {
        assert ([""] + rest)[1..] == rest;
        assert s == "" + "/" + s[1..];
      } else {
        HeadJoined([s[0]], rest);
        assert s == [s[0]] + s[1..];
      }
    }
  }

  lemma HeadJoined(c: string, cs: seq<string>)
    requires cs != []
    ensures Joined([c + cs[0]] + cs[1..]) == c + Joined(cs)
  {
    var more := [c + cs[0]] + cs[1..];
    assert more[1..] == cs[1..];
    if |cs| > 1 {
      assert c + cs[0] + "/" + Joined(cs[1..]) == c + (cs[0] + "/" + Joined(cs[1..]));
    }
  }

  lemma {:induction false} SplitHead(c: string, s: string)
    requires '/' !in c
    ensures Split(c + s) == [c + Split(s)[0]] + Split(s)[1..]
  {
    if c == "" {
      assert c + s == s && c + Split(s)[0] == Split(s)[0];
    } else {
      assert (c + s)[1..] == c[1..] + s;
      SplitHead(c[1..], s);
      assert [c[0]] + (c[1..] + Split(s)[0]) == c + Split(s)[0];
    }
  }

  lemma {:induction false} SplitJoined(cs: seq<string>)
    requires cs != [] && forall i | 0 <= i < |cs| :: '/' !in cs[i]
    ensures Split(Joined(cs)) == cs
  {
    var more := if |cs| == 1 then "" else "/" + Joined(cs[1..]);
    assert Joined(cs) == cs[0] + more;
    SplitHead(cs[0], more);
    assert cs[0] + "" == cs[0];
    if |cs| > 1 {
      SplitJoined(cs[1..]);
      assert more[1..] == Joined(cs[1..]);
      assert Split(more) == [""] + cs[1..];
      assert Split(more)[0] == "" && Split(more)[1..] == cs[1..];
      assert [cs[0]] + cs[1..] == cs;
    } else {
      assert Split(more)[1..] == [] && [cs[0]] + [] == cs;
    }
  }

  /** A clean path's text and its components determine each other. */
  lemma TextComponents(p: string)
    requires AbsClean(p)
    ensures Text(Components(p)) == p && Plain(Components(p))
  {
    if p != "/" {
      JoinedSplit(p[1..]);
      SplitPlain(p[1..]);
    }
  }

  lemma ComponentsText(cs: seq<string>)
    requires Plain(cs)
    ensures AbsClean(Text(cs)) && Components(Text(cs)) == cs
  {
    if cs != [] {
      SplitJoined(cs);
      assert Text(cs)[1..] == Joined(cs);
      JoinedLonger(cs);
    }
  }

  lemma JoinedLonger(cs: seq<string>)
    requires cs != [] && Plain(cs)
    ensures |Joined(cs)| > 0
  {
    assert PlainComponent(cs[0]);
  }

  /** A path is shorter than any other it contains. */
  lemma {:induction false} ContainedLonger(a: seq<string>, b: seq<string>)
    requires a <= b && a != b && Plain(b)
    ensures |Text(a)| < |Text(b)|
  {
    if a == [] {
      JoinedLonger(b);
    } else {
      assert a[0] == b[0];
      if |a| == 1 {
      } else {
        assert a[1..] <= b[1..] && a[1..] != b[1..];
        ContainedLonger(a[1..], b[1..]);
      }
    }
  }
}
