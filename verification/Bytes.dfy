/** How table keys are spelt in bytes, and the order the bytes give them. */
module Bytes {
  /** A key's bytes; a text's bytes are its characters' codes. */
  type Bytes = seq<nat>

  const MAX_UINT64: nat := 0xFFFF_FFFF_FFFF_FFFF

  /** A varint: seven bits a byte, low first, the top bit set on all but the last. */
  function Uvarint(n: nat): (r: Bytes)
    ensures r != []
  {
    if n < 128 then [n] else [n % 128 + 128] + Uvarint(n / 128)
  }

  function Codes(s: string): (r: Bytes)
    ensures |r| == |s|
  {
    seq(|s|, i requires 0 <= i < |s| => s[i] as nat)
  }

  /** A text component: its length, then its bytes. */
  function Text(s: string): Bytes {
    Uvarint(|s|) + Codes(s)
  }

  /** A varint is self-delimiting: nothing that follows it can be read as part of it. */
  lemma {:induction false} UvarintSplit(m: nat, n: nat, x: Bytes, y: Bytes)
    requires Uvarint(m) + x == Uvarint(n) + y
    ensures m == n && x == y
  {
    var a, b := Uvarint(m), Uvarint(n);
    assert (a + x)[0] == a[0] && (b + y)[0] == b[0];
    assert (a + x)[1..] == a[1..] + x && (b + y)[1..] == b[1..] + y;
    if m >= 128 {
      assert a[1..] == Uvarint(m / 128) && b[1..] == Uvarint(n / 128);
      UvarintSplit(m / 128, n / 128, x, y);
    }
  }

  lemma CodesInjective(s: string, t: string)
    requires Codes(s) == Codes(t)
    ensures s == t
  {
    forall i | 0 <= i < |s|
      ensures s[i] == t[i]
    {
      assert Codes(s)[i] == Codes(t)[i];
    }
  }

  /** A text component never runs into what follows: s1 is no prefix of s10. */
  lemma TextSplit(s: string, t: string, x: Bytes, y: Bytes)
    requires Text(s) + x == Text(t) + y
    ensures s == t && x == y
  {
    assert Text(s) + x == Uvarint(|s|) + (Codes(s) + x);
    assert Text(t) + y == Uvarint(|t|) + (Codes(t) + y);
    UvarintSplit(|s|, |t|, Codes(s) + x, Codes(t) + y);
    assert (Codes(s) + x)[..|s|] == Codes(s) && (Codes(t) + y)[..|t|] == Codes(t);
    assert (Codes(s) + x)[|s|..] == x && (Codes(t) + y)[|t|..] == y;
    CodesInjective(s, t);
  }

  /* ---------- The order of a scan ---------- */

  /** Bytewise lexicographic order, a prefix before what it starts. */
  predicate Less(a: Bytes, b: Bytes) {
    if b == [] then false
    else if a == [] then true
    else a[0] < b[0] || (a[0] == b[0] && Less(a[1..], b[1..]))
  }

  lemma {:induction false} LessTotal(a: Bytes, b: Bytes)
    ensures a == b || Less(a, b) || Less(b, a)
    ensures !(Less(a, b) && Less(b, a)) && (a == b ==> !Less(a, b))
  {
    if a != [] && b != [] {
      LessTotal(a[1..], b[1..]);
      assert a == [a[0]] + a[1..] && b == [b[0]] + b[1..];
    }
  }

  lemma {:induction false} LessTransitive(a: Bytes, b: Bytes, c: Bytes)
    requires Less(a, b) && Less(b, c)
    ensures Less(a, c)
  {
    if a != [] && a[0] == b[0] == c[0] {
      LessTransitive(a[1..], b[1..], c[1..]);
    }
  }

  /** Within a common prefix the rest decides. */
  lemma {:induction false} LessSuffix(p: Bytes, a: Bytes, b: Bytes)
    ensures Less(p + a, p + b) <==> Less(a, b)
  {
    if p == [] {
      assert p + a == a && p + b == b;
    } else {
      assert (p + a)[1..] == p[1..] + a && (p + b)[1..] == p[1..] + b;
      LessSuffix(p[1..], a, b);
    }
  }
}
