/** The bytes of every table's keys, and the reader that takes them apart. */
module KeyBytes {
  import opened Wrappers
  import opened Media
  import opened Languages
  import opened Tables
  import opened Bytes
  import opened RefKeys
  import KeyText

  predicate AllBytes(b: Bytes) {
    forall i | 0 <= i < |b| :: b[i] < 256
  }

  /* ---------- Big-endian numbers ---------- */

  function BigEndian(n: nat, w: nat): (b: Bytes)
    ensures |b| == w
  {
    if w == 0 then [] else BigEndian(n / 256, w - 1) + [n % 256]
  }

  function FromBigEndian(b: Bytes): nat {
    if b == [] then 0 else FromBigEndian(b[..|b| - 1]) * 256 + b[|b| - 1]
  }

  function Width(w: nat): nat {
    if w == 0 then 1 else 256 * Width(w - 1)
  }

  lemma Widths()
    ensures Width(2) == 0x1_0000 && Width(8) == 0x1_0000_0000_0000_0000
  {
    assert Width(2) == 256 * (256 * Width(0));
    assert Width(4) == 256 * (256 * Width(2));
    assert Width(6) == 256 * (256 * Width(4));
    assert Width(8) == 256 * (256 * Width(6));
  }

  lemma {:induction false} BigEndianBack(n: nat, w: nat)
    requires n < Width(w)
    ensures FromBigEndian(BigEndian(n, w)) == n && AllBytes(BigEndian(n, w))
  {
    if w > 0 {
      BigEndianBack(n / 256, w - 1);
      assert BigEndian(n, w)[..w - 1] == BigEndian(n / 256, w - 1);
    }
  }

  lemma {:induction false} FromBigEndianBack(b: Bytes)
    requires AllBytes(b)
    ensures BigEndian(FromBigEndian(b), |b|) == b && FromBigEndian(b) < Width(|b|)
  {
    if b != [] {
      FromBigEndianBack(b[..|b| - 1]);
      assert b == b[..|b| - 1] + [b[|b| - 1]];
    }
  }

  lemma {:induction false} LessEqualLengths(p: Bytes, q: Bytes, x: Bytes, y: Bytes)
    requires |p| == |q| && Less(p, q)
    ensures Less(p + x, q + y)
  {
    assert (p + x)[1..] == p[1..] + x && (q + y)[1..] == q[1..] + y;
    if p[0] == q[0] {
      LessEqualLengths(p[1..], q[1..], x, y);
    }
  }

  /** Numbers of one width compare as their bytes do. */
  lemma {:induction false} BigEndianOrder(m: nat, n: nat, w: nat)
    requires m < n < Width(w)
    ensures Less(BigEndian(m, w), BigEndian(n, w))
  {
    if m / 256 < n / 256 {
      BigEndianOrder(m / 256, n / 256, w - 1);
      LessEqualLengths(BigEndian(m / 256, w - 1), BigEndian(n / 256, w - 1), [m % 256], [n % 256]);
    } else {
      LessSuffix(BigEndian(m / 256, w - 1), [m % 256], [n % 256]);
    }
  }

  /* ---------- Media keys ---------- */

  function SchemeByte(s: Scheme): nat {
    match s case NoScheme => 0 case TVDB => 1 case TMDB => 2 case IMDb => 3
  }

  const ROOT_KEY_BYTES := 10
  const KEY_BYTES := 14

  /** A root in ten bytes, all roots alike, so no root's bytes start another's.
      */
  function RootBytes(r: RootKey): (b: Bytes)
    ensures |b| == ROOT_KEY_BYTES
  {
    [KindByte(r.kind), SchemeByte(r.scheme)] + BigEndian(r.id, 8)
  }

  /** A key in fourteen bytes: ten for its root, two each for its numbers. */
  function MediaBytes(k: Key): (b: Bytes)
    ensures |b| == KEY_BYTES
  {
    RootBytes(k.root) + BigEndian(k.season, 2) + BigEndian(k.episode, 2)
  }

  lemma WidthOrder(m: nat, n: nat, w: nat)
    requires m < Width(w) && n < Width(w)
    ensures Less(BigEndian(m, w), BigEndian(n, w)) <==> m < n
  {
    LessTotal(BigEndian(m, w), BigEndian(n, w));
    if m < n {
      BigEndianOrder(m, n, w);
    } else if n < m {
      BigEndianOrder(n, m, w);
    }
  }

  lemma JoinedOrder(a: Bytes, b: Bytes, x: Bytes, y: Bytes)
    requires |a| == |b|
    ensures Less(a + x, b + y) <==> Less(a, b) || (a == b && Less(x, y))
  {
    LessTotal(a, b);
    LessTotal(a + x, b + y);
    if a == b {
      LessSuffix(a, x, y);
      LessSuffix(a, y, x);
      LessTotal(x, y);
    } else if Less(a, b) {
      LessEqualLengths(a, b, x, y);
    } else {
      LessEqualLengths(b, a, y, x);
    }
  }

  /** Keys of one root are in the order of season, then episode. */
  lemma KeysInOrder(a: Key, b: Key)
    requires ValidKey(a) && ValidKey(b) && a.root == b.root
    ensures Less(MediaBytes(a), MediaBytes(b)) <==> a.season < b.season || (a.season == b.season && a.episode < b.episode)
  {
    Widths();
    WidthOrder(a.season, b.season, 2);
    WidthOrder(a.episode, b.episode, 2);
    assert MediaBytes(a) == RootBytes(a.root) + (BigEndian(a.season, 2) + BigEndian(a.episode, 2));
    assert MediaBytes(b) == RootBytes(b.root) + (BigEndian(b.season, 2) + BigEndian(b.episode, 2));
    LessTotal(RootBytes(a.root), RootBytes(b.root));
    JoinedOrder(RootBytes(a.root), RootBytes(b.root), BigEndian(a.season, 2) + BigEndian(a.episode, 2), BigEndian(b.season, 2) + BigEndian(b.episode, 2));
    JoinedOrder(BigEndian(a.season, 2), BigEndian(b.season, 2), BigEndian(a.episode, 2), BigEndian(b.episode, 2));
  }

  function KindOf(b: nat): Option<Kind> {
    if b == 1 then Some(Episode) else if b == 2 then Some(Movie) else None
  }

  function SchemeOf(b: nat): Option<Scheme> {
    if b == 1 then Some(TVDB) else if b == 2 then Some(TMDB) else if b == 3 then Some(IMDb) else None
  }

  function RootFromBytes(b: Bytes): Option<RootKey> {
    if |b| != ROOT_KEY_BYTES then None
    else
      var kind, scheme, id := KindOf(b[0]), SchemeOf(b[1]), FromBigEndian(b[2..]);
      if kind.None? || scheme.None? || !KeyText.ValidRoot(RootKey(kind.value, scheme.value, id)) then None
      else Some(RootKey(kind.value, scheme.value, id))
  }

  function KeyFromBytes(b: Bytes): Option<Key> {
    if |b| != KEY_BYTES then None
    else
      var r := RootFromBytes(b[..ROOT_KEY_BYTES]);
      var season, episode := FromBigEndian(b[ROOT_KEY_BYTES..ROOT_KEY_BYTES + 2]), FromBigEndian(b[ROOT_KEY_BYTES + 2..]);
      if r.None? || (r.value.kind == Movie && (season != 0 || episode != 0)) then None
      else Some(Key(r.value, season, episode))
  }

  lemma RootBytesBack(r: RootKey)
    requires KeyText.ValidRoot(r)
    ensures RootFromBytes(RootBytes(r)) == Some(r) && AllBytes(RootBytes(r))
  {
    Widths();
    BigEndianBack(r.id, 8);
    assert RootBytes(r)[2..] == BigEndian(r.id, 8);
  }

  /** Every key's bytes decode to it. */
  lemma KeyBytesBack(k: Key)
    requires ValidKey(k)
    ensures KeyFromBytes(MediaBytes(k)) == Some(k) && AllBytes(MediaBytes(k))
  {
    Widths();
    RootBytesBack(k.root);
    BigEndianBack(k.season, 2);
    BigEndianBack(k.episode, 2);
    var b := MediaBytes(k);
    assert b[..10] == RootBytes(k.root) && b[10..12] == BigEndian(k.season, 2) && b[12..] == BigEndian(k.episode, 2);
  }

  lemma RootFromBytesBack(b: Bytes)
    requires AllBytes(b) && RootFromBytes(b).Some?
    ensures RootBytes(RootFromBytes(b).value) == b
  {
    FromBigEndianBack(b[2..]);
    assert b == [b[0], b[1]] + b[2..];
  }

  /** Only a key's own bytes decode. */
  lemma KeyFromBytesBack(b: Bytes)
    requires AllBytes(b) && KeyFromBytes(b).Some?
    ensures ValidKey(KeyFromBytes(b).value) && MediaBytes(KeyFromBytes(b).value) == b
  {
    Widths();
    RootFromBytesBack(b[..10]);
    FromBigEndianBack(b[10..12]);
    FromBigEndianBack(b[12..]);
    assert b == b[..10] + b[10..12] + b[12..];
  }

  lemma PrefixIs(a: Bytes, b: Bytes)
    requires |a| <= |b|
    ensures a <= b <==> b[..|a|] == a
  {
  }

  /** A scan under a root's bytes reaches exactly that root's keys. */
  lemma RootPrefix(r: RootKey, k: Key)
    requires KeyText.ValidRoot(r) && ValidKey(k)
    ensures RootBytes(r) <= MediaBytes(k) <==> k.root == r
  {
    RootBytesBack(r);
    RootBytesBack(k.root);
    PrefixIs(RootBytes(r), MediaBytes(k));
    assert MediaBytes(k)[..10] == RootBytes(k.root);
  }

  /* ---------- Reading components ---------- */

  /** The components the reader cannot judge alone: a source id's grammar and
      a tag's canonical text. */
  datatype Grammar = Grammar(source: string -> bool, tag: string -> bool)

  function CharOf(n: nat): char {
    if n < 0xD800 || 0xE000 <= n < 0x11_0000 then n as char else '?'
  }

  function Chars(b: Bytes): (s: string)
    ensures |s| == |b|
  {
    seq(|b|, i requires 0 <= i < |b| => CharOf(b[i]))
  }

  lemma CharsBack(s: string)
    ensures Chars(Codes(s)) == s
  {
  }

  /** The varint a key starts with and how many bytes it took; none when it is
      cut short or does not fit 64 bits. */
  function ReadVarint(b: Bytes, i: nat): (r: Option<(nat, nat)>)
    ensures r.Some? ==> 0 < r.value.1 <= |b|
  {
    if b == [] || i >= 10 then None
    else if b[0] < 128 then (if i == 9 && b[0] > 1 then None else Some((b[0], 1)))
    else
      var rest := ReadVarint(b[1..], i + 1);
      if rest.None? then None else Some((b[0] % 128 + 128 * rest.value.0, rest.value.1 + 1))
  }

  function Room(i: nat): (r: nat)
    ensures r > 0
    decreases if i < 10 then 10 - i else 0
  {
    if i >= 10 then 1 else if i == 9 then 2 else 128 * Room(i + 1)
  }

  lemma Rooms()
    ensures Room(0) == 0x1_0000_0000_0000_0000
  {
    assert Room(7) == 128 * (128 * Room(9));
    assert Room(5) == 128 * (128 * Room(7));
    assert Room(3) == 128 * (128 * Room(5));
    assert Room(1) == 128 * (128 * Room(3));
  }

  lemma {:induction false} ReadVarintOf(n: nat, rest: Bytes, i: nat)
    requires n < Room(i) && i < 10
    ensures ReadVarint(Uvarint(n) + rest, i) == Some((n, |Uvarint(n)|))
  {
    var b := Uvarint(n) + rest;
    assert b[0] == Uvarint(n)[0];
    if n >= 128 {
      assert b[1..] == Uvarint(n / 128) + rest;
      ReadVarintOf(n / 128, rest, i + 1);
    }
  }

  function ReadText(b: Bytes): Option<(string, Bytes)> {
    var v := ReadVarint(b, 0);
    if v.None? || v.value.0 > |b| - v.value.1 then None
    else
      var rest := b[v.value.1..];
      Some((Chars(rest[..v.value.0]), rest[v.value.0..]))
  }

  function ReadFixed(b: Bytes, n: nat): Option<(Bytes, Bytes)> {
    if |b| < n then None else Some((b[..n], b[n..]))
  }

  function ReadSource(g: Grammar, b: Bytes): Option<(SourceId, Bytes)> {
    var t := ReadText(b);
    if t.None? || !g.source(t.value.0) then None else t
  }

  function ReadNativeRef(b: Bytes): Option<(NativeRef, Bytes)> {
    var k := ReadFixed(b, 1);
    if k.None? then None
    else
      var t := ReadText(k.value.1);
      if t.None? || KindOf(k.value.0[0]).None? then None
      else Some((NativeRef(t.value.0, KindOf(k.value.0[0]).value), t.value.1))
  }

  function ReadRootRef(g: Grammar, b: Bytes): Option<(RootRef, Bytes)> {
    var s := ReadSource(g, b);
    if s.None? then None
    else
      var n := ReadNativeRef(s.value.1);
      if n.None? then None else Some((RootRef(s.value.0, n.value.0), n.value.1))
  }

  function ReadItemRef(g: Grammar, b: Bytes): Option<(ItemRef, Bytes)> {
    var r := ReadRootRef(g, b);
    if r.None? then None
    else
      var t := ReadText(r.value.1);
      if t.None? then None else Some((ItemRef(r.value.0, t.value.0), t.value.1))
  }

  function ReadInst(b: Bytes): Option<(InstId, Bytes)> {
    var f := ReadFixed(b, 8);
    if f.None? || FromBigEndian(f.value.0) == 0 then None else Some((FromBigEndian(f.value.0), f.value.1))
  }

  function ReadFileKey(b: Bytes): Option<(FileKey, Bytes)> {
    var i := ReadInst(b);
    if i.None? then None
    else
      var t := ReadText(i.value.1);
      if t.None? then None else Some((FileKey(i.value.0, t.value.0), t.value.1))
  }

  function ReadMediaKey(b: Bytes): Option<(Key, Bytes)> {
    var f := ReadFixed(b, KEY_BYTES);
    if f.None? || KeyFromBytes(f.value.0).None? then None else Some((KeyFromBytes(f.value.0).value, f.value.1))
  }

  function ReadTag(g: Grammar, b: Bytes): Option<(Tag, Bytes)> {
    var t := ReadText(b);
    if t.None? || !g.tag(t.value.0) then None else t
  }

  function VariantByte(v: Variant): nat {
    match v case Standard => 1 case HearingImpaired => 2 case Forced => 3
  }

  function VariantOf(b: nat): Option<Variant> {
    if b == 1 then Some(Standard) else if b == 2 then Some(HearingImpaired) else if b == 3 then Some(Forced) else None
  }

  function ReadVariant(b: Bytes): Option<(Variant, Bytes)> {
    var f := ReadFixed(b, 1);
    if f.None? || VariantOf(f.value.0[0]).None? then None else Some((VariantOf(f.value.0[0]).value, f.value.1))
  }

  function ReadLockKey(g: Grammar, b: Bytes): Option<(LockKey, Bytes)> {
    var k := ReadMediaKey(b);
    if k.None? then None
    else
      var t := ReadTag(g, k.value.1);
      if t.None? then None
      else
        var v := ReadVariant(t.value.1);
        if v.None? then None else Some((LockKey(k.value.0, Pair(t.value.0, v.value.0)), v.value.1))
  }

  /* ---------- The reader ---------- */

  /** One reading step: a failure sticks and takes what is left. */
  predicate Reads<T(==)>(failed: bool, failed1: bool, b1: Bytes, v: T, r: Option<(T, Bytes)>) {
    if failed || r.None? then failed1 else !failed1 && r.value == (v, b1)
  }

  /** A cursor over a key's bytes: once one component fails all later ones do,
      and one check at the end tells. */
  class KeyReader {
    const g: Grammar
    var b: Bytes
    var failed: bool

    constructor (g: Grammar, b: Bytes)
      ensures this.g == g && this.b == b && !failed
    {
      this.g, this.b, failed := g, b, false;
    }

    method Fail()
      modifies this
      ensures failed && b == []
    {
      failed, b := true, [];
    }

    method Fixed(n: nat) returns (v: Bytes)
      modifies this
      ensures Reads(old(failed), failed, b, v, ReadFixed(old(b), n))
      ensures failed ==> v == []
    {
      v := [];
      if failed || |b| < n {
        Fail();
        return;
      }
      v, b := b[..n], b[n..];
    }

    /** The varint b starts with, seven bits at a time; w is how many bytes it
        took, 0 for none. */
    method Varint() returns (n: nat, w: nat)
      ensures ReadVarint(b, 0) == if w == 0 then None else Some((n, w))
    {
      hide ReadVarint, Scaled;
      n, w := 0, 0;
      var scale, i := 1, 0;
      VarintStart(b);
      while i < |b| && i < 10
        invariant i <= |b| && i <= 10 && w == 0
        invariant ReadVarint(b, 0) == Scaled(ReadVarint(b[i..], i), n, scale, i)
      {
        VarintStep(b, n, scale, i);
        if b[i] < 128 {
          if i == 9 && b[i] > 1 {
            return 0, 0;
          }
          return n + scale * b[i], i + 1;
        }
        n := n + scale * (b[i] % 128);
        scale := scale * 128;
        i := i + 1;
      }
      VarintCut(b, n, scale, i);
    }

    method ReadsText() returns (s: string)
      modifies this
      ensures Reads(old(failed), failed, b, s, ReadText(old(b)))
    {
      s := "";
      if failed {
        return;
      }
      var n, w := Varint();
      if w == 0 || n > |b| - w {
        Fail();
        return;
      }
      b := b[w..];
      var v := Fixed(n);
      s := Chars(v);
    }

    method ReadsSource() returns (s: SourceId)
      modifies this
      ensures Reads(old(failed), failed, b, s, ReadSource(g, old(b)))
    {
      s := ReadsText();
      if !failed && !g.source(s) {
        Fail();
      }
    }

    method ReadsTag() returns (t: Tag)
      modifies this
      ensures Reads(old(failed), failed, b, t, ReadTag(g, old(b)))
    {
      t := ReadsText();
      if !failed && !g.tag(t) {
        Fail();
      }
    }

    method ReadsNativeRef() returns (r: NativeRef)
      modifies this
      ensures Reads(old(failed), failed, b, r, ReadNativeRef(old(b)))
    {
      r := NativeRef("", Movie);
      var k := Fixed(1);
      if failed {
        return;
      }
      var id := ReadsText();
      if KindOf(k[0]).None? {
        Fail();
      } else {
        r := NativeRef(id, KindOf(k[0]).value);
      }
    }

    method ReadsInst() returns (id: InstId)
      modifies this
      ensures Reads(old(failed), failed, b, id, ReadInst(old(b)))
    {
      var v := Fixed(8);
      id := FromBigEndian(v);
      if !failed && id == 0 {
        Fail();
      }
    }

    method ReadsKey() returns (k: Option<Key>)
      modifies this
      ensures k.None? ==> failed
      ensures Reads(old(failed), failed, b, if k.Some? then k.value else NO_KEY, ReadMediaKey(old(b)))
    {
      k := None;
      var v := Fixed(KEY_BYTES);
      if failed {
        return;
      }
      k := KeyFromBytes(v);
      if k.None? {
        Fail();
      }
    }

    method ReadsVariant() returns (v: Variant)
      modifies this
      ensures Reads(old(failed), failed, b, v, ReadVariant(old(b)))
    {
      v := Standard;
      var x := Fixed(1);
      if failed {
        return;
      }
      if VariantOf(x[0]).None? {
        Fail();
      } else {
        v := VariantOf(x[0]).value;
      }
    }

    /** Trailing bytes are refused. */
    method End()
      modifies this
      ensures failed == (old(failed) || old(b) != [])
    {
      if !failed && b != [] {
        Fail();
      }
    }
  }

  const NO_KEY := Key(RootKey(Movie, NoScheme, 0), 0, 0)

  function Scaled(r: Option<(nat, nat)>, n: nat, scale: nat, i: nat): Option<(nat, nat)> {
    if r.None? then None else Some((n + scale * r.value.0, i + r.value.1))
  }

  lemma ScaledStep(r: Option<(nat, nat)>, n: nat, scale: nat, i: nat, x: nat)
    ensures r.Some? ==> n + scale * (x % 128 + 128 * r.value.0) == n + scale * (x % 128) + scale * 128 * r.value.0
  {
  }

  lemma VarintStart(b: Bytes)
    ensures ReadVarint(b, 0) == Scaled(ReadVarint(b[0..], 0), 0, 1, 0)
  {
    assert b[0..] == b;
  }

  /** One byte read. */
  lemma VarintStep(b: Bytes, n: nat, scale: nat, i: nat)
    requires i < |b| && i < 10
    ensures Scaled(ReadVarint(b[i..], i), n, scale, i) ==
            if b[i] >= 128 then Scaled(ReadVarint(b[i + 1..], i + 1), n + scale * (b[i] % 128), scale * 128, i + 1)
            else if i == 9 && b[i] > 1 then None
            else Some((n + scale * b[i], i + 1))
  {
    assert b[i..][0] == b[i] && b[i..][1..] == b[i + 1..];
    if b[i] >= 128 {
      ScaledStep(ReadVarint(b[i + 1..], i + 1), n, scale, i, b[i]);
    }
  }

  lemma VarintCut(b: Bytes, n: nat, scale: nat, i: nat)
    requires i <= |b| && (i == |b| || i >= 10)
    ensures Scaled(ReadVarint(b[i..], i), n, scale, i) == None
  {
  }

  /* ---------- Whole keys ---------- */

  /** A key that used every byte. */
  function Whole<T>(r: Option<(T, Bytes)>): Option<T> {
    if r.Some? && r.value.1 == [] then Some(r.value.0) else None
  }

  method ParseItemRef(g: Grammar, b: Bytes) returns (ref: Option<ItemRef>)
    ensures ref == Whole(ReadItemRef(g, b))
  {
    hide ReadText, ReadSource, ReadNativeRef;
    var r := new KeyReader(g, b);
    var source := r.ReadsSource();
    var root := r.ReadsNativeRef();
    var item := r.ReadsText();
    r.End();
    ref := if r.failed then None else Some(ItemRef(RootRef(source, root), item));
  }

  method ParseRootRef(g: Grammar, b: Bytes) returns (rr: Option<RootRef>)
    ensures rr == Whole(ReadRootRef(g, b))
  {
    hide ReadText, ReadSource, ReadNativeRef;
    var r := new KeyReader(g, b);
    var source := r.ReadsSource();
    var root := r.ReadsNativeRef();
    r.End();
    rr := if r.failed then None else Some(RootRef(source, root));
  }

  method ParseFileKey(b: Bytes) returns (fk: Option<FileKey>)
    ensures fk == Whole(ReadFileKey(b))
  {
    var r := new KeyReader(Grammar(_ => true, _ => true), b);
    var id := r.ReadsInst();
    var name := r.ReadsText();
    r.End();
    fk := if r.failed then None else Some(FileKey(id, name));
  }

  method ParseLockKey(g: Grammar, b: Bytes) returns (lk: Option<LockKey>)
    ensures lk == Whole(ReadLockKey(g, b))
  {
    hide ReadMediaKey, ReadTag, ReadVariant;
    var r := new KeyReader(g, b);
    var k := r.ReadsKey();
    var tag := r.ReadsTag();
    var v := r.ReadsVariant();
    r.End();
    lk := if r.failed then None else Some(LockKey(k.value, Pair(tag, v)));
  }

  /* ---------- What is written reads back ---------- */

  function FileKeyBytes(fk: FileKey): Bytes {
    BigEndian(fk.inst, 8) + Text(fk.name)
  }

  function LockKeyBytes(lk: LockKey): Bytes {
    MediaBytes(lk.key) + Text(lk.pair.tag) + [VariantByte(lk.pair.variant)]
  }

  /** A text short enough for its length to be written. */
  predicate Short(s: string) {
    |s| <= MAX_UINT64
  }

  lemma TextBack(s: string, rest: Bytes)
    requires Short(s)
    ensures ReadText(Text(s) + rest) == Some((s, rest))
  {
    Rooms();
    assert Text(s) + rest == Uvarint(|s|) + (Codes(s) + rest);
    ReadVarintOf(|s|, Codes(s) + rest, 0);
    var b := Text(s) + rest;
    assert b[|Uvarint(|s|)|..] == Codes(s) + rest;
    assert (Codes(s) + rest)[..|s|] == Codes(s) && (Codes(s) + rest)[|s|..] == rest;
    CharsBack(s);
  }

  lemma NativeRefBack(r: NativeRef, rest: Bytes)
    requires Short(r.id)
    ensures ReadNativeRef(NativeRefKey(r) + rest) == Some((r, rest))
  {
    var b := NativeRefKey(r) + rest;
    assert b[..1] == [KindByte(r.kind)] && b[1..] == Text(r.id) + rest;
    TextBack(r.id, rest);
  }

  lemma RootRefBack(g: Grammar, rr: RootRef, rest: Bytes)
    requires Short(rr.source) && Short(rr.root.id) && g.source(rr.source)
    ensures ReadRootRef(g, RootRefKey(rr) + rest) == Some((rr, rest))
  {
    assert RootRefKey(rr) + rest == Text(rr.source) + (NativeRefKey(rr.root) + rest);
    TextBack(rr.source, NativeRefKey(rr.root) + rest);
    NativeRefBack(rr.root, rest);
  }

  lemma ItemRefBack(g: Grammar, ref: ItemRef, rest: Bytes)
    requires Short(ref.root.source) && Short(ref.root.root.id) && Short(ref.item) && g.source(ref.root.source)
    ensures ReadItemRef(g, ItemRefKey(ref) + rest) == Some((ref, rest))
  {
    assert ItemRefKey(ref) + rest == RootRefKey(ref.root) + (Text(ref.item) + rest);
    RootRefBack(g, ref.root, Text(ref.item) + rest);
    TextBack(ref.item, rest);
  }

  /** Every composite key parses back from its bytes, all of them used. */
  lemma ItemRefRoundTrip(g: Grammar, ref: ItemRef)
    requires Short(ref.root.source) && Short(ref.root.root.id) && Short(ref.item) && g.source(ref.root.source)
    ensures Whole(ReadItemRef(g, ItemRefKey(ref))) == Some(ref)
    ensures Whole(ReadRootRef(g, RootRefKey(ref.root))) == Some(ref.root)
  {
    ItemRefBack(g, ref, []);
    RootRefBack(g, ref.root, []);
    assert ItemRefKey(ref) + [] == ItemRefKey(ref) && RootRefKey(ref.root) + [] == RootRefKey(ref.root);
  }

  lemma FileKeyRoundTrip(fk: FileKey)
    requires 0 < fk.inst <= MAX_UINT64 && Short(fk.name)
    ensures Whole(ReadFileKey(FileKeyBytes(fk))) == Some(fk)
  {
    Widths();
    BigEndianBack(fk.inst, 8);
    var b := FileKeyBytes(fk);
    assert b[..8] == BigEndian(fk.inst, 8) && b[8..] == Text(fk.name) + [];
    TextBack(fk.name, []);
  }

  lemma LockKeyRoundTrip(g: Grammar, lk: LockKey)
    requires ValidKey(lk.key) && Short(lk.pair.tag) && g.tag(lk.pair.tag)
    ensures Whole(ReadLockKey(g, LockKeyBytes(lk))) == Some(lk)
  {
    hide ReadText, KeyFromBytes, MediaBytes;
    KeyBytesBack(lk.key);
    var v := [VariantByte(lk.pair.variant)];
    assert LockKeyBytes(lk) == MediaBytes(lk.key) + (Text(lk.pair.tag) + v);
    MediaKeyBack(lk.key, Text(lk.pair.tag) + v);
    TextBack(lk.pair.tag, v);
    assert v[..1] == v && v[1..] == [];
  }

  lemma MediaKeyBack(k: Key, rest: Bytes)
    requires ValidKey(k)
    ensures ReadMediaKey(MediaBytes(k) + rest) == Some((k, rest))
  {
    hide MediaBytes, KeyFromBytes;
    KeyBytesBack(k);
    assert (MediaBytes(k) + rest)[..14] == MediaBytes(k) && (MediaBytes(k) + rest)[14..] == rest;
  }

  /** A scan under an instance's bytes reaches exactly its rows. */
  lemma InstPrefix(id: InstId, fk: FileKey)
    requires id <= MAX_UINT64 && fk.inst <= MAX_UINT64
    ensures BigEndian(id, 8) <= FileKeyBytes(fk) <==> fk.inst == id
  {
    Widths();
    BigEndianBack(id, 8);
    BigEndianBack(fk.inst, 8);
    PrefixIs(BigEndian(id, 8), FileKeyBytes(fk));
    assert FileKeyBytes(fk)[..8] == BigEndian(fk.inst, 8);
  }

  /** A scan under a key's bytes reaches exactly its locks. */
  lemma KeyPrefix(k: Key, lk: LockKey)
    requires ValidKey(k) && ValidKey(lk.key)
    ensures MediaBytes(k) <= LockKeyBytes(lk) <==> lk.key == k
  {
    KeyBytesBack(k);
    KeyBytesBack(lk.key);
    PrefixIs(MediaBytes(k), LockKeyBytes(lk));
    assert LockKeyBytes(lk)[..14] == MediaBytes(lk.key);
  }

  /* ---------- What reads was written, or spelt long ---------- */

  /** The varint b starts with has no needless last byte. */
  predicate Minimal(b: Bytes) {
    var v := ReadVarint(b, 0);
    v.Some? && (v.value.1 == 1 || b[v.value.1 - 1] != 0)
  }

  lemma {:induction false} ReadSpelling(b: Bytes, i: nat)
    requires AllBytes(b) && ReadVarint(b, i).Some?
    ensures var (n, w) := ReadVarint(b, i).value; b[..w] == Uvarint(n) <==> w == 1 || b[w - 1] != 0
    ensures var (n, w) := ReadVarint(b, i).value; w > 1 && b[w - 1] != 0 ==> n >= 128
  {
    if b[0] >= 128 {
      ReadSpelling(b[1..], i + 1);
      var (n, w) := ReadVarint(b, i).value;
      var (m, v) := ReadVarint(b[1..], i + 1).value;
      assert w == v + 1 && n == b[0] % 128 + 128 * m;
      assert b[..w] == [b[0]] + b[1..][..v] && b[w - 1] == b[1..][v - 1];
      if n >= 128 {
        assert n / 128 == m && n % 128 == b[0] % 128;
      }
    }
  }

  lemma CodesChars(b: Bytes)
    requires AllBytes(b)
    ensures Codes(Chars(b)) == b
  {
  }

  /** A text reads back from other bytes than its own exactly when its length
      was spelt with a needless last byte. */
  lemma TextSpelling(b: Bytes)
    requires AllBytes(b) && ReadText(b).Some?
    ensures var (s, rest) := ReadText(b).value; Text(s) + rest == b <==> Minimal(b)
  {
    var (n, w) := ReadVarint(b, 0).value;
    var (s, rest) := ReadText(b).value;
    ReadSpelling(b, 0);
    CodesChars(b[w..][..n]);
    assert b == b[..w] + (b[w..][..n] + b[w..][n..]);
    assert Text(s) + rest == Uvarint(n) + (Codes(s) + rest);
    if Text(s) + rest == b {
      TextRest(Uvarint(n), b[..w], Codes(s) + rest);
    }
  }

  lemma TextRest(a: Bytes, b: Bytes, rest: Bytes)
    requires a + rest == b + rest
    ensures a == b
  {
    assert (a + rest)[..|a|] == a && (b + rest)[..|b|] == b;
  }

  lemma {:induction false} ReadVarintRoom(b: Bytes, i: nat)
    requires AllBytes(b) && ReadVarint(b, i).Some?
    ensures i < 10 && ReadVarint(b, i).value.0 < Room(i)
  {
    if b[0] >= 128 {
      ReadVarintRoom(b[1..], i + 1);
    } else if i < 9 {
      assert Room(i) == 128 * Room(i + 1);
    }
  }

  /** A text's own bytes, followed by anything, are b exactly when b's length is
      minimal and what follows is the same. */
  lemma TextPeel(b: Bytes, more: Bytes)
    requires AllBytes(b) && ReadText(b).Some?
    ensures Text(ReadText(b).value.0) + more == b <==> Minimal(b) && more == ReadText(b).value.1
  {
    hide Minimal, Text, ReadText;
    var (s, rest) := ReadText(b).value;
    TextShort(b);
    TextSpelling(b);
    if Text(s) + more == b {
      TextBack(s, more);
    }
  }

  lemma TextShort(b: Bytes)
    requires AllBytes(b) && ReadText(b).Some?
    ensures Short(ReadText(b).value.0) && AllBytes(ReadText(b).value.1)
  {
    Rooms();
    ReadVarintRoom(b, 0);
  }

  lemma NativeRefPeel(b: Bytes, more: Bytes)
    requires AllBytes(b) && ReadNativeRef(b).Some?
    ensures NativeRefKey(ReadNativeRef(b).value.0) + more == b <==> Minimal(b[1..]) && more == ReadNativeRef(b).value.1
  {
    hide Minimal, Text, ReadText;
    var r := ReadNativeRef(b).value.0;
    TextPeel(b[1..], more);
    assert NativeRefKey(r) + more == [KindByte(r.kind)] + (Text(r.id) + more);
    assert b == [KindByte(r.kind)] + b[1..];
    Cons(KindByte(r.kind), Text(r.id) + more, b[1..]);
  }

  lemma Cons(x: nat, a: Bytes, b: Bytes)
    ensures [x] + a == [x] + b <==> a == b
  {
    if [x] + a == [x] + b {
      assert ([x] + a)[1..] == a && ([x] + b)[1..] == b;
    }
  }

  /** The lengths a root reference spells: its source's, and its root's after
      the kind. */
  predicate MinimalRoot(b: Bytes)
    requires ReadText(b).Some? && |ReadText(b).value.1| > 0
  {
    Minimal(b) && Minimal(ReadText(b).value.1[1..])
  }

  lemma RootRefPeel(g: Grammar, b: Bytes, more: Bytes)
    requires AllBytes(b) && ReadRootRef(g, b).Some?
    ensures RootRefKey(ReadRootRef(g, b).value.0) + more == b <==> MinimalRoot(b) && more == ReadRootRef(g, b).value.1
  {
    hide Minimal, Text, ReadText, NativeRefKey, ReadNativeRef;
    var rr := ReadRootRef(g, b).value.0;
    assert RootRefKey(rr) + more == Text(rr.source) + (NativeRefKey(rr.root) + more);
    TextShort(b);
    TextPeel(b, NativeRefKey(rr.root) + more);
    NativeRefPeel(ReadText(b).value.1, more);
  }

  /** Each composite key reads back from other bytes than its own exactly when
      a length in them was spelt with a needless last byte. */
  lemma RootRefSpelling(g: Grammar, b: Bytes)
    requires AllBytes(b) && Whole(ReadRootRef(g, b)).Some?
    ensures RootRefKey(Whole(ReadRootRef(g, b)).value) == b <==> MinimalRoot(b)
  {
    hide MinimalRoot, RootRefKey, ReadText, ReadNativeRef, ReadSource;
    var rr := Whole(ReadRootRef(g, b)).value;
    RootRefPeel(g, b, []);
    assert RootRefKey(rr) + [] == RootRefKey(rr);
  }

  lemma ItemRefSpelling(g: Grammar, b: Bytes)
    requires AllBytes(b) && Whole(ReadItemRef(g, b)).Some?
    ensures ItemRefKey(Whole(ReadItemRef(g, b)).value) == b <==> MinimalRoot(b) && Minimal(ReadRootRef(g, b).value.1)
  {
    hide MinimalRoot, Minimal, Text, ReadText, RootRefKey;
    var ref := Whole(ReadItemRef(g, b)).value;
    RootRefBytes(g, b);
    TextPeel(ReadRootRef(g, b).value.1, []);
    RootRefPeel(g, b, Text(ref.item));
    assert Text(ref.item) + [] == Text(ref.item);
  }

  lemma RootRefBytes(g: Grammar, b: Bytes)
    requires AllBytes(b) && ReadRootRef(g, b).Some?
    ensures AllBytes(ReadRootRef(g, b).value.1)
  {
    hide ReadText;
    TextShort(b);
    TextShort(ReadText(b).value.1[1..]);
  }

  lemma FileKeySpelling(b: Bytes)
    requires AllBytes(b) && Whole(ReadFileKey(b)).Some?
    ensures FileKeyBytes(Whole(ReadFileKey(b)).value) == b <==> Minimal(b[8..])
  {
    hide ReadText, Minimal;
    var fk := Whole(ReadFileKey(b)).value;
    FromBigEndianBack(b[..8]);
    TextPeel(b[8..], []);
    assert b == b[..8] + b[8..];
    assert Text(fk.name) + [] == Text(fk.name);
    assert FileKeyBytes(fk)[8..] == Text(fk.name) && FileKeyBytes(fk)[..8] == b[..8];
  }

  lemma LockKeySpelling(g: Grammar, b: Bytes)
    requires AllBytes(b) && Whole(ReadLockKey(g, b)).Some?
    ensures LockKeyBytes(Whole(ReadLockKey(g, b)).value) == b <==> Minimal(b[KEY_BYTES..])
  {
    hide ReadText, Minimal, Text, MediaBytes, KeyFromBytes;
    var lk := Whole(ReadLockKey(g, b)).value;
    var v := [VariantByte(lk.pair.variant)];
    KeyFromBytesBack(b[..KEY_BYTES]);
    TextPeel(b[KEY_BYTES..], v);
    assert b == MediaBytes(lk.key) + b[KEY_BYTES..];
    assert LockKeyBytes(lk) == MediaBytes(lk.key) + (Text(lk.pair.tag) + v);
    assert LockKeyBytes(lk)[KEY_BYTES..] == Text(lk.pair.tag) + v;
  }

  /** The other way round fails: a length may be spelt in more bytes than it
      needs, and the reader takes it. */
  lemma OverlongLength()
    ensures ReadFileKey([0, 0, 0, 0, 0, 0, 0, 1, 128, 0]) == Some((FileKey(1, ""), []))
    ensures FileKeyBytes(FileKey(1, "")) != [0, 0, 0, 0, 0, 0, 0, 1, 128, 0]
  {
    hide BigEndian, FromBigEndian, ReadText, Text;
    var one: Bytes := [0, 0, 0, 0, 0, 0, 0, 1];
    var b: Bytes := [0, 0, 0, 0, 0, 0, 0, 1, 128, 0];
    One();
    assert b[..8] == one && b[8..] == [128, 0];
    EmptySpelt();
    assert FileKeyBytes(FileKey(1, "")) == one + [0];
  }

  lemma One()
    ensures BigEndian(1, 8) == [0, 0, 0, 0, 0, 0, 0, 1] && FromBigEndian([0, 0, 0, 0, 0, 0, 0, 1]) == 1
  {
    Widths();
    BigEndianBack(1, 8);
  }

  lemma EmptySpelt()
    ensures ReadText([128, 0]) == Some(("", [])) && Text("") == [0]
  {
    assert [128, 0][1..] == [0];
    assert ReadVarint([0], 1) == Some((0, 1));
    assert ReadVarint([128, 0], 0) == Some((0, 2));
    assert [128, 0][2..] == [];
    assert Chars([]) == "";
  }
}
