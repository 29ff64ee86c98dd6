/** A media key's canonical text, and the parser that takes no other. */
module KeyText {
  import opened Wrappers
  import opened Media
  import Bytes

  const MAX_KEY_TEXT := 64

  /* ---------- Decimal numbers ---------- */

  function Digit(n: nat): char
    requires n < 10
  {
    (48 + n) as char
  }

  predicate IsDigit(c: char) {
    '0' <= c <= '9'
  }

  function Decimal(n: nat): (s: string)
    ensures s != ""
  {
    if n < 10 then [Digit(n)] else Decimal(n / 10) + [Digit(n % 10)]
  }

  function Zeros(k: nat): (s: string)
    ensures |s| == k
  {
    seq(k, _ => '0')
  }

  /** The decimal number, with zeros before it up to a width. */
  function Padded(n: nat, width: nat): (s: string)
    ensures s != ""
  {
    var s := Decimal(n);
    if |s| < width then Zeros(width - |s|) + s else s
  }

  predicate AllDigits(s: string) {
    forall i | 0 <= i < |s| :: IsDigit(s[i])
  }

  function Value(s: string): nat
    requires AllDigits(s)
  {
    if s == "" then 0 else Value(s[..|s| - 1]) * 10 + (s[|s| - 1] as nat - 48)
  }

  lemma {:induction false} DecimalValue(n: nat)
    ensures AllDigits(Decimal(n)) && Value(Decimal(n)) == n
  {
    if n >= 10 {
      DecimalValue(n / 10);
      assert Decimal(n)[..|Decimal(n)| - 1] == Decimal(n / 10);
    } else {
      assert Decimal(n)[..0] == "";
    }
  }

  lemma {:induction false} ZerosValue(k: nat, s: string)
    requires AllDigits(s)
    ensures AllDigits(Zeros(k) + s) && Value(Zeros(k) + s) == Value(s)
  {
    if s == "" {
      if k > 0 {
        assert Zeros(k) + s == Zeros(k) && Zeros(k)[..k - 1] == Zeros(k - 1) == Zeros(k - 1) + "";
        ZerosValue(k - 1, "");
      }
    } else {
      assert (Zeros(k) + s)[..|Zeros(k) + s| - 1] == Zeros(k) + s[..|s| - 1];
      ZerosValue(k, s[..|s| - 1]);
    }
  }

  lemma PaddedValue(n: nat, width: nat)
    ensures AllDigits(Padded(n, width)) && Value(Padded(n, width)) == n
  {
    DecimalValue(n);
    if |Decimal(n)| < width {
      ZerosValue(width - |Decimal(n)|, Decimal(n));
    }
  }

  function Power(p: nat): nat {
    if p == 0 then 1 else 10 * Power(p - 1)
  }

  lemma {:induction false} PowerJoin(p: nat, q: nat)
    ensures Power(p + q) == Power(p) * Power(q)
  {
    if p > 0 {
      PowerJoin(p - 1, q);
    }
  }

  lemma {:induction false} DecimalLength(n: nat, p: nat)
    requires p > 0 && n < Power(p)
    ensures |Decimal(n)| <= p
  {
    assert Power(1) == 10;
    if n >= 10 {
      DecimalLength(n / 10, p - 1);
    }
  }

  /* ---------- Cutting a text ---------- */

  function DigitRun(s: string): (n: nat)
    ensures n <= |s| && AllDigits(s[..n]) && (n < |s| ==> !IsDigit(s[n]))
  {
    if s == "" || !IsDigit(s[0]) then 0
    else
      var n := DigitRun(s[1..]);
      assert s[..n + 1] == [s[0]] + s[1..][..n];
      n + 1
  }

  /** The digits a text starts with, and what follows them. */
  method CutDigits(s: string) returns (digits: string, rest: string)
    ensures digits == s[..DigitRun(s)] && rest == s[DigitRun(s)..]
  {
    var i := 0;
    while i < |s| && IsDigit(s[i])
      invariant i <= |s| && DigitRun(s) == i + DigitRun(s[i..])
    {
      assert s[i..][1..] == s[i + 1..];
      i := i + 1;
    }
    digits, rest := s[..i], s[i..];
  }

  predicate StartsDigit(s: string) {
    s != "" && IsDigit(s[0])
  }

  lemma {:induction false} RunOf(digits: string, rest: string)
    requires AllDigits(digits) && !StartsDigit(rest)
    ensures DigitRun(digits + rest) == |digits|
    ensures (digits + rest)[..|digits|] == digits && (digits + rest)[|digits|..] == rest
  {
    if digits != "" {
      assert (digits + rest)[1..] == digits[1..] + rest;
      RunOf(digits[1..], rest);
    } else {
      assert digits + rest == rest;
    }
  }

  /** An unsigned number of at most max; no digits are none. */
  function ParseUint(digits: string, max: nat): Option<nat>
    requires AllDigits(digits)
  {
    if digits != "" && Value(digits) <= max then Some(Value(digits)) else None
  }

  function CutPrefix(s: string, p: string): Option<string> {
    if |p| <= |s| && s[..|p|] == p then Some(s[|p|..]) else None
  }

  /* ---------- Roots ---------- */

  datatype Prefix = Prefix(text: string, kind: Kind, scheme: Scheme)

  /** The five openings of a key's text, and what each says. */
  const PREFIXES: seq<Prefix> :=
    [Prefix("tmdb-", Movie, TMDB), Prefix("tt", Movie, IMDb), Prefix("tvdb-", Episode, TVDB),
     Prefix("tmdbtv-", Episode, TMDB), Prefix("imdbtv-tt", Episode, IMDb)]

  function IdText(s: Scheme, id: nat): (t: string)
    ensures t != ""
  {
    if s == IMDb then Padded(id, 7) else Decimal(id)
  }

  function RootTextFrom(ps: seq<Prefix>, r: RootKey): string {
    if ps == [] then ""
    else if ps[0].kind == r.kind && ps[0].scheme == r.scheme then ps[0].text + IdText(r.scheme, r.id)
    else RootTextFrom(ps[1..], r)
  }

  function RootText(r: RootKey): string {
    RootTextFrom(PREFIXES, r)
  }

  predicate ValidRoot(r: RootKey) {
    ValidExternalId(r.id) && r.scheme != NoScheme && (r.kind == Movie ==> r.scheme != TVDB)
  }

  /** The root a text starts with, by the first prefix that matches, and what
      follows it. */
  function ParseRootFrom(ps: seq<Prefix>, s: string): Option<(RootKey, string)> {
    if ps == [] then None
    else
      var rest := CutPrefix(s, ps[0].text);
      if rest.None? then ParseRootFrom(ps[1..], s)
      else
        var n := DigitRun(rest.value);
        var digits := rest.value[..n];
        var id := ParseUint(digits, Bytes.MAX_UINT64);
        if id.None? || !ValidExternalId(id.value) || IdText(ps[0].scheme, id.value) != digits then None
        else Some((RootKey(ps[0].kind, ps[0].scheme, id.value), rest.value[n..]))
  }

  function ParseRoot(s: string): Option<(RootKey, string)> {
    ParseRootFrom(PREFIXES, s)
  }

  function ParseRootKey(s: string): Option<RootKey> {
    if |s| > MAX_KEY_TEXT then None
    else
      var r := ParseRoot(s);
      if r.Some? && r.value.1 == "" then Some(r.value.0) else None
  }

  /* ---------- Keys ---------- */

  function KeyText(k: Key): string {
    if k.root.kind != Episode then RootText(k.root)
    else RootText(k.root) + "-s" + Padded(k.season, 2) + "e" + Padded(k.episode, 2)
  }

  /** Numbering text: two digits or more, padded with zeros only up to two. */
  function CutNumber(s: string): Option<(nat, string)> {
    var n := DigitRun(s);
    var v := ParseUint(s[..n], MAX_UINT16);
    if v.None? || Padded(v.value, 2) != s[..n] then None else Some((v.value, s[n..]))
  }

  function ParseEpisode(s: string): Option<(nat, nat)> {
    var a := CutPrefix(s, "-s");
    if a.None? then None
    else
      var season := CutNumber(a.value);
      if season.None? then None
      else
        var b := CutPrefix(season.value.1, "e");
        if b.None? then None
        else
          var episode := CutNumber(b.value);
          if episode.None? || episode.value.1 != "" then None else Some((season.value.0, episode.value.0))
  }

  function ParseKey(s: string): Option<Key> {
    if |s| > MAX_KEY_TEXT then None
    else
      var r := ParseRoot(s);
      if r.None? then None
      else if r.value.0.kind == Movie then (if r.value.1 == "" then Some(Key(r.value.0, 0, 0)) else None)
      else
        var e := ParseEpisode(r.value.1);
        if e.Some? then Some(Key(r.value.0, e.value.0, e.value.1)) else None
  }

  /* ---------- Both ways ---------- */

  lemma IdValue(s: Scheme, id: nat)
    ensures AllDigits(IdText(s, id)) && Value(IdText(s, id)) == id
  {
    PaddedValue(id, 7);
    DecimalValue(id);
  }

  function PrefixOf(r: RootKey): nat
    requires ValidRoot(r)
  {
    if r.kind == Movie then (if r.scheme == TMDB then 0 else 1)
    else if r.scheme == TVDB then 2
    else if r.scheme == TMDB then 3
    else 4
  }

  lemma RootTextIs(r: RootKey)
    requires ValidRoot(r)
    ensures RootText(r) == PREFIXES[PrefixOf(r)].text + IdText(r.scheme, r.id)
    ensures PREFIXES[PrefixOf(r)].kind == r.kind && PREFIXES[PrefixOf(r)].scheme == r.scheme
  {
    TextSkips(PREFIXES, PrefixOf(r), r);
  }

  lemma {:induction false} TextSkips(ps: seq<Prefix>, i: nat, r: RootKey)
    requires i < |ps| && forall j | 0 <= j < i :: ps[j].kind != r.kind || ps[j].scheme != r.scheme
    ensures RootTextFrom(ps, r) == RootTextFrom(ps[i..], r)
  {
    if i > 0 {
      TextSkips(ps[1..], i - 1, r);
      assert ps[1..][i - 1..] == ps[i..];
    }
  }

  lemma {:induction false} ParseSkips(ps: seq<Prefix>, i: nat, s: string)
    requires i < |ps| && CutPrefix(s, ps[i].text).Some?
    requires forall j | 0 <= j < i :: CutPrefix(s, ps[j].text).None?
    ensures ParseRootFrom(ps, s) == ParseRootFrom(ps[i..], s)
  {
    if i > 0 {
      ParseSkips(ps[1..], i - 1, s);
      assert ps[1..][i - 1..] == ps[i..];
    }
  }

  /** At most one prefix fits a text, so the first that fits is the only one. */
  lemma PrefixesApart(i: nat, j: nat, tail: string)
    requires j < i < |PREFIXES|
    ensures CutPrefix(PREFIXES[i].text + tail, PREFIXES[j].text).None?
  {
    CutDiffers(PREFIXES[i].text + tail, PREFIXES[j].text, if i == 3 && j == 0 then 4 else if i == 4 then 0 else 1);
  }

  lemma CutDiffers(s: string, p: string, k: nat)
    requires k < |s| && k < |p| && s[k] != p[k]
    ensures CutPrefix(s, p).None?
  {
    assert |p| <= |s| ==> s[..|p|][k] == s[k];
  }

  lemma RootRoundTrip(r: RootKey, rest: string)
    requires ValidRoot(r) && !StartsDigit(rest)
    ensures ParseRoot(RootText(r) + rest) == Some((r, rest))
  {
    RootTextIs(r);
    IdValue(r.scheme, r.id);
    var i := PrefixOf(r);
    var p := PREFIXES[i].text;
    var digits := IdText(r.scheme, r.id);
    var s := RootText(r) + rest;
    assert s == p + (digits + rest);
    forall j | 0 <= j < i
      ensures CutPrefix(s, PREFIXES[j].text).None?
    {
      PrefixesApart(i, j, digits + rest);
    }
    assert s[..|p|] == p && s[|p|..] == digits + rest;
    ParseSkips(PREFIXES, i, s);
    RunOf(digits, rest);
  }

  lemma {:induction false} ParsedRootFrom(ps: seq<Prefix>, s: string)
    requires ParseRootFrom(ps, s).Some?
    ensures var (r, rest) := ParseRootFrom(ps, s).value;
            && !StartsDigit(rest) && ValidExternalId(r.id)
            && exists i :: 0 <= i < |ps| && ps[i].kind == r.kind && ps[i].scheme == r.scheme && s == ps[i].text + IdText(r.scheme, r.id) + rest
  {
    hide IdText, Value;
    if CutPrefix(s, ps[0].text).None? {
      ParsedRootFrom(ps[1..], s);
      var (r, rest) := ParseRootFrom(ps, s).value;
      var i :| 0 <= i < |ps[1..]| && ps[1..][i].kind == r.kind && ps[1..][i].scheme == r.scheme && s == ps[1..][i].text + IdText(r.scheme, r.id) + rest;
      assert ps[i + 1] == ps[1..][i];
    } else {
      var rest := s[|ps[0].text|..];
      var n := DigitRun(rest);
      assert s == ps[0].text + (rest[..n] + rest[n..]);
      assert s == ps[0].text + rest[..n] + rest[n..];
    }
  }

  lemma ParsedRoot(s: string)
    requires ParseRoot(s).Some?
    ensures var (r, rest) := ParseRoot(s).value; ValidRoot(r) && s == RootText(r) + rest && !StartsDigit(rest)
  {
    ParsedRootFrom(PREFIXES, s);
    var (r, rest) := ParseRoot(s).value;
    var i :| 0 <= i < |PREFIXES| && PREFIXES[i].kind == r.kind && PREFIXES[i].scheme == r.scheme && s == PREFIXES[i].text + IdText(r.scheme, r.id) + rest;
    assert ValidRoot(r) && PrefixOf(r) == i;
    RootTextIs(r);
  }

  lemma RootLength(r: RootKey)
    requires ValidRoot(r)
    ensures |RootText(r)| <= 9 + 16
  {
    RootTextIs(r);
    PowerJoin(8, 8);
    assert Power(8) == 100_000_000;
    DecimalLength(r.id, 16);
    assert |PREFIXES[PrefixOf(r)].text| <= 9;
  }

  lemma NumberRoundTrip(n: nat, rest: string)
    requires n <= MAX_UINT16 && !StartsDigit(rest)
    ensures CutNumber(Padded(n, 2) + rest) == Some((n, rest)) && |Padded(n, 2)| <= 5
  {
    PaddedValue(n, 2);
    RunOf(Padded(n, 2), rest);
    assert Power(5) == 100_000;
    DecimalLength(n, 5);
  }

  lemma ParsedNumber(s: string)
    requires CutNumber(s).Some?
    ensures var (n, rest) := CutNumber(s).value; n <= MAX_UINT16 && s == Padded(n, 2) + rest && !StartsDigit(rest)
  {
    assert s == s[..DigitRun(s)] + s[DigitRun(s)..];
  }

  function EpisodeText(season: nat, episode: nat): string {
    "-s" + (Padded(season, 2) + ("e" + (Padded(episode, 2) + "")))
  }

  lemma KeyTextIs(k: Key)
    requires k.root.kind == Episode
    ensures KeyText(k) == RootText(k.root) + EpisodeText(k.season, k.episode)
  {
    assert Padded(k.episode, 2) + "" == Padded(k.episode, 2);
    assert KeyText(k) == RootText(k.root) + ("-s" + (Padded(k.season, 2) + ("e" + Padded(k.episode, 2))));
  }

  lemma EpisodeRoundTrip(season: nat, episode: nat)
    requires season <= MAX_UINT16 && episode <= MAX_UINT16
    ensures ParseEpisode(EpisodeText(season, episode)) == Some((season, episode)) && |EpisodeText(season, episode)| <= 13
    ensures !StartsDigit(EpisodeText(season, episode))
  {
    var tail := "e" + (Padded(episode, 2) + "");
    NumberRoundTrip(season, tail);
    NumberRoundTrip(episode, "");
    var s := EpisodeText(season, episode);
    assert s[..2] == "-s" && s[2..] == Padded(season, 2) + tail;
    assert tail[..1] == "e" && tail[1..] == Padded(episode, 2) + "";
  }

  lemma ParsedEpisode(s: string)
    requires ParseEpisode(s).Some?
    ensures var (season, episode) := ParseEpisode(s).value;
            season <= MAX_UINT16 && episode <= MAX_UINT16 && s == EpisodeText(season, episode)
  {
    var a := s[2..];
    ParsedNumber(a);
    var (season, b) := CutNumber(a).value;
    ParsedNumber(b[1..]);
    var (episode, end) := CutNumber(b[1..]).value;
    assert s == "-s" + a && b == "e" + b[1..];
  }

  /** Every key's text parses back to it, and a root's to the root. */
  lemma KeyRoundTrip(k: Key)
    requires ValidKey(k)
    ensures ParseKey(KeyText(k)) == Some(k) && ParseRootKey(RootText(k.root)) == Some(k.root)
  {
    RootLength(k.root);
    RootRoundTrip(k.root, "");
    assert RootText(k.root) + "" == RootText(k.root);
    if k.root.kind == Episode {
      KeyTextIs(k);
      EpisodeRoundTrip(k.season, k.episode);
      RootRoundTrip(k.root, EpisodeText(k.season, k.episode));
    }
  }

  /** Only a key's own text parses: every other spelling is refused. */
  lemma ParsedKey(s: string)
    requires ParseKey(s).Some?
    ensures ValidKey(ParseKey(s).value) && KeyText(ParseKey(s).value) == s
  {
    ParsedRoot(s);
    var (r, rest) := ParseRoot(s).value;
    if r.kind == Episode {
      ParsedEpisode(rest);
      KeyTextIs(ParseKey(s).value);
    } else {
      assert RootText(r) + "" == RootText(r);
    }
  }

  lemma ParsedRootKey(s: string)
    requires ParseRootKey(s).Some?
    ensures ValidRoot(ParseRootKey(s).value) && RootText(ParseRootKey(s).value) == s
  {
    ParsedRoot(s);
    var (r, rest) := ParseRoot(s).value;
    assert RootText(r) + "" == RootText(r);
  }

  /** A series' text and an episode's are never the same: no text parses as
      both, though a movie's does. */
  lemma RootOrEpisode(s: string)
    requires ParseKey(s).Some? && ParseRootKey(s).Some?
    ensures ParseKey(s).value == Key(ParseRootKey(s).value, 0, 0) && ParseRootKey(s).value.kind == Movie
  {
    ParsedRoot(s);
  }

  /* ---------- The spelling ---------- */

  /** A number's text: its digits, as many as the width asks, and no other
      zeros before them. */
  lemma {:induction false} NumberSpelt(n: nat, width: nat)
    ensures var s := Padded(n, width);
            AllDigits(s) && Value(s) == n && |s| >= width && (|s| > width && |s| > 1 ==> s[0] != '0')
  {
    PaddedValue(n, width);
    DecimalStart(n);
  }

  lemma {:induction false} DecimalStart(n: nat)
    ensures n > 0 ==> Decimal(n)[0] != '0'
    ensures n == 0 ==> |Decimal(n)| == 1
  {
    if n >= 10 {
      DecimalStart(n / 10);
    }
  }

  /** A key's text opens with its kind and scheme, then its id, of seven digits
      or more for IMDb; an episode's goes on with its season and its number, of
      two digits or more. */
  lemma KeySpelt(k: Key)
    requires ValidKey(k)
    ensures var id := if k.root.scheme == IMDb then Padded(k.root.id, 7) else Padded(k.root.id, 1);
            var root := (match (k.root.kind, k.root.scheme)
                         case (Movie, TMDB) => "tmdb-"
                         case (Movie, _) => "tt"
                         case (Episode, TVDB) => "tvdb-"
                         case (Episode, TMDB) => "tmdbtv-"
                         case (Episode, _) => "imdbtv-tt") + id;
            && RootText(k.root) == root
            && KeyText(k) == if k.root.kind == Movie then root else root + "-s" + Padded(k.season, 2) + "e" + Padded(k.episode, 2)
  {
    RootTextIs(k.root);
  }
}
