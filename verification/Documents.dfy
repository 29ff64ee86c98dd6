/** The settings file as a YAML tree, its shape, and the copy of it shown for
    reading, in which whatever no parser marked plain is masked. */
module Documents {
  import opened Wrappers

  /** What a scalar's text is written as; explicit is a tag written out. */
  datatype Node =
    | Scalar(tag: string, style: nat, explicit: bool, anchored: bool, value: string)
    | Mapping(tag: string, flow: bool, explicit: bool, anchored: bool, pairs: seq<Pair>)
    | Sequence(tag: string, flow: bool, explicit: bool, anchored: bool, items: seq<Node>)
    | Alias(target: Option<string>)

  datatype Pair = Pair(key: Node, value: Node)

  /** How the YAML library resolves an untagged scalar's text and style. */
  datatype Yaml = Yaml(resolve: (string, nat) -> string)

  const PLAIN_TAG := "!plain"
  const UNCHANGED_TAG := "!unchanged"
  const TAG_MERGE := "!!merge"
  const TAG_NULL := "!!null"
  const KEY_ID := "id"

  predicate IsUnchanged(n: Node) {
    n.Scalar? && n.tag == UNCHANGED_TAG
  }

  const UNCHANGED := Scalar(UNCHANGED_TAG, 0, false, false, "")

  function ShortTag(y: Yaml, n: Node): string
    requires n.Scalar?
  {
    if n.tag == "" then y.resolve(n.value, n.style) else n.tag
  }

  /** A key with plain text, which a merge key is not. */
  predicate TextKey(y: Yaml, k: Node) {
    k.Scalar? && ShortTag(y, k) != TAG_MERGE
  }

  /* ---------- Shape ---------- */

  /** The rule for one node of the file. */
  predicate FileShaped(n: Node) {
    !n.Alias? && !n.anchored && !n.explicit && n.tag != "!"
  }

  /** No key of a mapping is held twice. */
  predicate DistinctKeys(pairs: seq<Pair>)
    requires forall i | 0 <= i < |pairs| :: pairs[i].key.Scalar?
  {
    forall i, j | 0 <= i < j < |pairs| :: pairs[i].key.value != pairs[j].key.value
  }

  predicate KeysShaped(y: Yaml, pairs: seq<Pair>) {
    && (forall i | 0 <= i < |pairs| :: TextKey(y, pairs[i].key))
    && DistinctKeys(pairs)
  }

  /** A tree the shape walk of the file finds nothing in. */
  predicate Shaped(y: Yaml, n: Node) {
    && FileShaped(n)
    && match n
       case Mapping(_, _, _, _, pairs) =>
         KeysShaped(y, pairs) && forall i | 0 <= i < |pairs| :: FileShaped(pairs[i].key) && Shaped(y, pairs[i].value)
       case Sequence(_, _, _, _, items) => forall i | 0 <= i < |items| :: Shaped(y, items[i])
       case _ => true
  }

  /** The rule for one node of a body: no anchor, no text on an unchanged
      scalar, no tag of its own. */
  predicate BodyShaped(n: Node) {
    && !n.Alias? && !n.anchored
    && (if IsUnchanged(n) then n.value == "" else !n.explicit && n.tag != "!")
  }

  predicate WholeBody(y: Yaml, n: Node) {
    && BodyShaped(n)
    && match n
       case Mapping(_, _, _, _, pairs) =>
         KeysShaped(y, pairs) && forall i | 0 <= i < |pairs| :: BodyShaped(pairs[i].key) && WholeBody(y, pairs[i].value)
       case Sequence(_, _, _, _, items) => forall i | 0 <= i < |items| :: WholeBody(y, items[i])
       case _ => true
  }

  /* ---------- The masked view ---------- */

  /** A scalar that is wholly one ${NAME}. */
  predicate WholeReference(s: string) {
    && |s| >= 4 && s[..2] == "${" && s[|s| - 1] == '}'
    && NameStart(s[2]) && forall i | 3 <= i < |s| - 1 :: NameStart(s[i]) || '0' <= s[i] <= '9'
  }

  predicate NameStart(c: char) {
    'A' <= c <= 'Z' || 'a' <= c <= 'z' || c == '_'
  }

  /** The parsed copy tags a scalar that holds no secret. */
  predicate Marked(parsed: Option<Node>) {
    parsed.Some? && parsed.value.Scalar? && parsed.value.tag == PLAIN_TAG
  }

  function PairValue(parsed: Option<Node>, i: nat): Option<Node> {
    if parsed.Some? && parsed.value.Mapping? && i < |parsed.value.pairs| then Some(parsed.value.pairs[i].value) else None
  }

  function ItemAt(parsed: Option<Node>, i: nat): Option<Node> {
    if parsed.Some? && parsed.value.Sequence? && i < |parsed.value.items| then Some(parsed.value.items[i]) else None
  }

  predicate Shows(stored: Node, parsed: Option<Node>) {
    stored.Scalar? && !stored.explicit && (Marked(parsed) || WholeReference(stored.value))
  }

  function TextNode(s: string): Node {
    Scalar("", 0, false, false, s)
  }

  /** The tree for reading: a scalar keeps its text only where it was marked or
      is one reference, any other is masked. Keys have passed the walk. */
  function View(y: Yaml, stored: Node, parsed: Option<Node>): (v: Node)
    requires Shaped(y, stored)
  {
    match stored
    case Scalar(tag, style, _, _, value) =>
      if Shows(stored, parsed) then Scalar(tag, style, false, false, value) else UNCHANGED
    case Mapping(_, flow, _, _, pairs) =>
      Mapping("", flow, false, false,
              seq(|pairs|, i requires 0 <= i < |pairs| => Pair(TextNode(pairs[i].key.value), View(y, pairs[i].value, PairValue(parsed, i)))))
    case Sequence(_, flow, _, _, items) =>
      Sequence("", flow, false, false, seq(|items|, i requires 0 <= i < |items| => View(y, items[i], ItemAt(parsed, i))))
    case Alias(_) => UNCHANGED
  }

  predicate NameChar(c: char) {
    '0' <= c <= '9' || 'A' <= c <= 'Z' || c == '_' || 'a' <= c <= 'z'
  }

  /** A dollar sign and a name in braces, the name starting with no digit. */
  predicate References(s: string, name: string) {
    s == "${" + name + "}" && name != "" && !('0' <= name[0] <= '9') && forall i | 0 <= i < |name| :: NameChar(name[i])
  }

  ghost predicate OneReference(s: string) {
    exists name :: References(s, name)
  }

  lemma WholeNamed(s: string)
    requires |s| >= 4
    ensures WholeReference(s) <==> References(s, s[2..|s| - 1])
  {
    var name := s[2..|s| - 1];
    NamedReference(s, name);
    hide NameChar, NameStart;
    if References(s, name) {
      assert forall i | 1 <= i < |name| :: NameChar(name[i]);
    }
    if WholeReference(s) {
      forall i | 0 <= i < |name|
        ensures NameChar(name[i])
      {
        assert i == 0 || 1 <= i;
      }
    }
  }

  lemma ReferenceNamed(s: string)
    ensures WholeReference(s) <==> OneReference(s)
  {
    hide NameStart, NameChar;
    if |s| >= 4 {
      WholeNamed(s);
    }
    if name :| References(s, name) {
      assert s[2..|s| - 1] == name;
    }
  }

  lemma NamedReference(s: string, name: string)
    requires |s| >= 4 && s[2..|s| - 1] == name
    ensures s[..2] == "${" && s[|s| - 1] == '}' <==> s == "${" + name + "}"
    ensures NameStart(s[2]) <==> !('0' <= name[0] <= '9') && NameChar(name[0])
    ensures (forall i | 3 <= i < |s| - 1 :: NameStart(s[i]) || '0' <= s[i] <= '9') <==> (forall i | 1 <= i < |name| :: NameChar(name[i]))
  {
    assert s == s[..2] + name + [s[|s| - 1]];
    assert forall i | 0 <= i < |name| :: name[i] == s[i + 2];
    forall i | 3 <= i < |s| - 1
      ensures NameStart(s[i]) || '0' <= s[i] <= '9' <==> NameChar(name[i - 2])
    {
    }
    if forall i | 3 <= i < |s| - 1 :: NameStart(s[i]) || '0' <= s[i] <= '9' {
      forall i | 1 <= i < |name|
        ensures NameChar(name[i])
      {
        assert s[i + 2] == name[i];
      }
    }
  }

  /** A scalar's text is no secret where its parsed copy is marked plain, or
      when it is one reference. */
  ghost predicate Open(n: Node, parsed: Option<Node>) {
    n.Scalar? && ((exists m :: parsed == Some(m) && m.Scalar? && m.tag == "!plain") || OneReference(n.value))
  }

  lemma ShowsOpen(y: Yaml, n: Node, parsed: Option<Node>)
    requires Shaped(y, n)
    ensures Shows(n, parsed) <==> Open(n, parsed)
  {
    if n.Scalar? {
      ReferenceNamed(n.value);
    }
    hide WholeReference, OneReference;
  }

  /** Two files alike but for scalars of which neither is open. */
  ghost predicate Alike(a: Node, b: Node, parsed: Option<Node>) {
    match (a, b)
    case (Scalar(tag, style, _, _, value), Scalar(tag1, style1, _, _, value1)) =>
      (Open(a, parsed) <==> Open(b, parsed)) && (Open(a, parsed) ==> tag == tag1 && style == style1 && value == value1)
    case (Mapping(_, flow, _, _, pairs), Mapping(_, flow1, _, _, pairs1)) =>
      && flow == flow1 && |pairs| == |pairs1|
      && forall i | 0 <= i < |pairs| ::
           KeyText(pairs[i].key) == KeyText(pairs1[i].key) && Alike(pairs[i].value, pairs1[i].value, PairValue(parsed, i))
    case (Sequence(_, flow, _, _, items), Sequence(_, flow1, _, _, items1)) =>
      flow == flow1 && |items| == |items1| && forall i | 0 <= i < |items| :: Alike(items[i], items1[i], ItemAt(parsed, i))
    case _ => false
  }

  function KeyText(k: Node): string {
    if k.Scalar? then k.value else ""
  }

  /** No scalar has the tag that only the view writes. */
  predicate Unmarked(n: Node) {
    match n
    case Scalar(tag, _, _, _, _) => tag != UNCHANGED_TAG
    case Mapping(_, _, _, _, pairs) => forall i | 0 <= i < |pairs| :: Unmarked(pairs[i].value)
    case Sequence(_, _, _, _, items) => forall i | 0 <= i < |items| :: Unmarked(items[i])
    case _ => true
  }

  lemma MappingShown(y: Yaml, n: Node, parsed: Option<Node>)
    requires Shaped(y, n) && n.Mapping?
    ensures var v := View(y, n, parsed);
            && v == Mapping("", n.flow, false, false, v.pairs) && |v.pairs| == |n.pairs|
            && forall i | 0 <= i < |n.pairs| ::
                 Shaped(y, n.pairs[i].value) && v.pairs[i] == Pair(TextNode(KeyText(n.pairs[i].key)), View(y, n.pairs[i].value, PairValue(parsed, i)))
  {
    hide Shows, FileShaped, PairValue;
  }

  lemma SequenceShown(y: Yaml, n: Node, parsed: Option<Node>)
    requires Shaped(y, n) && n.Sequence?
    ensures var v := View(y, n, parsed);
            && v == Sequence("", n.flow, false, false, v.items) && |v.items| == |n.items|
            && forall i | 0 <= i < |n.items| :: Shaped(y, n.items[i]) && v.items[i] == View(y, n.items[i], ItemAt(parsed, i))
  {
    hide Shows, FileShaped, ItemAt;
  }

  lemma ViewMapping(y: Yaml, a: Node, b: Node, parsed: Option<Node>)
    requires Shaped(y, a) && Shaped(y, b) && a.Mapping? && b.Mapping?
    ensures View(y, a, parsed) == View(y, b, parsed) <==>
            && a.flow == b.flow && |a.pairs| == |b.pairs|
            && forall i | 0 <= i < |a.pairs| ::
                 && KeyText(a.pairs[i].key) == KeyText(b.pairs[i].key)
                 && View(y, a.pairs[i].value, PairValue(parsed, i)) == View(y, b.pairs[i].value, PairValue(parsed, i))
  {
    MappingShown(y, a, parsed);
    MappingShown(y, b, parsed);
    hide View, Shaped, KeyText, PairValue;
    var v, w := View(y, a, parsed), View(y, b, parsed);
    if |a.pairs| == |b.pairs| && forall i | 0 <= i < |a.pairs| :: v.pairs[i] == w.pairs[i] {
      assert v.pairs == w.pairs;
    }
  }

  lemma ViewSequence(y: Yaml, a: Node, b: Node, parsed: Option<Node>)
    requires Shaped(y, a) && Shaped(y, b) && a.Sequence? && b.Sequence?
    ensures View(y, a, parsed) == View(y, b, parsed) <==>
            && a.flow == b.flow && |a.items| == |b.items|
            && forall i | 0 <= i < |a.items| :: View(y, a.items[i], ItemAt(parsed, i)) == View(y, b.items[i], ItemAt(parsed, i))
  {
    SequenceShown(y, a, parsed);
    SequenceShown(y, b, parsed);
    hide View, Shaped, ItemAt;
    var v, w := View(y, a, parsed), View(y, b, parsed);
    if |a.items| == |b.items| && forall i | 0 <= i < |a.items| :: v.items[i] == w.items[i] {
      assert v.items == w.items;
    }
  }

  /** Files alike but for what they hide have one view: what a hidden scalar
      holds is nowhere in it. And it tells all other files apart. */
  lemma {:induction false} ViewMasks(y: Yaml, a: Node, b: Node, parsed: Option<Node>)
    requires Shaped(y, a) && Shaped(y, b)
    ensures Alike(a, b, parsed) ==> View(y, a, parsed) == View(y, b, parsed)
    ensures Unmarked(a) && Unmarked(b) ==> (View(y, a, parsed) == View(y, b, parsed) <==> Alike(a, b, parsed))
  {
    hide Shows, Open, PairValue, ItemAt;
    ShowsOpen(y, a, parsed);
    ShowsOpen(y, b, parsed);
    if a.Mapping? && b.Mapping? {
      ViewMapping(y, a, b, parsed);
      forall i | 0 <= i < |a.pairs| && i < |b.pairs|
        ensures var c, d, p := a.pairs[i].value, b.pairs[i].value, PairValue(parsed, i);
                && (Alike(c, d, p) ==> View(y, c, p) == View(y, d, p))
                && (Unmarked(c) && Unmarked(d) ==> (View(y, c, p) == View(y, d, p) <==> Alike(c, d, p)))
      {
        ViewMasks(y, a.pairs[i].value, b.pairs[i].value, PairValue(parsed, i));
      }
    } else if a.Sequence? && b.Sequence? {
      ViewSequence(y, a, b, parsed);
      forall i | 0 <= i < |a.items| && i < |b.items|
        ensures var c, d, p := a.items[i], b.items[i], ItemAt(parsed, i);
                && (Alike(c, d, p) ==> View(y, c, p) == View(y, d, p))
                && (Unmarked(c) && Unmarked(d) ==> (View(y, c, p) == View(y, d, p) <==> Alike(c, d, p)))
      {
        ViewMasks(y, a.items[i], b.items[i], ItemAt(parsed, i));
      }
    }
  }
}
