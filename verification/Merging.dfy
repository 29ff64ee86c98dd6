/** Filling a saved document back: each unchanged scalar of a body takes the
    stored scalar at its place, by key and by id. */
module Merging {
  import opened Wrappers
  import opened Documents

  /** A step to a child: a mapping's value by key, an element by position. */
  datatype Step = Key(key: string) | Index(at: nat)
  datatype MergeError = EnterValue(path: seq<Step>) | EnterEntry(path: seq<Step>)

  /* ---------- Finding a counterpart ---------- */

  /** Where a key is held, when it is held once. */
  function KeyAt(pairs: seq<Pair>, key: string): Option<nat> {
    if |Holding(pairs, key)| == 1 then Some(Holding(pairs, key)[0]) else None
  }

  /** The positions holding a key. */
  function Holding(pairs: seq<Pair>, key: string): (at: seq<nat>)
    ensures forall i | 0 <= i < |at| :: at[i] < |pairs| && pairs[at[i]].key.Scalar? && pairs[at[i]].key.value == key
    ensures forall i | 0 <= i < |pairs| && pairs[i].key.Scalar? && pairs[i].key.value == key :: i in at
  {
    if pairs == [] then []
    else
      var n := |pairs| - 1;
      var rest := Holding(pairs[..n], key);
      if pairs[n].key.Scalar? && pairs[n].key.value == key then rest + [n] else rest
  }

  /** A mapping's value for a key it holds once. */
  function MappingValue(st: Option<Node>, key: string): Option<Node> {
    if st.None? || !st.value.Mapping? then None
    else
      var at := KeyAt(st.value.pairs, key);
      if at.Some? then Some(st.value.pairs[at.value].value) else None
  }

  /** What names a mapping among its siblings: its id entry, when there is
      exactly one and it is a plain scalar. */
  function EntryId(n: Node): Option<string> {
    var v := MappingValue(Some(n), KEY_ID);
    if v.None? || !v.value.Scalar? || v.value.tag == UNCHANGED_TAG || v.value.explicit || v.value.value == "" then None
    else Some(v.value.value)
  }

  /** The positions of the elements with an id. */
  function WithId(items: seq<Node>, id: string): (at: seq<nat>)
    ensures forall i | 0 <= i < |at| :: at[i] < |items| && EntryId(items[at[i]]) == Some(id)
    ensures forall i | 0 <= i < |items| && EntryId(items[i]) == Some(id) :: i in at
  {
    if items == [] then []
    else
      var n := |items| - 1;
      var rest := WithId(items[..n], id);
      if EntryId(items[n]) == Some(id) then rest + [n] else rest
  }

  /** The stored element with e's id, when that id is held once in e's own
      sequence and once in the stored one. */
  function ElementById(e: Node, items: seq<Node>, st: Option<Node>): Option<Node> {
    var id := EntryId(e);
    if id.None? || st.None? || !st.value.Sequence? || |WithId(items, id.value)| != 1 || |WithId(st.value.items, id.value)| != 1 then None
    else Some(st.value.items[WithId(st.value.items, id.value)[0]])
  }

  predicate HoldsUnchanged(n: Node) {
    match n
    case Scalar(_, _, _, _, _) => IsUnchanged(n)
    case Mapping(_, _, _, _, pairs) => exists i :: 0 <= i < |pairs| && (IsUnchanged(pairs[i].key) || HoldsUnchanged(pairs[i].value))
    case Sequence(_, _, _, _, items) => exists i :: 0 <= i < |items| && HoldsUnchanged(items[i])
    case Alias(_) => false
  }

  /* ---------- Merging ---------- */

  /** A null spelt as nothing gains a tilde when it is put in a flow
      collection. */
  function InFlow(y: Yaml, flow: bool, v: Node): Node {
    if flow && v.Scalar? && v.value == "" && v.style == 0 && (v.tag == "" || ShortTag(y, v) == TAG_NULL) then v.(value := "~") else v
  }

  predicate Takes(st: Option<Node>) {
    st.Some? && st.value.Scalar? && !st.value.anchored && !st.value.explicit
  }

  function Errors(rs: seq<Result<Node, seq<MergeError>>>): seq<MergeError> {
    if rs == [] then [] else Errors(rs[..|rs| - 1]) + (if rs[|rs| - 1].Failure? then rs[|rs| - 1].error else [])
  }

  predicate AllMerged(rs: seq<Result<Node, seq<MergeError>>>) {
    forall i | 0 <= i < |rs| :: rs[i].Success?
  }

  /** The stored node an element of a body is merged from; None refuses it. */
  function ElementFrom(e: Node, items: seq<Node>, st: Option<Node>): Option<Option<Node>> {
    if !HoldsUnchanged(e) then Some(None)
    else
      var se := ElementById(e, items, st);
      if se.None? then None else Some(se)
  }

  /** Each value of a mapping merged from the stored value of its key. */
  function PairResults(y: Yaml, b: Node, st: Option<Node>, path: seq<Step>): (rs: seq<Result<Node, seq<MergeError>>>)
    requires WholeBody(y, b) && b.Mapping?
    ensures |rs| == |b.pairs|
    decreases b, 0
  {
    seq(|b.pairs|, i requires 0 <= i < |b.pairs| =>
        Merge(y, b.pairs[i].value, MappingValue(st, b.pairs[i].key.value), path + [Key(b.pairs[i].key.value)]))
  }

  /** Each element of a sequence merged from the stored one with its id. */
  function ItemResults(y: Yaml, b: Node, st: Option<Node>, path: seq<Step>): (rs: seq<Result<Node, seq<MergeError>>>)
    requires WholeBody(y, b) && b.Sequence?
    ensures |rs| == |b.items|
    decreases b, 0
  {
    seq(|b.items|, i requires 0 <= i < |b.items| =>
        var from := ElementFrom(b.items[i], b.items, st);
        if from.None? then Failure([EnterEntry(path + [Index(i)])])
        else Merge(y, b.items[i], from.value, path + [Index(i)]))
  }

  function Values(rs: seq<Result<Node, seq<MergeError>>>): (vs: seq<Node>)
    requires AllMerged(rs)
    ensures |vs| == |rs|
  {
    seq(|rs|, i requires 0 <= i < |rs| => rs[i].value)
  }

  /** A mapping's pairs with its own keys and other values. */
  function WithValues(y: Yaml, flow: bool, pairs: seq<Pair>, vs: seq<Node>): seq<Pair>
    requires |vs| == |pairs| && forall i | 0 <= i < |pairs| :: pairs[i].key.Scalar?
  {
    seq(|pairs|, i requires 0 <= i < |pairs| =>
        Pair(Scalar(pairs[i].key.tag, pairs[i].key.style, false, false, pairs[i].key.value), InFlow(y, flow, vs[i])))
  }

  function AllInFlow(y: Yaml, flow: bool, vs: seq<Node>): (r: seq<Node>)
    ensures |r| == |vs|
  {
    seq(|vs|, i requires 0 <= i < |vs| => InFlow(y, flow, vs[i]))
  }

  /** A body with each unchanged scalar taken from the stored node at its
      position, or the places that have none. */
  function Merge(y: Yaml, b: Node, st: Option<Node>, path: seq<Step>): Result<Node, seq<MergeError>>
    requires WholeBody(y, b)
    decreases b, 1
  {
    match b
    case Scalar(tag, style, _, _, value) =>
      if !IsUnchanged(b) then Success(Scalar(tag, style, false, false, value))
      else if !Takes(st) then Failure([EnterValue(path)])
      else Success(Scalar(st.value.tag, st.value.style, false, false, st.value.value))
    case Mapping(tag, flow, _, _, pairs) =>
      var rs := PairResults(y, b, st, path);
      if !AllMerged(rs) then Failure(Errors(rs)) else Success(Mapping(tag, flow, false, false, WithValues(y, flow, pairs, Values(rs))))
    case Sequence(tag, flow, _, _, items) =>
      var rs := ItemResults(y, b, st, path);
      if !AllMerged(rs) then Failure(Errors(rs)) else Success(Sequence(tag, flow, false, false, AllInFlow(y, flow, Values(rs))))
  }

  /* ---------- The unedited view ---------- */

  /** The tree as a save writes it: keys and collections untagged, an empty
      plain null in a flow collection spelt ~. */
  function Normal(y: Yaml, n: Node): Node
    decreases n, 1
  {
    match n
    case Scalar(tag, style, _, _, value) => Scalar(tag, style, false, false, value)
    case Mapping(_, flow, _, _, pairs) =>
      Mapping("", flow, false, false, WithValues(y, flow, BarePairs(pairs), NormalValues(y, n)))
    case Sequence(_, flow, _, _, items) =>
      Sequence("", flow, false, false, AllInFlow(y, flow, NormalItems(y, n)))
    case Alias(_) => n
  }

  function BarePairs(pairs: seq<Pair>): (r: seq<Pair>)
    ensures |r| == |pairs| && forall i | 0 <= i < |r| :: r[i].key.Scalar?
  {
    seq(|pairs|, i requires 0 <= i < |pairs| => Pair(TextNode(if pairs[i].key.Scalar? then pairs[i].key.value else ""), pairs[i].value))
  }

  function NormalValues(y: Yaml, n: Node): (vs: seq<Node>)
    requires n.Mapping?
    ensures |vs| == |n.pairs|
    decreases n, 0
  {
    seq(|n.pairs|, i requires 0 <= i < |n.pairs| => Normal(y, n.pairs[i].value))
  }

  function NormalItems(y: Yaml, n: Node): (vs: seq<Node>)
    requires n.Sequence?
    ensures |vs| == |n.items|
    decreases n, 0
  {
    seq(|n.items|, i requires 0 <= i < |n.items| => Normal(y, n.items[i]))
  }

  /** Every list entry of which something is masked shows an id its list holds
      once; no stored scalar is tagged as a body's unchanged one. */
  predicate Restorable(y: Yaml, stored: Node, parsed: Option<Node>)
    requires Shaped(y, stored)
  {
    match stored
    case Scalar(tag, _, _, _, _) => tag != UNCHANGED_TAG
    case Mapping(_, _, _, _, pairs) => forall i | 0 <= i < |pairs| :: Restorable(y, pairs[i].value, PairValue(parsed, i))
    case Sequence(_, _, _, _, items) =>
      forall i | 0 <= i < |items| ::
        && Restorable(y, items[i], ItemAt(parsed, i))
        && (HoldsUnchanged(View(y, items[i], ItemAt(parsed, i))) ==>
              var id := EntryId(View(y, items[i], ItemAt(parsed, i)));
              id.Some? && |WithId(items, id.value)| == 1)
    case Alias(_) => true
  }

  /** No key's bare text would read back as a merge key. */
  predicate BareKeys(y: Yaml, n: Node) {
    match n
    case Mapping(_, _, _, _, pairs) =>
      forall i | 0 <= i < |pairs| :: (pairs[i].key.Scalar? ==> TextKey(y, TextNode(pairs[i].key.value))) && BareKeys(y, pairs[i].value)
    case Sequence(_, _, _, _, items) => forall i | 0 <= i < |items| :: BareKeys(y, items[i])
    case _ => true
  }

  /** A body is accepted unedited exactly when no quoted key of the file is
      one that, written bare, is a merge key. */
  lemma {:induction false} ViewWhole(y: Yaml, n: Node, parsed: Option<Node>)
    requires Shaped(y, n) && Restorable(y, n, parsed)
    ensures WholeBody(y, View(y, n, parsed)) <==> BareKeys(y, n)
  {
    match n
    case Mapping(_, _, _, _, pairs) =>
      forall i | 0 <= i < |pairs|
        ensures WholeBody(y, View(y, pairs[i].value, PairValue(parsed, i))) <==> BareKeys(y, pairs[i].value)
      {
        ViewWhole(y, pairs[i].value, PairValue(parsed, i));
      }
      ViewPairs(y, n, parsed);
    case Sequence(_, _, _, _, items) =>
      forall i | 0 <= i < |items|
        ensures WholeBody(y, View(y, items[i], ItemAt(parsed, i))) <==> BareKeys(y, items[i])
      {
        ViewWhole(y, items[i], ItemAt(parsed, i));
      }
      var v := View(y, n, parsed);
      assert forall i | 0 <= i < |items| :: v.items[i] == View(y, items[i], ItemAt(parsed, i));
    case _ =>
  }

  /** A file whose only key is a quoted <<, which bare text would merge. */
  const QUOTED := Mapping("", false, false, false, [Pair(Scalar("", 2, false, false, "<<"), Scalar("", 0, false, false, "x"))])

  /** Its view is shown, and refused when saved unedited. */
  lemma QuotedMergeKey(y: Yaml, parsed: Option<Node>)
    requires y.resolve("<<", 0) == TAG_MERGE && y.resolve("<<", 2) != TAG_MERGE
    ensures Shaped(y, QUOTED) && Restorable(y, QUOTED, parsed) && !WholeBody(y, View(y, QUOTED, parsed))
  {
    var k := QUOTED.pairs[0].key;
    assert TextKey(y, k) && !TextKey(y, TextNode("<<"));
    ViewWhole(y, QUOTED, parsed);
  }

  lemma ViewPairs(y: Yaml, n: Node, parsed: Option<Node>)
    requires Shaped(y, n) && n.Mapping?
    ensures var v := View(y, n, parsed);
            && v.Mapping? && |v.pairs| == |n.pairs|
            && (forall i | 0 <= i < |v.pairs| :: v.pairs[i] == Pair(TextNode(n.pairs[i].key.value), View(y, n.pairs[i].value, PairValue(parsed, i))))
            && (forall i | 0 <= i < |v.pairs| :: v.pairs[i].key.Scalar?) && DistinctKeys(v.pairs)
  {
  }

  /* ---------- Keys and ids of a view ---------- */

  lemma {:induction false} HoldingSame(a: seq<Pair>, b: seq<Pair>, key: string)
    requires |a| == |b| && forall i | 0 <= i < |a| :: a[i].key.Scalar? && b[i].key.Scalar? && a[i].key.value == b[i].key.value
    ensures Holding(a, key) == Holding(b, key)
  {
    if a != [] {
      HoldingSame(a[..|a| - 1], b[..|b| - 1], key);
    }
  }

  lemma {:induction false} HoldingOnce(pairs: seq<Pair>, i: nat)
    requires i < |pairs| && (forall j | 0 <= j < |pairs| :: pairs[j].key.Scalar?) && DistinctKeys(pairs)
    ensures Holding(pairs, pairs[i].key.value) == [i]
  {
    var n := |pairs| - 1;
    var rest := Holding(pairs[..n], pairs[i].key.value);
    if i < n {
      HoldingOnce(pairs[..n], i);
    } else {
      HoldingNone(pairs[..n], pairs[i].key.value);
    }
  }

  lemma {:induction false} HoldingNone(pairs: seq<Pair>, key: string)
    requires forall j | 0 <= j < |pairs| :: pairs[j].key.Scalar? && pairs[j].key.value != key
    ensures Holding(pairs, key) == []
  {
    if pairs != [] {
      HoldingNone(pairs[..|pairs| - 1], key);
    }
  }

  lemma ViewScalar(y: Yaml, n: Node, parsed: Option<Node>)
    requires Shaped(y, n)
    ensures View(y, n, parsed).Mapping? <==> n.Mapping?
    ensures var v := View(y, n, parsed);
            v.Scalar? && v.tag != UNCHANGED_TAG ==> n.Scalar? && n.tag == v.tag && n.value == v.value && !n.explicit
  {
  }

  /** An id a view shows is the stored one. */
  lemma ViewId(y: Yaml, n: Node, parsed: Option<Node>)
    requires Shaped(y, n)
    ensures EntryId(View(y, n, parsed)).Some? ==> EntryId(n) == EntryId(View(y, n, parsed))
  {
    ViewScalar(y, n, parsed);
    if n.Mapping? {
      ViewPairs(y, n, parsed);
      ShapedValues(y, n);
      hide View, Shaped, Holding;
      var v := View(y, n, parsed);
      HoldingSame(n.pairs, v.pairs, KEY_ID);
      var at := KeyAt(n.pairs, KEY_ID);
      if at.Some? {
        ViewScalar(y, n.pairs[at.value].value, PairValue(parsed, at.value));
      }
    }
  }

  lemma ShapedValues(y: Yaml, n: Node)
    requires Shaped(y, n) && n.Mapping?
    ensures forall i | 0 <= i < |n.pairs| :: Shaped(y, n.pairs[i].value)
  {
  }

  lemma {:induction false} WithIdIncreasing(items: seq<Node>, id: string)
    ensures forall i, j | 0 <= i < j < |WithId(items, id)| :: WithId(items, id)[i] < WithId(items, id)[j]
  {
    if items != [] {
      WithIdIncreasing(items[..|items| - 1], id);
    }
  }

  /** The one element with an id. */
  lemma WithIdOnly(items: seq<Node>, id: string, i: nat)
    requires i < |items| && EntryId(items[i]) == Some(id)
    requires forall j | 0 <= j < |items| && EntryId(items[j]) == Some(id) :: j == i
    ensures WithId(items, id) == [i]
  {
    var at := WithId(items, id);
    assert i in at;
    if |at| > 1 {
      assert at[0] == i && at[1] == i;
      WithIdIncreasing(items, id);
    }
  }

  /** A masked entry's stored counterpart is the one it was shown from. */
  lemma ViewElement(y: Yaml, n: Node, parsed: Option<Node>, i: nat)
    requires Shaped(y, n) && n.Sequence? && i < |n.items|
    requires var id := EntryId(View(y, n.items[i], ItemAt(parsed, i))); id.Some? && |WithId(n.items, id.value)| == 1
    ensures var v := View(y, n, parsed);
            v.Sequence? && i < |v.items| && ElementById(v.items[i], v.items, Some(n)) == Some(n.items[i])
  {
    var v := View(y, n, parsed);
    var id := EntryId(v.items[i]).value;
    forall j | 0 <= j < |n.items|
      ensures EntryId(v.items[j]) == Some(id) ==> EntryId(n.items[j]) == Some(id)
    {
      ViewId(y, n.items[j], ItemAt(parsed, j));
    }
    hide Shaped, View, EntryId;
    OneWithId(n.items, id, i);
    WithIdOnly(n.items, id, i);
    WithIdOnly(v.items, id, i);
  }

  lemma OneWithId(items: seq<Node>, id: string, i: nat)
    requires i < |items| && EntryId(items[i]) == Some(id) && |WithId(items, id)| == 1
    ensures forall j | 0 <= j < |items| && EntryId(items[j]) == Some(id) :: j == i
  {
    hide EntryId;
    assert i in WithId(items, id);
    forall j | 0 <= j < |items| && EntryId(items[j]) == Some(id)
      ensures j == i
    {
      assert j in WithId(items, id);
    }
  }

  /* ---------- Round trip ---------- */

  lemma MergePairs(y: Yaml, b: Node, st: Option<Node>, path: seq<Step>, want: seq<Node>)
    requires WholeBody(y, b) && b.Mapping? && |want| == |b.pairs|
    requires forall i | 0 <= i < |b.pairs| :: PairResults(y, b, st, path)[i] == Success(want[i])
    ensures Merge(y, b, st, path) == Success(Mapping(b.tag, b.flow, false, false, WithValues(y, b.flow, b.pairs, want)))
  {
    assert Values(PairResults(y, b, st, path)) == want;
  }

  lemma MergeItems(y: Yaml, b: Node, st: Option<Node>, path: seq<Step>, want: seq<Node>)
    requires WholeBody(y, b) && b.Sequence? && |want| == |b.items|
    requires forall i | 0 <= i < |b.items| :: ItemResults(y, b, st, path)[i] == Success(want[i])
    ensures Merge(y, b, st, path) == Success(Sequence(b.tag, b.flow, false, false, AllInFlow(y, b.flow, want)))
  {
    assert Values(ItemResults(y, b, st, path)) == want;
  }

  lemma ViewNormal(y: Yaml, n: Node, parsed: Option<Node>)
    requires Shaped(y, n) && n.Mapping?
    ensures var v := View(y, n, parsed);
            v.Mapping? && |v.pairs| == |n.pairs| && (forall i | 0 <= i < |v.pairs| :: v.pairs[i].key.Scalar?)
            && Mapping(v.tag, v.flow, false, false, WithValues(y, v.flow, v.pairs, NormalValues(y, n))) == Normal(y, n)
  {
    var v := View(y, n, parsed);
    assert WithValues(y, v.flow, v.pairs, NormalValues(y, n)) == WithValues(y, v.flow, BarePairs(n.pairs), NormalValues(y, n));
  }

  /** Where a view masks nothing, merging it needs nothing stored. */
  lemma {:induction false} NothingMasked(y: Yaml, n: Node, parsed: Option<Node>, st: Option<Node>, path: seq<Step>)
    requires Shaped(y, n) && WholeBody(y, View(y, n, parsed)) && !HoldsUnchanged(View(y, n, parsed))
    ensures Merge(y, View(y, n, parsed), st, path) == Success(Normal(y, n))
  {
    var v := View(y, n, parsed);
    match n
    case Mapping(_, _, _, _, pairs) =>
      ViewPairs(y, n, parsed);
      forall i | 0 <= i < |pairs|
        ensures PairResults(y, v, st, path)[i] == Success(NormalValues(y, n)[i])
      {
        assert v.pairs[i].value == View(y, pairs[i].value, PairValue(parsed, i)) && WholeBody(y, v.pairs[i].value);
        assert HoldsUnchanged(v.pairs[i].value) ==> HoldsUnchanged(v);
        NothingMasked(y, pairs[i].value, PairValue(parsed, i), MappingValue(st, v.pairs[i].key.value), path + [Key(v.pairs[i].key.value)]);
      }
      MergePairs(y, v, st, path, NormalValues(y, n));
      ViewNormal(y, n, parsed);
    case Sequence(_, _, _, _, items) =>
      forall i | 0 <= i < |items|
        ensures ItemResults(y, v, st, path)[i] == Success(NormalItems(y, n)[i])
      {
        assert v.items[i] == View(y, items[i], ItemAt(parsed, i)) && WholeBody(y, v.items[i]);
        assert HoldsUnchanged(v.items[i]) ==> HoldsUnchanged(v);
        NothingMasked(y, items[i], ItemAt(parsed, i), None, path + [Index(i)]);
      }
      MergeItems(y, v, st, path, NormalItems(y, n));
    case _ =>
  }

  lemma PairRoundTrip(y: Yaml, n: Node, parsed: Option<Node>, path: seq<Step>, i: nat)
    requires Shaped(y, n) && n.Mapping? && i < |n.pairs| && WholeBody(y, View(y, n, parsed))
    requires WholeBody(y, View(y, n.pairs[i].value, PairValue(parsed, i)))
    requires Merge(y, View(y, n.pairs[i].value, PairValue(parsed, i)), Some(n.pairs[i].value), path + [Key(n.pairs[i].key.value)])
          == Success(NormalValues(y, n)[i])
    ensures PairResults(y, View(y, n, parsed), Some(n), path)[i] == Success(NormalValues(y, n)[i])
  {
    hide Merge, NormalValues, Shaped, WholeBody;
    HoldingOnce(n.pairs, i) by { assert KeysShaped(y, n.pairs) by { ShapedKeys(y, n); } }
    ViewPairs(y, n, parsed);
  }

  lemma ShapedKeys(y: Yaml, n: Node)
    requires Shaped(y, n) && n.Mapping?
    ensures KeysShaped(y, n.pairs)
  {
  }

  lemma ItemRoundTrip(y: Yaml, n: Node, parsed: Option<Node>, path: seq<Step>, i: nat)
    requires Shaped(y, n) && n.Sequence? && i < |n.items| && WholeBody(y, View(y, n, parsed)) && Restorable(y, n, parsed)
    requires WholeBody(y, View(y, n.items[i], ItemAt(parsed, i)))
    requires Merge(y, View(y, n.items[i], ItemAt(parsed, i)), Some(n.items[i]), path + [Index(i)]) == Success(NormalItems(y, n)[i])
    ensures ItemResults(y, View(y, n, parsed), Some(n), path)[i] == Success(NormalItems(y, n)[i])
  {
    var v := View(y, n, parsed);
    var e := View(y, n.items[i], ItemAt(parsed, i));
    assert v.items[i] == e;
    if HoldsUnchanged(e) {
      ViewElement(y, n, parsed, i);
    } else {
      NothingMasked(y, n.items[i], ItemAt(parsed, i), None, path + [Index(i)]);
    }
  }

  lemma RestorablePart(y: Yaml, n: Node, parsed: Option<Node>, i: nat)
    requires Shaped(y, n) && Restorable(y, n, parsed) && BareKeys(y, n)
    ensures n.Mapping? && i < |n.pairs| ==>
              Shaped(y, n.pairs[i].value) && Restorable(y, n.pairs[i].value, PairValue(parsed, i)) && BareKeys(y, n.pairs[i].value)
    ensures n.Sequence? && i < |n.items| ==>
              Shaped(y, n.items[i]) && Restorable(y, n.items[i], ItemAt(parsed, i)) && BareKeys(y, n.items[i])
  {
  }

  /** Merging an unedited view gives the stored tree back, as a save writes it. */
  lemma {:induction false} RoundTrip(y: Yaml, n: Node, parsed: Option<Node>, path: seq<Step>)
    requires Shaped(y, n) && Restorable(y, n, parsed) && BareKeys(y, n)
    ensures WholeBody(y, View(y, n, parsed)) && Merge(y, View(y, n, parsed), Some(n), path) == Success(Normal(y, n))
  {
    ViewWhole(y, n, parsed);
    var v := View(y, n, parsed);
    match n
    case Mapping(_, _, _, _, pairs) =>
      hide Shaped, Restorable, BareKeys, WholeBody, Normal, Merge, View, HoldsUnchanged, WithValues;
      ViewPairs(y, n, parsed);
      forall i | 0 <= i < |pairs|
        ensures PairResults(y, v, Some(n), path)[i] == Success(NormalValues(y, n)[i])
      {
        RestorablePart(y, n, parsed, i);
        RoundTrip(y, pairs[i].value, PairValue(parsed, i), path + [Key(pairs[i].key.value)]);
        PairRoundTrip(y, n, parsed, path, i);
      }
      MergePairs(y, v, Some(n), path, NormalValues(y, n));
      ViewNormal(y, n, parsed);
    case Sequence(_, flow, _, _, items) =>
      assert v == Sequence("", flow, false, false, v.items) && |v.items| == |items|;
      assert Normal(y, n) == Sequence("", flow, false, false, AllInFlow(y, flow, NormalItems(y, n)));
      hide Shaped, Restorable, BareKeys, WholeBody, Normal, Merge, View, HoldsUnchanged, AllInFlow;
      forall i | 0 <= i < |items|
        ensures ItemResults(y, v, Some(n), path)[i] == Success(NormalItems(y, n)[i])
      {
        RestorablePart(y, n, parsed, i);
        RoundTrip(y, items[i], ItemAt(parsed, i), path + [Index(i)]);
        ItemRoundTrip(y, n, parsed, path, i);
      }
      MergeItems(y, v, Some(n), path, NormalItems(y, n));
    case _ =>
  }

  /* ---------- An edited body ---------- */

  /** The node at a position, a child at a time. */
  function At(n: Node, ip: seq<nat>): Option<Node> {
    if ip == [] then Some(n)
    else
      match n
      case Mapping(_, _, _, _, pairs) => if ip[0] < |pairs| then At(pairs[ip[0]].value, ip[1..]) else None
      case Sequence(_, _, _, _, items) => if ip[0] < |items| then At(items[ip[0]], ip[1..]) else None
      case _ => None
  }

  /** A place that editing other entries does not move. */
  datatype Place = ByKey(key: string) | ById(id: string)

  /** The keys and ids on the way to a position of a body. */
  function Route(b: Node, ip: seq<nat>): Option<seq<Place>> {
    if ip == [] then Some([])
    else
      match b
      case Mapping(_, _, _, _, pairs) =>
        if ip[0] >= |pairs| || !pairs[ip[0]].key.Scalar? then None
        else
          var rest := Route(pairs[ip[0]].value, ip[1..]);
          if rest.None? then None else Some([ByKey(pairs[ip[0]].key.value)] + rest.value)
      case Sequence(_, _, _, _, items) =>
        if ip[0] >= |items| || EntryId(items[ip[0]]).None? then None
        else
          var rest := Route(items[ip[0]], ip[1..]);
          if rest.None? then None else Some([ById(EntryId(items[ip[0]]).value)] + rest.value)
      case _ => None
  }

  /** The stored node at a place, by keys and ids held once. */
  function Lookup(st: Option<Node>, route: seq<Place>): Option<Node>
    decreases |route|
  {
    if route == [] || st.None? then st
    else
      match route[0]
      case ByKey(key) => Lookup(MappingValue(st, key), route[1..])
      case ById(id) =>
        if st.value.Sequence? && |WithId(st.value.items, id)| == 1 then Lookup(Some(st.value.items[WithId(st.value.items, id)[0]]), route[1..])
        else None
  }

  /** A scalar as merged: its own tag, style and text, or ~ for an empty plain
      null in a flow collection. */
  predicate Spelt(y: Yaml, s: Node, m: Node) {
    s.Scalar? && (m == Scalar(s.tag, s.style, false, false, s.value) || m == InFlow(y, true, Scalar(s.tag, s.style, false, false, s.value)))
  }

  lemma InFlowAt(y: Yaml, flow: bool, v: Node, ip: seq<nat>)
    ensures ip != [] ==> At(InFlow(y, flow, v), ip) == At(v, ip)
    ensures InFlow(y, flow, v) == v || InFlow(y, flow, v) == InFlow(y, true, v)
    ensures v.Scalar? ==> InFlow(y, true, InFlow(y, flow, v)) == InFlow(y, true, v)
  {
  }

  lemma {:induction false} HoldsAt(b: Node, ip: seq<nat>)
    requires At(b, ip).Some? && IsUnchanged(At(b, ip).value)
    ensures HoldsUnchanged(b)
    decreases ip
  {
    if ip != [] {
      match b
      case Mapping(_, _, _, _, pairs) => HoldsAt(pairs[ip[0]].value, ip[1..]);
      case Sequence(_, _, _, _, items) => HoldsAt(items[ip[0]], ip[1..]);
    }
  }

  /** In any body the merge accepts, each unchanged scalar takes the stored
      scalar at the same keys and ids, so moving or deleting entries moves no
      secret; every other scalar is the body's own. */
  lemma {:induction false} MergedScalar(y: Yaml, b: Node, st: Option<Node>, path: seq<Step>, ip: seq<nat>)
    requires WholeBody(y, b) && Merge(y, b, st, path).Success? && At(b, ip).Some? && At(b, ip).value.Scalar?
    ensures Placed(y, b, st, Merge(y, b, st, path).value, ip)
    decreases ip, 1
  {
    if ip == [] {
      MergedHere(y, b, st, path);
    } else if b.Mapping? {
      MergedUnderKey(y, b, st, path, ip);
    } else {
      MergedUnderId(y, b, st, path, ip);
    }
  }

  /** What the theorem says of one position. */
  ghost predicate Placed(y: Yaml, b: Node, st: Option<Node>, m: Node, ip: seq<nat>)
    requires At(b, ip).Some?
  {
    var u, at := At(b, ip).value, At(m, ip);
    && at.Some?
    && (if IsUnchanged(u) then
          var route := Route(b, ip);
          route.Some? && Takes(Lookup(st, route.value)) && Spelt(y, Lookup(st, route.value).value, at.value)
        else Spelt(y, u, at.value))
  }

  lemma {:induction false} MergedUnderKey(y: Yaml, b: Node, st: Option<Node>, path: seq<Step>, ip: seq<nat>)
    requires WholeBody(y, b) && Merge(y, b, st, path).Success? && At(b, ip).Some? && At(b, ip).value.Scalar? && ip != [] && b.Mapping?
    ensures Placed(y, b, st, Merge(y, b, st, path).value, ip)
    decreases ip, 0
  {
    var i, rest := ip[0], ip[1..];
    WholePart(y, b, i);
    hide Merge, WholeBody, Holding, InFlow, Spelt, Route, Lookup;
    var key := b.pairs[i].key.value;
    var sub := MappingValue(st, key);
    MergedPair(y, b, st, path, i);
    MergedScalar(y, b.pairs[i].value, sub, path + [Key(key)], rest);
    var v := Merge(y, b.pairs[i].value, sub, path + [Key(key)]).value;
    InFlowAt(y, b.flow, v, rest);
    SpeltInFlow(y, b.flow, At(v, rest).value);
    assert At(Merge(y, b, st, path).value, ip) == At(InFlow(y, b.flow, v), rest);
    if IsUnchanged(At(b, ip).value) {
      RouteByKey(b, st, ip);
    }
  }

  lemma RouteByKey(b: Node, st: Option<Node>, ip: seq<nat>)
    requires b.Mapping? && ip != [] && ip[0] < |b.pairs| && b.pairs[ip[0]].key.Scalar? && Route(b.pairs[ip[0]].value, ip[1..]).Some?
    ensures Route(b, ip).Some?
    ensures Lookup(st, Route(b, ip).value) == Lookup(MappingValue(st, b.pairs[ip[0]].key.value), Route(b.pairs[ip[0]].value, ip[1..]).value)
  {
    hide Holding;
    var key, r := b.pairs[ip[0]].key.value, Route(b.pairs[ip[0]].value, ip[1..]).value;
    assert ([ByKey(key)] + r)[1..] == r;
  }

  lemma {:induction false} MergedUnderId(y: Yaml, b: Node, st: Option<Node>, path: seq<Step>, ip: seq<nat>)
    requires WholeBody(y, b) && Merge(y, b, st, path).Success? && At(b, ip).Some? && At(b, ip).value.Scalar? && ip != [] && b.Sequence?
    ensures Placed(y, b, st, Merge(y, b, st, path).value, ip)
    decreases ip, 0
  {
    var i, rest := ip[0], ip[1..];
    WholePart(y, b, i);
    hide Merge, WholeBody, HoldsUnchanged, WithId, EntryId, InFlow, Spelt, Route, Lookup, ElementFrom;
    MergedItem(y, b, st, path, i);
    var sub := ElementFrom(b.items[i], b.items, st).value;
    MergedScalar(y, b.items[i], sub, path + [Index(i)], rest);
    var v := Merge(y, b.items[i], sub, path + [Index(i)]).value;
    InFlowAt(y, b.flow, v, rest);
    SpeltInFlow(y, b.flow, At(v, rest).value);
    assert At(Merge(y, b, st, path).value, ip) == At(InFlow(y, b.flow, v), rest);
    if IsUnchanged(At(b, ip).value) {
      HoldsAt(b.items[i], rest);
      RouteById(b, st, ip);
    }
  }

  /** The way to a position under an element goes by the element's id, in the
      body and in the stored tree. */
  lemma RouteById(b: Node, st: Option<Node>, ip: seq<nat>)
    requires b.Sequence? && ip != [] && ip[0] < |b.items| && HoldsUnchanged(b.items[ip[0]])
    requires ElementFrom(b.items[ip[0]], b.items, st).Some? && Route(b.items[ip[0]], ip[1..]).Some?
    ensures Route(b, ip).Some?
    ensures Lookup(st, Route(b, ip).value) == Lookup(ElementFrom(b.items[ip[0]], b.items, st).value, Route(b.items[ip[0]], ip[1..]).value)
  {
    hide HoldsUnchanged, WithId, EntryId;
    var id, r := EntryId(b.items[ip[0]]).value, Route(b.items[ip[0]], ip[1..]).value;
    assert ([ById(id)] + r)[1..] == r;
  }

  lemma MergedHere(y: Yaml, b: Node, st: Option<Node>, path: seq<Step>)
    requires WholeBody(y, b) && b.Scalar? && Merge(y, b, st, path).Success?
    ensures IsUnchanged(b) ==> Takes(st) && Spelt(y, st.value, Merge(y, b, st, path).value)
    ensures !IsUnchanged(b) ==> Spelt(y, b, Merge(y, b, st, path).value)
  {
  }

  lemma WholePart(y: Yaml, b: Node, i: nat)
    requires WholeBody(y, b)
    ensures b.Mapping? && i < |b.pairs| ==> WholeBody(y, b.pairs[i].value) && b.pairs[i].key.Scalar?
    ensures b.Sequence? && i < |b.items| ==> WholeBody(y, b.items[i])
  {
  }

  lemma SpeltInFlow(y: Yaml, flow: bool, m: Node)
    ensures forall s :: Spelt(y, s, m) ==> Spelt(y, s, InFlow(y, flow, m))
  {
  }

  lemma MergedPair(y: Yaml, b: Node, st: Option<Node>, path: seq<Step>, i: nat)
    requires WholeBody(y, b) && b.Mapping? && i < |b.pairs| && Merge(y, b, st, path).Success?
    ensures var r := Merge(y, b.pairs[i].value, MappingValue(st, b.pairs[i].key.value), path + [Key(b.pairs[i].key.value)]);
            var m := Merge(y, b, st, path).value;
            r.Success? && m.Mapping? && |m.pairs| == |b.pairs| && m.pairs[i].value == InFlow(y, b.flow, r.value)
  {
    assert AllMerged(PairResults(y, b, st, path));
    assert PairResults(y, b, st, path)[i].Success?;
  }

  lemma MergedItem(y: Yaml, b: Node, st: Option<Node>, path: seq<Step>, i: nat)
    requires WholeBody(y, b) && b.Sequence? && i < |b.items| && Merge(y, b, st, path).Success?
    ensures ElementFrom(b.items[i], b.items, st).Some?
    ensures var r := Merge(y, b.items[i], ElementFrom(b.items[i], b.items, st).value, path + [Index(i)]);
            var m := Merge(y, b, st, path).value;
            r.Success? && m.Sequence? && |m.items| == |b.items| && m.items[i] == InFlow(y, b.flow, r.value)
  {
    assert AllMerged(ItemResults(y, b, st, path));
    assert ItemResults(y, b, st, path)[i].Success?;
  }

  /* ---------- Which bodies are accepted ---------- */

  /** The only pair with a key. */
  predicate OnlyPair(pairs: seq<Pair>, key: string, i: nat) {
    && i < |pairs| && pairs[i].key.Scalar? && pairs[i].key.value == key
    && forall j | 0 <= j < |pairs| && pairs[j].key.Scalar? && pairs[j].key.value == key :: j == i
  }

  /** A mapping whose only id entry is plain text. */
  predicate NamedBy(n: Node, id: string) {
    && n.Mapping? && id != ""
    && exists i :: 0 <= i < |n.pairs| && OnlyPair(n.pairs, "id", i)
                   && var v := n.pairs[i].value; v.Scalar? && v.tag != UNCHANGED_TAG && !v.explicit && v.value == id
  }

  /** The only element with an id. */
  predicate OnlyNamed(items: seq<Node>, id: string, i: nat) {
    i < |items| && NamedBy(items[i], id) && forall j | 0 <= j < |items| && NamedBy(items[j], id) :: j == i
  }

  lemma OnlyHeld(pairs: seq<Pair>, key: string)
    ensures KeyAt(pairs, key).Some? ==> OnlyPair(pairs, key, KeyAt(pairs, key).value)
    ensures forall i: nat | OnlyPair(pairs, key, i) :: KeyAt(pairs, key) == Some(i)
  {
    var at := Holding(pairs, key);
    forall i: nat | OnlyPair(pairs, key, i)
      ensures KeyAt(pairs, key) == Some(i)
    {
      assert i in at;
      if |at| > 1 {
        assert at[0] == i && at[1] == i;
        HoldingIncreasing(pairs, key);
      }
    }
    if |at| == 1 {
      forall j | 0 <= j < |pairs| && pairs[j].key.Scalar? && pairs[j].key.value == key
        ensures j == at[0]
      {
        assert j in at;
      }
    }
  }

  lemma {:induction false} HoldingIncreasing(pairs: seq<Pair>, key: string)
    ensures forall i, j | 0 <= i < j < |Holding(pairs, key)| :: Holding(pairs, key)[i] < Holding(pairs, key)[j]
  {
    if pairs != [] {
      HoldingIncreasing(pairs[..|pairs| - 1], key);
    }
  }

  lemma NamedId(n: Node, id: string)
    ensures NamedBy(n, id) <==> EntryId(n) == Some(id)
  {
    if n.Mapping? {
      OnlyHeld(n.pairs, "id");
    }
  }

  lemma OnlyWithId(items: seq<Node>, id: string)
    ensures |WithId(items, id)| == 1 ==> OnlyNamed(items, id, WithId(items, id)[0])
    ensures forall i: nat | OnlyNamed(items, id, i) :: WithId(items, id) == [i]
  {
    hide NamedBy, EntryId;
    forall n
      ensures NamedBy(n, id) <==> EntryId(n) == Some(id)
    {
      NamedId(n, id);
    }
    var at := WithId(items, id);
    forall i: nat | OnlyNamed(items, id, i)
      ensures at == [i]
    {
      assert i in at;
      WithIdOnly(items, id, i);
    }
    if |at| == 1 {
      forall j | 0 <= j < |items| && NamedBy(items[j], id)
        ensures j == at[0]
      {
        assert j in at;
      }
    }
  }

  /** The stored value of a key, held once. */
  ghost function StoredValue(st: Option<Node>, key: string): Option<Node> {
    if st.Some? && st.value.Mapping? && exists i: nat :: OnlyPair(st.value.pairs, key, i)
    then var i: nat :| OnlyPair(st.value.pairs, key, i); Some(st.value.pairs[i].value)
    else None
  }

  /** The stored element with the id that only the i-th of a body's elements
      has, provided only one stored has it. */
  ghost function StoredElement(items: seq<Node>, i: nat, st: Option<Node>): Option<Node> {
    if st.Some? && st.value.Sequence? && exists id, j: nat :: OnlyNamed(items, id, i) && OnlyNamed(st.value.items, id, j)
    then var id, j: nat :| OnlyNamed(items, id, i) && OnlyNamed(st.value.items, id, j); Some(st.value.items[j])
    else None
  }

  lemma StoredValueIs(st: Option<Node>, key: string)
    ensures StoredValue(st, key) == MappingValue(st, key)
  {
    if st.Some? && st.value.Mapping? {
      OnlyHeld(st.value.pairs, key);
    }
  }

  lemma StoredElementIs(items: seq<Node>, i: nat, st: Option<Node>)
    requires i < |items|
    ensures StoredElement(items, i, st) == ElementById(items[i], items, st)
  {
    hide NamedBy;
    var e := items[i];
    if st.Some? && st.value.Sequence? {
      if ElementById(e, items, st).Some? {
        var id := EntryId(e).value;
        NamedId(e, id);
        OnlyWithId(items, id);
        OnlyWithId(st.value.items, id);
        assert i in WithId(items, id);
        assert OnlyNamed(items, id, i) && OnlyNamed(st.value.items, id, WithId(st.value.items, id)[0]);
      }
      forall id, j: nat | OnlyNamed(items, id, i) && OnlyNamed(st.value.items, id, j)
        ensures ElementById(e, items, st) == Some(st.value.items[j])
      {
        NamedId(e, id);
        OnlyWithId(items, id);
        OnlyWithId(st.value.items, id);
      }
    }
  }

  /** The stored counterpart of a position of a body, by the keys and ids on the
      way; refused where an element on it has none. */
  ghost function Leads(b: Node, st: Option<Node>, ip: seq<nat>): Option<Option<Node>>
    decreases b
  {
    if ip == [] then Some(st)
    else
      match b
      case Mapping(_, _, _, _, pairs) =>
        if ip[0] < |pairs| && pairs[ip[0]].key.Scalar? then Leads(pairs[ip[0]].value, StoredValue(st, pairs[ip[0]].key.value), ip[1..]) else None
      case Sequence(_, _, _, _, items) =>
        if ip[0] < |items| && StoredElement(items, ip[0], st).Some? then Leads(items[ip[0]], StoredElement(items, ip[0], st), ip[1..]) else None
      case _ => None
  }

  /** The body leaves the scalar at a position unchanged, or a key of the
      mapping there. */
  predicate LeavesValue(b: Node, ip: seq<nat>) {
    At(b, ip).Some? && IsUnchanged(At(b, ip).value)
  }

  predicate LeavesKey(b: Node, ip: seq<nat>) {
    At(b, ip).Some? && At(b, ip).value.Mapping? && exists i :: 0 <= i < |At(b, ip).value.pairs| && IsUnchanged(At(b, ip).value.pairs[i].key)
  }

  /** What a body leaves at a position has a stored counterpart: for a scalar,
      one with no anchor and no tag of its own. */
  ghost predicate FilledAt(b: Node, st: Option<Node>, ip: seq<nat>) {
    && (LeavesValue(b, ip) ==> Leads(b, st, ip).Some? && Leads(b, st, ip).value.Some?
                               && var n := Leads(b, st, ip).value.value; n.Scalar? && !n.anchored && !n.explicit)
    && (LeavesKey(b, ip) ==> Leads(b, st, ip).Some?)
  }

  ghost predicate Filled(b: Node, st: Option<Node>) {
    forall ip :: FilledAt(b, st, ip)
  }

  lemma FilledPair(b: Node, st: Option<Node>, i: nat, ip: seq<nat>)
    requires b.Mapping? && i < |b.pairs| && b.pairs[i].key.Scalar?
    ensures FilledAt(b, st, [i] + ip) <==> FilledAt(b.pairs[i].value, StoredValue(st, b.pairs[i].key.value), ip)
  {
    assert ([i] + ip)[1..] == ip;
  }

  lemma FilledElement(b: Node, st: Option<Node>, i: nat, ip: seq<nat>)
    requires b.Sequence? && i < |b.items|
    ensures StoredElement(b.items, i, st).Some? ==> (FilledAt(b, st, [i] + ip) <==> FilledAt(b.items[i], StoredElement(b.items, i, st), ip))
    ensures StoredElement(b.items, i, st).None? ==> (FilledAt(b, st, [i] + ip) <==> !LeavesValue(b.items[i], ip) && !LeavesKey(b.items[i], ip))
  {
    assert ([i] + ip)[1..] == ip;
    hide StoredElement;
  }

  /** Something is left exactly when some position leaves it. */
  lemma {:induction false} LeavesSome(y: Yaml, n: Node) returns (ip: seq<nat>)
    requires WholeBody(y, n)
    ensures HoldsUnchanged(n) ==> LeavesValue(n, ip) || LeavesKey(n, ip)
    decreases n
  {
    ip := [];
    match n
    case Mapping(_, _, _, _, pairs) =>
      if i: nat :| i < |pairs| && HoldsUnchanged(pairs[i].value) {
        var rest := LeavesSome(y, pairs[i].value);
        ip := [i] + rest;
        assert ip[1..] == rest;
      }
    case Sequence(_, _, _, _, items) =>
      if i: nat :| i < |items| && HoldsUnchanged(items[i]) {
        var rest := LeavesSome(y, items[i]);
        ip := [i] + rest;
        assert ip[1..] == rest;
      }
    case _ =>
  }

  lemma {:induction false} LeavesHolds(n: Node, ip: seq<nat>)
    requires LeavesValue(n, ip) || LeavesKey(n, ip)
    ensures HoldsUnchanged(n)
    decreases n
  {
    if ip != [] {
      match n
      case Mapping(_, _, _, _, pairs) => LeavesHolds(pairs[ip[0]].value, ip[1..]);
      case Sequence(_, _, _, _, items) => LeavesHolds(items[ip[0]], ip[1..]);
    }
  }

  lemma FilledMapping(b: Node, st: Option<Node>)
    requires b.Mapping? && forall i | 0 <= i < |b.pairs| :: b.pairs[i].key.Scalar?
    ensures Filled(b, st) <==> forall i | 0 <= i < |b.pairs| :: Filled(b.pairs[i].value, StoredValue(st, b.pairs[i].key.value))
  {
    hide FilledAt, StoredValue;
    if Filled(b, st) {
      forall i, ip | 0 <= i < |b.pairs|
        ensures FilledAt(b.pairs[i].value, StoredValue(st, b.pairs[i].key.value), ip)
      {
        assert FilledAt(b, st, [i] + ip);
        FilledPair(b, st, i, ip);
      }
    }
    if forall i | 0 <= i < |b.pairs| :: Filled(b.pairs[i].value, StoredValue(st, b.pairs[i].key.value)) {
      forall ip
        ensures FilledAt(b, st, ip)
      {
        FilledHere(b, st, ip);
        if ip != [] && ip[0] < |b.pairs| {
          assert [ip[0]] + ip[1..] == ip;
          FilledPair(b, st, ip[0], ip[1..]);
          assert FilledAt(b.pairs[ip[0]].value, StoredValue(st, b.pairs[ip[0]].key.value), ip[1..]);
        }
      }
    }
  }

  lemma FilledHere(b: Node, st: Option<Node>, ip: seq<nat>)
    requires b.Mapping? || b.Sequence?
    ensures ip == [] || (b.Mapping? && ip[0] >= |b.pairs|) || (b.Sequence? && ip[0] >= |b.items|) ==> FilledAt(b, st, ip)
  {
  }

  /** An element is filled from the one stored with its id, or leaves nothing. */
  ghost predicate FilledItem(b: Node, st: Option<Node>, i: nat)
    requires b.Sequence? && i < |b.items|
  {
    if StoredElement(b.items, i, st).Some? then Filled(b.items[i], StoredElement(b.items, i, st)) else !HoldsUnchanged(b.items[i])
  }

  lemma FilledItemIs(y: Yaml, b: Node, st: Option<Node>, i: nat)
    requires WholeBody(y, b) && b.Sequence? && i < |b.items|
    ensures FilledItem(b, st, i) <==> forall ip :: FilledAt(b, st, [i] + ip)
  {
    forall ip
      ensures StoredElement(b.items, i, st).Some? ==> (FilledAt(b, st, [i] + ip) <==> FilledAt(b.items[i], StoredElement(b.items, i, st), ip))
      ensures StoredElement(b.items, i, st).None? ==> (FilledAt(b, st, [i] + ip) <==> !LeavesValue(b.items[i], ip) && !LeavesKey(b.items[i], ip))
    {
      FilledElement(b, st, i, ip);
    }
    hide FilledAt, StoredElement, LeavesValue, LeavesKey, HoldsUnchanged;
    if StoredElement(b.items, i, st).None? {
      var ip := LeavesSome(y, b.items[i]);
      assert FilledAt(b, st, [i] + ip) <==> !LeavesValue(b.items[i], ip) && !LeavesKey(b.items[i], ip);
      forall at | LeavesValue(b.items[i], at) || LeavesKey(b.items[i], at)
        ensures HoldsUnchanged(b.items[i])
      {
        LeavesHolds(b.items[i], at);
      }
    }
  }

  lemma FilledSequence(y: Yaml, b: Node, st: Option<Node>)
    requires WholeBody(y, b) && b.Sequence?
    ensures Filled(b, st) <==> forall i: nat | i < |b.items| :: FilledItem(b, st, i)
  {
    hide FilledAt, FilledItem;
    forall i: nat | i < |b.items|
      ensures FilledItem(b, st, i) <==> forall ip :: FilledAt(b, st, [i] + ip)
    {
      FilledItemIs(y, b, st, i);
    }
    if forall i: nat | i < |b.items| :: FilledItem(b, st, i) {
      forall ip
        ensures FilledAt(b, st, ip)
      {
        FilledHere(b, st, ip);
        if ip != [] && ip[0] < |b.items| {
          assert [ip[0]] + ip[1..] == ip;
        }
      }
    }
  }

  lemma FilledScalar(b: Node, st: Option<Node>)
    requires b.Scalar?
    ensures Filled(b, st) <==> !IsUnchanged(b) || Takes(st)
  {
    assert FilledAt(b, st, []) <==> !IsUnchanged(b) || Takes(st);
    forall ip | ip != []
      ensures FilledAt(b, st, ip)
    {
    }
    hide FilledAt;
  }

  lemma FilledNone(n: Node, st: Option<Node>)
    requires !HoldsUnchanged(n)
    ensures Filled(n, st)
  {
    hide LeavesValue, LeavesKey, Leads;
    forall ip
      ensures FilledAt(n, st, ip)
    {
      if LeavesValue(n, ip) || LeavesKey(n, ip) {
        LeavesHolds(n, ip);
      }
    }
  }

  lemma ItemAccepted(y: Yaml, b: Node, st: Option<Node>, path: seq<Step>, i: nat)
    requires WholeBody(y, b) && b.Sequence? && i < |b.items| && WholeBody(y, b.items[i])
    requires var from := ElementFrom(b.items[i], b.items, st);
             from.Some? ==> (Merge(y, b.items[i], from.value, path + [Index(i)]).Success? <==> Filled(b.items[i], from.value))
    ensures ItemResults(y, b, st, path)[i].Success? <==> FilledItem(b, st, i)
  {
    hide Merge, Filled, StoredElement, HoldsUnchanged, ElementById, WholeBody;
    StoredElementIs(b.items, i, st);
    if !HoldsUnchanged(b.items[i]) {
      FilledNone(b.items[i], None);
      FilledNone(b.items[i], StoredElement(b.items, i, st));
    }
  }

  lemma PairAccepted(y: Yaml, b: Node, st: Option<Node>, path: seq<Step>, i: nat)
    requires WholeBody(y, b) && b.Mapping? && i < |b.pairs| && b.pairs[i].key.Scalar? && WholeBody(y, b.pairs[i].value)
    requires Merge(y, b.pairs[i].value, MappingValue(st, b.pairs[i].key.value), path + [Key(b.pairs[i].key.value)]).Success?
        <==> Filled(b.pairs[i].value, MappingValue(st, b.pairs[i].key.value))
    ensures PairResults(y, b, st, path)[i].Success? <==> Filled(b.pairs[i].value, StoredValue(st, b.pairs[i].key.value))
  {
    hide Merge, Filled, StoredValue, MappingValue, WholeBody;
    StoredValueIs(st, b.pairs[i].key.value);
  }

  /** A body is accepted exactly when whatever it leaves unchanged has a stored
      counterpart: every key on the way to it held once, every list element on
      the way named by an id that one stored element alone has, and nothing in
      the body beside it. */
  lemma {:induction false} MergeAccepts(y: Yaml, b: Node, st: Option<Node>, path: seq<Step>)
    requires WholeBody(y, b)
    ensures Merge(y, b, st, path).Success? <==> Filled(b, st)
    decreases b
  {
    match b
    case Scalar(_, _, _, _, _) => FilledScalar(b, st);
    case Mapping(_, _, _, _, pairs) =>
      forall i: nat | i < |pairs|
        ensures PairResults(y, b, st, path)[i].Success? <==> Filled(pairs[i].value, StoredValue(st, pairs[i].key.value))
      {
        WholePart(y, b, i);
        MergeAccepts(y, pairs[i].value, MappingValue(st, pairs[i].key.value), path + [Key(pairs[i].key.value)]);
        PairAccepted(y, b, st, path, i);
      }
      FilledMapping(b, st);
      MergeOfPairs(y, b, st, path);
    case Sequence(_, _, _, _, items) =>
      forall i: nat | i < |items|
        ensures ItemResults(y, b, st, path)[i].Success? <==> FilledItem(b, st, i)
      {
        WholePart(y, b, i);
        var from := ElementFrom(items[i], items, st);
        if from.Some? {
          MergeAccepts(y, items[i], from.value, path + [Index(i)]);
        }
        ItemAccepted(y, b, st, path, i);
      }
      FilledSequence(y, b, st);
      MergeOfItems(y, b, st, path);
  }

  lemma MergeOfPairs(y: Yaml, b: Node, st: Option<Node>, path: seq<Step>)
    requires WholeBody(y, b) && b.Mapping?
    ensures Merge(y, b, st, path).Success? <==> AllMerged(PairResults(y, b, st, path))
  {
    match b
    case Mapping(_, _, _, _, _) =>
  }

  lemma MergeOfItems(y: Yaml, b: Node, st: Option<Node>, path: seq<Step>)
    requires WholeBody(y, b) && b.Sequence?
    ensures Merge(y, b, st, path).Success? <==> AllMerged(ItemResults(y, b, st, path))
  {
    match b
    case Sequence(_, _, _, _, _) =>
  }
}
