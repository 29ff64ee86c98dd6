/** The keys of the source tables, and the order a scan of them takes. */
module RefKeys {
  import opened Media
  import opened Tables
  import opened Bytes

  function KindByte(k: Kind): nat {
    match k case Episode => 1 case Movie => 2
  }

  function NativeRefKey(r: NativeRef): Bytes {
    [KindByte(r.kind)] + Text(r.id)
  }

  function RootRefKey(rr: RootRef): Bytes {
    Text(rr.source) + NativeRefKey(rr.root)
  }

  function ItemRefKey(ref: ItemRef): Bytes {
    RootRefKey(ref.root) + Text(ref.item)
  }

  lemma NativeRefSplit(a: NativeRef, b: NativeRef, x: Bytes, y: Bytes)
    requires NativeRefKey(a) + x == NativeRefKey(b) + y
    ensures a == b && x == y
  {
    assert (NativeRefKey(a) + x)[0] == KindByte(a.kind) && (NativeRefKey(b) + y)[0] == KindByte(b.kind);
    assert (NativeRefKey(a) + x)[1..] == Text(a.id) + x && (NativeRefKey(b) + y)[1..] == Text(b.id) + y;
    TextSplit(a.id, b.id, x, y);
  }

  lemma RootRefSplit(a: RootRef, b: RootRef, x: Bytes, y: Bytes)
    requires RootRefKey(a) + x == RootRefKey(b) + y
    ensures a == b && x == y
  {
    assert RootRefKey(a) + x == Text(a.source) + (NativeRefKey(a.root) + x);
    assert RootRefKey(b) + y == Text(b.source) + (NativeRefKey(b.root) + y);
    TextSplit(a.source, b.source, NativeRefKey(a.root) + x, NativeRefKey(b.root) + y);
    NativeRefSplit(a.root, b.root, x, y);
  }

  lemma ItemRefInjective(a: ItemRef, b: ItemRef)
    requires ItemRefKey(a) == ItemRefKey(b)
    ensures a == b
  {
    RootRefSplit(a.root, b.root, Text(a.item), Text(b.item));
    assert Text(a.item) + [] == Text(b.item) + [];
    TextSplit(a.item, b.item, [], []);
  }

  /** A scan under one source's prefix reaches exactly that source's rows. */
  lemma SourceScope(src: SourceId, ref: ItemRef)
    ensures Text(src) <= ItemRefKey(ref) <==> ref.root.source == src
  {
    var rest := NativeRefKey(ref.root.root) + Text(ref.item);
    assert ItemRefKey(ref) == Text(ref.root.source) + rest;
    if Text(src) <= ItemRefKey(ref) {
      TextSplit(src, ref.root.source, ItemRefKey(ref)[|Text(src)|..], rest);
    }
  }

  /** A scan under one root's prefix reaches exactly that root's rows. */
  lemma RootScope(rr: RootRef, ref: ItemRef)
    ensures RootRefKey(rr) <= ItemRefKey(ref) <==> ref.root == rr
  {
    if RootRefKey(rr) <= ItemRefKey(ref) {
      RootRefSplit(rr, ref.root, ItemRefKey(ref)[|RootRefKey(rr)|..], Text(ref.item));
    }
  }

  /** The order a scan of the sightings takes. */
  predicate Before(a: ItemRef, b: ItemRef) {
    Less(ItemRefKey(a), ItemRefKey(b))
  }

  lemma BeforeTotal(a: ItemRef, b: ItemRef)
    ensures a == b || Before(a, b) || Before(b, a)
    ensures !(Before(a, b) && Before(b, a))
  {
    LessTotal(ItemRefKey(a), ItemRefKey(b));
    if ItemRefKey(a) == ItemRefKey(b) {
      ItemRefInjective(a, b);
    }
  }

  ghost predicate IsFirst(refs: set<ItemRef>, r: ItemRef) {
    r in refs && forall x | x in refs :: x == r || Before(r, x)
  }

  lemma FirstUnique(refs: set<ItemRef>, r: ItemRef, t: ItemRef)
    requires IsFirst(refs, r) && IsFirst(refs, t)
    ensures r == t
  {
    BeforeTotal(r, t);
  }

  lemma {:induction false} FirstExists(refs: set<ItemRef>) returns (r: ItemRef)
    requires refs != {}
    ensures IsFirst(refs, r)
    decreases |refs|
  {
    hide ItemRefKey, Less;
    var any :| any in refs;
    var rest := refs - {any};
    if rest == {} {
      assert refs == {any};
      r := any;
    } else {
      var t := FirstExists(rest);
      BeforeTotal(any, t);
      r := if Before(t, any) then t else any;
      forall x | x in refs
        ensures x == r || Before(r, x)
      {
        if x != any && x != t {
          assert x in rest && Before(t, x);
          if r == any {
            LessTransitive(ItemRefKey(any), ItemRefKey(t), ItemRefKey(x));
          }
        }
      }
    }
  }

  /** A set of keys in the order a scan meets them. */
  ghost function Sorted(refs: set<ItemRef>): (s: seq<ItemRef>)
    ensures forall r :: r in s <==> r in refs
    decreases |refs|
  {
    if refs == {} then []
    else
      assert exists r :: IsFirst(refs, r) by { var r := FirstExists(refs); }
      var r :| IsFirst(refs, r);
      [r] + Sorted(refs - {r})
  }

  /** The next row of a scan of the sightings. */
  method NextOf(refs: set<ItemRef>) returns (r: ItemRef)
    requires refs != {}
    ensures IsFirst(refs, r)
  {
    assert exists x :: IsFirst(refs, x) by { var x := FirstExists(refs); }
    r :| r in refs && forall x | x in refs :: x == r || Before(r, x);
  }

  lemma FirstIn(refs: set<ItemRef>, r: ItemRef)
    requires IsFirst(refs, r)
    ensures r in refs
  {
  }
}
