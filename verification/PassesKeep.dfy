/** Closing a pass retires exactly what it did not see, and keeps the invariant. */
module PassesKeep {
  import opened Wrappers
  import opened Tables
  import opened Claims
  import opened AttachKeep
  import opened ClaimsKeep
  import opened Settlement
  import opened SettlementKeeps
  import opened Passes
  import opened ObserveKeeps

  /* ---------- Retiring a sighting ---------- */

  lemma ReleaseSettles(o: Obs, ref: ItemRef)
    requires Links(o) && ref in o.db.sightings && Release(o, ref, o.db.sightings[ref]).Success?
    ensures Settled(Release(o, ref, o.db.sightings[ref]).value, ref, None, "")
  {
    hide Release, Links;
    var p := o.db.sightings[ref].item.path + "/";
    assert |p| != |o.db.sightings[ref].item.path|;
    GiveUpSettles(o, ref, None, p);
  }

  /** ref's sighting goes once nothing live rests on it. */
  function Forget(o: Obs, ref: ItemRef): Obs {
    o.(db := o.db.(sightings := o.db.sightings - {ref}))
  }

  lemma ForgetNamed(o: Obs, ref: ItemRef)
    requires Named(o.db.items, o.db.instances, o.db.sightings, o.released) && Settled(o, ref, None, "")
    ensures Named(o.db.items, o.db.instances, o.db.sightings - {ref}, o.released)
  {
  }

  lemma ForgetCurrent(o: Obs, a: Activation, ref: ItemRef)
    requires Current(o.db, a, o.touched) && Settled(o, ref, None, "") && o.released <= o.touched
    ensures Current(Forget(o, ref).db, a, o.touched)
  {
    hide Settled;
    var after := Forget(o, ref).db;
    forall x | x in after.items && Live(after.instances, after.items[x]) && x !in o.touched
      ensures Fresh(after, a, x)
    {
      OtherRef(o, ref, None, "", x);
      assert Fresh(o.db, a, x);
      FreshFrame(o.db, after, a, x);
    }
  }

  lemma ForgetTidy(o: Obs, a: Activation, ref: ItemRef)
    requires Tidy(o, a) && Settled(o, ref, None, "") && ref !in o.db.overlaps
    ensures Tidy(Forget(o, ref), a)
  {
    hide Settled, Linked, Owning, WellFormed, Named, Current, Sourced, Held, Staging, NoStray;
    ForgetNamed(o, ref);
    ForgetCurrent(o, a, ref);
  }

  /** Tidiness does not look at stamps, roots' facts or marks. */
  lemma TidyOn(o: Obs, o1: Obs, a: Activation)
    requires Tidy(o, a)
    requires o1.src == o.src && o1.pass == o.pass && o1.released == o.released && o1.emptied == o.emptied && o1.touched == o.touched
    requires o1.db.roots.Keys <= o.db.roots.Keys
    requires o1.db == o.db.(stamps := o1.db.stamps, roots := o1.db.roots)
    ensures Tidy(o1, a)
  {
    hide Links, Overlapping, Held, Staging, NoStray, Current;
    LinksOn(o, o1);
    CurrentOn(o.db, o1.db, a, o.touched);
  }

  lemma RetireOneTidy(o: Obs, a: Activation, ref: ItemRef)
    requires Tidy(o, a) && RetireOne(o, ref).Success?
    ensures Tidy(RetireOne(o, ref).value, a)
  {
    hide Tidy, Release, Settled;
    var o1 := o.(db := o.db.(stamps := o.db.stamps - {ref}));
    TidyOn(o, o1, a);
    if ref.item == "" {
      TidyOn(o1, o1.(db := o1.db.(roots := o1.db.roots - {ref.root})), a);
    } else if ref in o1.db.sightings {
      var was := o1.db.sightings[ref];
      var o2 := Release(o1, ref, was).value;
      TidyLinks(o1, a);
      ReleaseKeeps(o1, a, ref, was);
      ReleaseSettles(o1, ref);
      ReleaseFrame(o1, ref, was);
      ForgetTidy(o2, a, ref);
      var o3 := Forget(o2, ref);
      TidyOn(o3, o3.(unidentified := o2.unidentified || was.key.None?), a);
    }
  }

  lemma TidyLinks(o: Obs, a: Activation)
    requires Tidy(o, a)
    ensures Links(o)
  {
  }

  /* ---------- Retiring a scope ---------- */

  /** What retiring refs leaves: every other sighting, stamp and root. */
  ghost predicate Retired(before: Db, after: Db, refs: seq<ItemRef>) {
    && after.stamps == before.stamps - (set r | r in refs)
    && after.roots == before.roots - (set r | r in refs && r.item == "" :: r.root)
    && after.sightings == before.sightings - (set r | r in refs && r.item != "")
  }

  lemma RetireOneTables(o: Obs, ref: ItemRef)
    requires RetireOne(o, ref).Success?
    ensures var o1 := RetireOne(o, ref).value;
            && Grown(o, o1) && o1.db.stored == o.db.stored && o1.db.passes == o.db.passes && o1.db.lastPass == o.db.lastPass
            && o1.db.stamps == o.db.stamps - {ref}
            && o1.db.roots == (if ref.item == "" then o.db.roots - {ref.root} else o.db.roots)
            && o1.db.sightings == (if ref.item != "" then o.db.sightings - {ref} else o.db.sightings)
  {
    hide Release;
    var o1 := o.(db := o.db.(stamps := o.db.stamps - {ref}));
    if ref.item != "" && ref in o1.db.sightings {
      ReleaseFrame(o1, ref, o1.db.sightings[ref]);
    }
  }

  lemma RetiredStep(before: Db, mid: Db, after: Db, refs: seq<ItemRef>, ref: ItemRef)
    requires Retired(before, mid, refs)
    requires after.stamps == mid.stamps - {ref}
    requires after.roots == if ref.item == "" then mid.roots - {ref.root} else mid.roots
    requires after.sightings == if ref.item != "" then mid.sightings - {ref} else mid.sightings
    ensures Retired(before, after, refs + [ref])
  {
    var all := refs + [ref];
    assert (set r | r in all) == (set r | r in refs) + {ref};
    assert (set r | r in all && r.item == "" :: r.root) == (set r | r in refs && r.item == "" :: r.root) + (if ref.item == "" then {ref.root} else {});
    assert (set r | r in all && r.item != "") == (set r | r in refs && r.item != "") + (if ref.item != "" then {ref} else {});
  }

  lemma {:induction false} RetireAllTidy(o: Obs, a: Activation, refs: seq<ItemRef>)
    requires Tidy(o, a) && RetireAll(o, refs).Success?
    ensures var o1 := RetireAll(o, refs).value;
            && Tidy(o1, a) && Grown(o, o1) && Retired(o.db, o1.db, refs)
            && o1.db.stored == o.db.stored && o1.db.passes == o.db.passes && o1.db.lastPass == o.db.lastPass
  {
    hide Tidy, RetireOne;
    if refs == [] {
      assert Retired(o.db, o.db, refs);
    } else {
      var last := refs[|refs| - 1];
      RetireAllTidy(o, a, refs[..|refs| - 1]);
      var mid := RetireAll(o, refs[..|refs| - 1]).value;
      RetireOneTidy(mid, a, last);
      RetireOneTables(mid, last);
      RetiredStep(o.db, mid.db, RetireOne(mid, last).value.db, refs[..|refs| - 1], last);
      assert refs[..|refs| - 1] + [last] == refs;
    }
  }

  predicate InScope(p: PassRow, ref: ItemRef) {
    p.roots.Some? ==> ref.root.root in p.roots.value
  }

  lemma {:induction false} StaleUnderIs(o: Obs, kept: set<NativeRef>, roots: seq<NativeRef>, ref: ItemRef)
    ensures ref in StaleUnder(o, kept, roots) <==> Stale(o, kept, ref) && ref.root.root in roots
  {
    if roots != [] {
      StaleUnderIs(o, kept, roots[..|roots| - 1], ref);
      assert roots == roots[..|roots| - 1] + [roots[|roots| - 1]];
    }
  }

  lemma StaleRefsIs(o: Obs, kept: set<NativeRef>, p: PassRow, ref: ItemRef)
    ensures ref in StaleRefs(o, kept, p) <==> Stale(o, kept, ref) && InScope(p, ref)
  {
    if p.roots.Some? {
      StaleUnderIs(o, kept, p.roots.value, ref);
    }
  }

  /** A root is retired only with everything under it. */
  lemma RetiredStamped(o: Obs, after: Db, kept: set<NativeRef>, p: PassRow)
    requires Stamped(o.db.sightings, o.db.stamps, o.db.roots, o.db.passes, o.db.lastPass)
    requires forall ref | ref in o.db.stamps && ref.root.source == o.src :: o.db.stamps[ref] <= o.pass
    requires Retired(o.db, after, StaleRefs(o, kept, p))
    requires after.passes == o.db.passes && after.lastPass == o.db.lastPass
    ensures Stamped(after.sightings, after.stamps, after.roots, after.passes, after.lastPass)
  {
    var refs := StaleRefs(o, kept, p);
    forall ref | ref in after.stamps
      ensures ref.root in after.roots && ItemRef(ref.root, "") in after.stamps
    {
      StaleRefsIs(o, kept, p, ref);
      StaleRefsIs(o, kept, p, ItemRef(ref.root, ""));
      assert ref.root in o.db.roots;
    }
    forall ref | ref in after.sightings
      ensures ref in after.stamps
    {
      assert ref in o.db.stamps && ref.item != "";
    }
    forall rr | rr in after.roots
      ensures ItemRef(rr, "") in after.stamps
    {
      assert ItemRef(rr, "").root == rr;
      assert ItemRef(rr, "") in o.db.stamps;
    }
  }

  /* ---------- Expiring ---------- */

  lemma ExpireLinks(db: Db, ids: set<InstId>)
    requires Linked(db.items, db.instances) && Owning(db.items, db.instances) && WellFormed(db.instances, db.lastInst)
    requires forall id | id in ids && id in db.instances :: db.instances[id].owner.None?
    ensures var items := UnlinkedFrom(db, ids);
            Linked(items, db.instances - ids) && Owning(items, db.instances - ids) && WellFormed(db.instances - ids, db.lastInst)
  {
    var items := UnlinkedFrom(db, ids);
    forall k | k in items && items[k].inst != 0
      ensures items[k].inst in db.instances - ids && k in (db.instances - ids)[items[k].inst].items
    {
      LinkedKey(db.items, db.instances, k);
    }
  }

  lemma ExpireNamed(o: Obs, ids: set<InstId>)
    requires Linked(o.db.items, o.db.instances) && Named(o.db.items, o.db.instances, o.db.sightings, o.released)
    ensures Named(UnlinkedFrom(o.db, ids), o.db.instances - ids, o.db.sightings, o.released + KeysHeld(o.db, ids))
  {
    var items := UnlinkedFrom(o.db, ids);
    var instances := o.db.instances - ids;
    forall k | k in items && Live(instances, items[k])
      ensures NamesClaim(o.db.sightings, instances, k, items[k]) || (items[k].inst == 0 && k in o.released + KeysHeld(o.db, ids))
    {
      LinkedKey(o.db.items, o.db.instances, k);
    }
  }

  lemma ExpireKept(db: Db, ids: set<InstId>)
    requires Kept(db.items, db.sightings) && NoStray(db.coverage, db.items)
    ensures Kept(UnlinkedFrom(db, ids), db.sightings) && NoStray(db.coverage, UnlinkedFrom(db, ids))
  {
  }

  lemma ExpireStaging(instances: map<InstId, Instance>, intents: map<FileKey, Intent>, ids: set<InstId>)
    requires Staging(instances, intents) && forall id | id in ids :: !Pinned(intents, id)
    ensures Staging(instances - ids, intents)
  {
  }

  lemma ExpireSourced(db: Db, ids: set<InstId>)
    requires Sourced(db.stored.sources, db.roots, db.passes, db.instances)
    ensures Sourced(db.stored.sources, db.roots, db.passes, db.instances - ids)
  {
  }

  lemma ExpireCurrent(o: Obs, a: Activation, ids: set<InstId>)
    requires Linked(o.db.items, o.db.instances) && Current(o.db, a, o.touched)
    ensures Current(ExpireAll(o, ids).db, a, ExpireAll(o, ids).touched)
  {
    var o1 := ExpireAll(o, ids);
    forall k | k in o1.db.items && Live(o1.db.instances, o1.db.items[k]) && k !in o1.touched
      ensures Fresh(o1.db, a, k)
    {
      LinkedKey(o.db.items, o.db.instances, k);
      assert !HeldBy(o.db, ids, k);
      if o.db.items[k].inst != 0 {
        ExpireEvidence(o, a, ids, o.db.items[k].inst);
      }
      FreshSighting(o.db, a, k);
      FreshFrame(o.db, o1.db, a, k);
    }
  }

  lemma ExpireEvidence(o: Obs, a: Activation, ids: set<InstId>, id: InstId)
    requires id !in ids
    ensures EvidenceOf(ExpireAll(o, ids).db, a.codecs, id) == EvidenceOf(o.db, a.codecs, id)
  {
    DropEvidence(o.db, ids, a.codecs, id);
  }

  lemma ExpireTidy(o: Obs, a: Activation, ids: set<InstId>)
    requires Tidy(o, a)
    requires forall id | id in ids :: !Pinned(o.db.intents, id) && (id in o.db.instances ==> o.db.instances[id].owner.None?)
    ensures Tidy(ExpireAll(o, ids), a)
  {
    hide Linked, Owning, WellFormed, Named, Kept, NoStray, Staging, Held, Sourced, Overlapping, Current;
    hide UnlinkedFrom, KeysHeld, ItemRoots, RowsWithout;
    ExpireLinks(o.db, ids);
    ExpireNamed(o, ids);
    ExpireKept(o.db, ids);
    ExpireStaging(o.db.instances, o.db.intents, ids);
    ExpireSourced(o.db, ids);
    ExpireCurrent(o, a, ids);
    DropHeldMany(o.db, ids);
  }

  /* ---------- Closing a pass ---------- */

  lemma ClosedTidy(db: Db, a: Activation, src: SourceId, p: PassRow, now: Time)
    requires Inv(db, Some(a)) && src in db.passes && db.passes[src] == p
    ensures var o := Begun(db.(passes := db.passes - {src}), src, p.id, now);
            Tidy(o, a) && Stamped(o.db.sightings, o.db.stamps, o.db.roots, o.db.passes, o.db.lastPass)
            && forall ref | ref in o.db.stamps && ref.root.source == src :: o.db.stamps[ref] <= p.id
  {
    hide Linked, Owning, WellFormed, Kept, Overlapping, Held, Staging, NoStray, Current, Named;
    var db1 := db.(passes := db.passes - {src});
    CurrentOn(db, db1, a, {});
  }

  /** A complete pass only ever stops on a pinned instance, and commits the invariant. */
  lemma CompletePassKeeps(db: Db, a: Activation, src: SourceId, p: PassRow, kept: set<NativeRef>, now: Time)
    requires Inv(db, Some(a)) && src in db.passes && db.passes[src] == p
    ensures var r := CompletePass(db.(passes := db.passes - {src}), a, src, p, kept, now);
            r.Success? ==> Inv(r.value.db, Some(a)) && Seen(r.value.db, src, p, kept)
  {
    hide Inv, Tidy, Settle, ExpireAll, RetireAll, Stamped, Retired, Seen, StaleRefs;
    var o := Begun(db.(passes := db.passes - {src}), src, p.id, now);
    ClosedTidy(db, a, src, p, now);
    var refs := StaleRefs(o, kept, p);
    if RetireAll(o, refs).Success? {
      RetireAllTidy(o, a, refs);
      var o1 := RetireAll(o, refs).value;
      RetiredStamped(o, o1.db, kept, p);
      ExpireTidy(o1, a, Orphans(o1));
      ExpireSame(o1, Orphans(o1));
      var o2 := ExpireAll(o1, Orphans(o1));
      SettleKeeps(o2, a) by { assert Weak(o2, a); }
      RetiredSeen(o, o1.db, kept, p, Settle(o2, a).value.db);
    }
  }

  lemma ExpireSame(o: Obs, ids: set<InstId>)
    ensures var o1 := ExpireAll(o, ids);
            && o1.db.sightings == o.db.sightings && o1.db.stamps == o.db.stamps && o1.db.roots == o.db.roots
            && o1.db.passes == o.db.passes && o1.db.lastPass == o.db.lastPass
  {
  }

  /** Every sighting of the source left in scope was stamped by the pass, or
      lies under a kept root. */
  ghost predicate Seen(db: Db, src: SourceId, p: PassRow, kept: set<NativeRef>) {
    forall ref | ref in db.sightings && ref.root.source == src && InScope(p, ref) ::
      ref.root.root in kept || (ref in db.stamps && db.stamps[ref] == p.id)
  }

  lemma RetiredSeen(o: Obs, after: Db, kept: set<NativeRef>, p: PassRow, last: Db)
    requires Stamped(o.db.sightings, o.db.stamps, o.db.roots, o.db.passes, o.db.lastPass) && o.pass == p.id
    requires Retired(o.db, after, StaleRefs(o, kept, p))
    requires last.sightings == after.sightings && last.stamps == after.stamps
    ensures Seen(last, o.src, p, kept)
  {
    forall ref | ref in last.sightings && ref.root.source == o.src && InScope(p, ref)
      ensures ref.root.root in kept || (ref in last.stamps && last.stamps[ref] == p.id)
    {
      StaleRefsIs(o, kept, p, ref);
    }
  }
}
