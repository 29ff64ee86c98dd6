/** Who has a key once its record's claim is gone: the first sighting left that
    reports it with no video, or nobody. */
module Heirs {
  import opened Wrappers
  import opened Media
  import opened Tables
  import opened RefKeys
  import opened Claims
  import opened Judging
  import opened Settlement
  import opened AttachKeep
  import opened ClaimsKeep
  import opened ItemSteps
  import opened SettlementKeeps
  import Pins

  predicate BareAt(sightings: map<ItemRef, Sighting>, ref: ItemRef, k: Key) {
    ref in sightings && sightings[ref].key == Some(k) && sightings[ref].item.path == ""
  }

  /** Of the sightings that report k with no video, the one a scan meets first
      has its record; without any, k is not recorded. */
  ghost predicate Inherits(sightings: map<ItemRef, Sighting>, items: map<Key, Record>, k: Key) {
    if exists ref :: BareAt(sightings, ref, k)
    then
      && k in items && items[k].inst == 0 && BareAt(sightings, items[k].ref, k)
      && forall ref | BareAt(sightings, ref, k) :: ref == items[k].ref || Before(items[k].ref, ref)
    else k !in items
  }

  lemma InheritedRecord(db: Db, lost: set<Key>, k: Key)
    ensures if k in db.items && k in lost then Inherits(db.sightings, Inherited(db, lost), k)
            else RecordOf(Inherited(db, lost), k) == RecordOf(db.items, k)
  {
    forall ref
      ensures ref in Claimants(db.sightings, k) <==> BareAt(db.sightings, ref, k)
    {
    }
    if ref :| BareAt(db.sightings, ref, k) {
      HeirExists(db.sightings, k, ref);
    }
  }

  lemma HandOnItems(db: Db, a: Activation, lost: set<Key>)
    requires HandOn(db, a, lost).Success?
    ensures HandOn(db, a, lost).value.items == Inherited(db, lost)
  {
    hide Recompute, Inherited;
    Pins.RecomputeFrame(Bequeathed(db, lost), a, lost - Heirless(db.sightings, lost), false);
  }

  lemma InheritedOn(db: Db, db1: Db, lost: set<Key>)
    requires db1.items == db.items && db1.sightings == db.sightings
    ensures Inherited(db1, lost) == Inherited(db, lost)
  {
  }

  lemma SettledItems(o: Obs, a: Activation)
    requires Weak(o, a)
    ensures Settle(o, a).Success?
    ensures Settle(o, a).value.db.items == Inherited(o.db, Unheld(o))
    ensures Settle(o, a).value.db.sightings == o.db.sightings && Settle(o, a).value.db.instances == DropEmptied(o).db.instances
  {
    hide Weak, Inherited, HandOn, Recompute;
    SettleKeeps(o, a);
    var o1 := DropEmptied(o);
    assert Unheld(o1) == Unheld(o);
    HandOnItems(o1.db, a, Unheld(o));
    InheritedOn(o.db, o1.db, Unheld(o));
    Pins.RecomputeFrame(HandOn(o1.db, a, Unheld(o)).value, a, o1.touched - Unheld(o), false);
  }

  /** Settling hands on the keys no instance holds and whose record's sighting
      no longer reports them bare, and leaves every other record. */
  lemma SettledRecord(o: Obs, a: Activation, k: Key)
    requires Weak(o, a)
    ensures Settle(o, a).Success?
    ensures var items, rec := Settle(o, a).value.db.items, RecordOf(o.db.items, k);
            if rec.Some? && rec.value.inst == 0 && !BareAt(o.db.sightings, rec.value.ref, k) then Inherits(o.db.sightings, items, k)
            else RecordOf(items, k) == rec
  {
    hide Settle, Linked, Owning, WellFormed, Kept, Stamped, Rows, Current, Inherits, Inherited;
    SettledItems(o, a);
    InheritedRecord(o.db, Unheld(o), k);
    if k in o.db.items && o.db.items[k].inst == 0 {
      NamedKey(o, k);
    }
  }

  /** Settling leaves a joined key joined. */
  lemma JoinedSettles(o: Obs, a: Activation, ref: ItemRef, k: Key, path: string)
    requires Weak(o, a) && Joins(o.db, o.src, ref, k, path)
    ensures Settle(o, a).Success? && Joins(Settle(o, a).value.db, o.src, ref, k, path)
  {
    hide Settle, Owning, WellFormed, Named, Kept, Stamped, Rows, Current;
    SettledRecord(o, a, k);
    SettleKeeps(o, a);
    LinkedKey(o.db.items, o.db.instances, k);
  }
}
