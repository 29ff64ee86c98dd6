/** A landed delivery that locks a key with no record: an ownerless instance
    still lists it. */
module StrayLocked {
  import opened Wrappers
  import opened Languages
  import opened Tables
  import opened Claims
  import opened Activations
  import opened Intents
  import opened Runs
  import opened PlainRuns
  import opened StrayLocks

  const DELIVERED := FileKey(1, "c.en.srt")
  const PAIR := Pair("en", Standard)

  /** A locked delivery for the one key the instance lists. */
  const DELIVERY := Delivery(File("en", Flags(false, false), true, 0, 0, ""), "", [Download(1, [MovieKey(3)], PAIR, true, "")], [])

  /** The returned source reports the video as gone, and is removed again: the
      key's record goes with it, and the first file's instance keeps the key. */
  const BARE := RETURNED.(
    roots := map[RR := ROOT], sightings := map[FIRST := Sighting(Some(MovieKey(3)), Film("1", 3, ""))],
    stamps := map[ItemRef(RR, "") := 2, FIRST := 2], items := map[MovieKey(3) := Record(FIRST, 0)])

  const GONE := RETURNED.(stored := StoredOf(Active({})), passes := map[], items := map[])

  const STAGED := GONE.(intents := map[DELIVERED := DELIVERY])

  const LAST: seq<Call> :=
    [Call.Report(SRC, 2, ROOT, [Film("1", 3, "")]), Configure(POLICY, [], []), BeginWrite(DELIVERED, DELIVERY), EndWrite(DELIVERED, Deliver, true)]

  lemma BareItem(o: Obs)
    requires o == Begins(RETURNED, [Film("1", 3, "")])
    ensures var r := ObserveItem(o, FIRST, ROOT, Film("1", 3, ""));
            r.Success? && r.value.db == BARE && r.value.released == {} && r.value.emptied == map[]
  {
    hide ItemKey, Scenes, Release;
    FilmKey("1", 3, "");
    var r := ObserveItem(o, FIRST, ROOT, Film("1", 3, ""));
    assert r.value.db.items == BARE.items;
    assert r.value.db.sightings == BARE.sightings && r.value.db.stamps == BARE.stamps;
  }

  lemma BareReported()
    ensures Step(State(RETURNED, Some(Active({SRC}))), LAST[0], 0) == State(BARE, Some(Active({SRC})))
  {
    hide Step, ObserveItem, ObserveAll, Begins;
    var it := Film("1", 3, "");
    var o := Begins(RETURNED, [it]);
    BareItem(o);
    One(o, it);
    BareLone();
    Reports(RETURNED, [it], ObserveItem(o, FIRST, ROOT, it).value);
  }

  lemma BareLone()
    ensures Lone(BARE)
  {
  }

  lemma BareGone()
    ensures Removed(BARE).(items := BARE.items - Stranded(BARE, {SRC})) == GONE
  {
    assert Removed(BARE).instances == GONE.instances;
    assert Stranded(BARE, {SRC}) == {MovieKey(3)};
  }

  lemma Stages()
    ensures Begin(GONE, DELIVERED, DELIVERY) == Success(STAGED)
  {
    assert DELIVERY.attempts[0].items == [MovieKey(3)];
  }

  /** A run from a new store gets there. */
  lemma Reached()
    ensures Run(NEW, FIRST_LIFE + LAST[..3], CLOCK) == State(STAGED, Some(Active({})))
    ensures Run(NEW, FIRST_LIFE + LAST, CLOCK) == Step(State(STAGED, Some(Active({}))), LAST[3], 0)
  {
    hide Run, Begin, Removed, Lone, Stranded;
    FirstLife();
    RunFour(FIRST_LIFE, LAST);
    BareReported();
    BareLone();
    RemovesSource(BARE);
    BareGone();
    Stages();
    assert Step(State(GONE, Some(Active({}))), LAST[2], 0) == State(STAGED, Some(Active({})));
  }

  lemma StagedInv()
    ensures Inv(STAGED, Some(Active({})))
  {
    hide Inv, Run;
    Reached();
    PlainInv(FIRST_LIFE + LAST[..3]);
  }

  /** After some calls on a new store a delivery lands, and locks a key that
      has no record. */
  lemma DeliveryStrays()
    ensures var s := Run(NEW, FIRST_LIFE + LAST[..3], CLOCK);
            && SetsStray(s, LAST[3]) && 1 in s.db.instances && s.db.instances[1].owner.None?
    ensures Stray(Run(NEW, FIRST_LIFE + LAST, CLOCK).db, LockKey(MovieKey(3), PAIR))
  {
    hide Run, Inv, End;
    Reached();
    StagedInv();
    assert LocksUnrecorded(STAGED, DELIVERED, MovieKey(3));
    LandedLocks(STAGED, Active({}), DELIVERED, 0, LockKey(MovieKey(3), PAIR));
  }
}
