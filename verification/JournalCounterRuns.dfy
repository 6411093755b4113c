/**
  Runs that end badly, each one the code can take: an acknowledged record missing from every open
  replica, gone from the array altogether, or let go with a disk.
 */
module JournalCounterRuns {
  import opened Lines
  import opened Segments
  import opened JournalProtocol
  import JournalLineage
  import JournalReelect
  import JournalRemoval
  import Seeding

  // Two records, and a two-replica array before anything is written.
  const FIRST: Bytes := [125, NEWLINE]
  const SECOND: Bytes := [123, NEWLINE]
  const TWO_RECORDS: Bytes := [125, NEWLINE, 123, NEWLINE]
  const TWO_REPLICAS := State(map[], [Replica(0, Open(0), 0), Replica(1, Open(0), 0)], 0)

  /** Both disks with the first record, then the second on disk 0 only. */
  const SHARED: map<Vol, Disk> := map[0 := map[0 := FIRST], 1 := map[0 := FIRST]]
  const UNEVEN: map<Vol, Disk> := map[0 := map[0 := TWO_RECORDS], 1 := map[0 := FIRST]]

  const BOTH_WROTE := State(SHARED, [Replica(0, Open(0), 2), Replica(1, Open(0), 2)], 0)
  const HOLDER_ONLY := State(UNEVEN, [Replica(0, Open(0), 4)], 0)
  const OTHER_ONLY := State(UNEVEN, [Replica(1, Open(0), 2)], 0)

  lemma OneLine(line: Bytes)
    requires line == FIRST || line == SECOND
    ensures IsLine(line) && AreLines([line]) && Join([line]) == line && Records(line) == [line]
  {
    FrontLine(line, []);
    assert line + [] == line && Records([]) == [] && Join([]) == [];
  }

  lemma OneSegment(d: Disk, bytes: Bytes)
    requires d == map[0 := bytes]
    ensures History(d, 1) == Records(bytes)
  {
    assert History(d, 1) == History(d, 0) + Records(bytes);
  }

  lemma TwoRecords()
    ensures TWO_RECORDS == FIRST + SECOND && Records(TWO_RECORDS) == [FIRST, SECOND]
  {
    OneLine(SECOND);
    FrontLine(FIRST, SECOND);
  }

  lemma OneMoreStep(past: Trace, e: Event, s: State)
    ensures First(Then(past, e, s)) == First(past)
    ensures AllAcked(Then(past, e, s)) == AllAcked(past) + Acked(e)
    ensures IsRun(Then(past, e, s)) <==> IsRun(past) && Next(past.state, e, s)
  {
  }

  lemma LiveOfPair(a: State)
    requires |a.replicas| == 2 && a.replicas[0].vol == 0 && a.replicas[1].vol == 1
    ensures Elected(a) == {0, 1}
    ensures 0 in Live(a) <==> a.replicas[0].handle.Open?
    ensures 1 in Live(a) <==> a.replicas[1].handle.Open?
    ensures Live(a) <= {0, 1}
  {
    assert a.replicas[0] in a.replicas && a.replicas[1] in a.replicas;
  }

  lemma LiveOfOne(a: State)
    requires |a.replicas| == 1 && a.replicas[0].handle.Open?
    ensures Elected(a) == {a.replicas[0].vol} == Live(a)
  {
    assert a.replicas[0] in a.replicas;
  }

  // ---------------------------------------------------------------------------------------------

  lemma FirstReachesBoth()
    ensures Next(TWO_REPLICAS, Write([FIRST], {0, 1}), BOTH_WROTE)
  {
    OneLine(FIRST);
    LiveOfPair(TWO_REPLICAS);
    LiveOfPair(BOTH_WROTE);
    BothInStep();
    assert Live(TWO_REPLICAS) == {0, 1} == Live(BOTH_WROTE);
    forall v: Vol
      ensures v in {0, 1} ==> Appended(Platter(map[], v), Platter(SHARED, v), 0, FIRST)
      ensures v !in {0, 1} ==> Platter(map[], v) == Platter(SHARED, v)
    {
    }
  }

  lemma BothInStep()
    ensures Valid(BOTH_WROTE)
  {
    forall r | r in BOTH_WROTE.replicas
      ensures InStep(BOTH_WROTE, r)
    {
      assert Platter(SHARED, r.vol) == map[0 := FIRST];
    }
  }

  lemma FirstIsWritten() returns (run: Trace)
    ensures IsRun(run) && First(run) == TWO_REPLICAS && AllAcked(run) == [FIRST] && run.state == BOTH_WROTE
  {
    FirstReachesBoth();
    OneMoreStep(Begin(TWO_REPLICAS), Write([FIRST], {0, 1}), BOTH_WROTE);
    run := Then(Begin(TWO_REPLICAS), Write([FIRST], {0, 1}), BOTH_WROTE);
  }

  lemma SecondMissesADisk()
    ensures Next(BOTH_WROTE, Write([SECOND], {0}), HOLDER_ONLY)
  {
    OneLine(SECOND);
    TwoRecords();
    LiveOfPair(BOTH_WROTE);
    LiveOfOne(HOLDER_ONLY);
    assert Appended(Platter(SHARED, 0), Platter(UNEVEN, 0), 0, SECOND);
    assert Appended(Platter(SHARED, 1), Platter(UNEVEN, 1), 0, SECOND[..0]);
    assert PartlyAppended(Platter(SHARED, 1), Platter(UNEVEN, 1), 0, Join([SECOND]));
  }

  lemma SecondIsWritten() returns (run: Trace)
    ensures IsRun(run) && First(run) == TWO_REPLICAS && AllAcked(run) == [FIRST, SECOND] && run.state == HOLDER_ONLY
  {
    var past := FirstIsWritten();
    SecondMissesADisk();
    OneMoreStep(past, Write([SECOND], {0}), HOLDER_ONLY);
    run := Then(past, Write([SECOND], {0}), HOLDER_ONLY);
  }

  /** The fleet with disk 0 away. */
  const ONE_AWAY := [JournalLineage.FleetVolume(0, false, false), JournalLineage.FleetVolume(1, false, true)]

  lemma OnlyTheShortCopyIsFound()
    ensures JournalLineage.Found(UNEVEN, ONE_AWAY, _ => true) == [1]
    ensures JournalLineage.OneLook(UNEVEN, ONE_AWAY, _ => true)
  {
    assert ONE_AWAY[..1] == [ONE_AWAY[0]] && ONE_AWAY[..1][..0] == [];
    assert JournalLineage.Found(UNEVEN, [], _ => true) == [];
    assert JournalLineage.Found(UNEVEN, ONE_AWAY[..1], _ => true) == [];
    var d := Platter(UNEVEN, 1);
    assert 0 in d && d[0] != [];
    assert JournalLineage.HistoryOn(UNEVEN, ONE_AWAY[1], _ => true);
    assert JournalLineage.AgreeAtStart(d[0], d[0]);
    assert JournalLineage.Alike(d, d);
    JournalLineage.FoundAre(UNEVEN, ONE_AWAY, _ => true);
  }

  /** With disk 0 away, disk 1 is what a cold start finds: it has a history, and it is the only one that can be read. */
  method ColdStartFindsTheShortCopy() returns (sources: JournalLineage.Sources)
    ensures sources == JournalLineage.From([1])
  {
    OnlyTheShortCopyIsFound();
    sources := JournalLineage.SeedSources(UNEVEN, [], ONE_AWAY, _ => true);
  }

  lemma HolderGoesAway()
    ensures Next(HOLDER_ONLY, Reelect({0}, [1], NOTHING_MISSED), OTHER_ONLY)
  {
    LiveOfOne(HOLDER_ONLY);
    LiveOfOne(OTHER_ONLY);
    forall s: nat
      ensures AdoptedAt(HOLDER_ONLY, OTHER_ONLY, [1], NOTHING_MISSED, 1, s)
    {
      var x := At(Platter(UNEVEN, 1), s);
      assert Pool(HOLDER_ONLY, [1], NOTHING_MISSED, 1, s) == {x};
      CompletePrefix(x, x);
    }
    forall v: Vol, s: nat
      ensures Complete(At(Platter(UNEVEN, v), s)) <= At(Platter(UNEVEN, v), s)
    {
      CompletePrefix(At(Platter(UNEVEN, v), s), At(Platter(UNEVEN, v), s));
    }
  }

  lemma NotOn(d: Disk)
    requires d == map[0 := FIRST]
    ensures !Subseq([FIRST, SECOND], History(d, 1))
  {
    OneLine(FIRST);
    OneSegment(d, FIRST);
  }

  /**
    A record acknowledged on one replica is missing from the live set when that disk is away at the
    next re-election: the other disk, which missed the batch, is found, adopted and opened.
   */
  lemma AbsentHolderLosesARecord() returns (run: Trace)
    ensures IsRun(run) && First(run) == TWO_REPLICAS && Safe(First(run), [])
    ensures AllAcked(run) == [FIRST, SECOND] && run.state == OTHER_ONLY && Live(OTHER_ONLY) == {1}
    ensures run.event == Reelect({0}, [1], NOTHING_MISSED)
    ensures JournalLineage.Found(run.past.state.disks, ONE_AWAY, _ => true) == [1]
    ensures !Safe(run.state, AllAcked(run))
  {
    run := HolderIsGone();
    RecordIsLost();
    OnlyTheShortCopyIsFound();
  }

  lemma HolderIsGone() returns (run: Trace)
    ensures IsRun(run) && First(run) == TWO_REPLICAS && AllAcked(run) == [FIRST, SECOND]
    ensures run == Then(run.past, Reelect({0}, [1], NOTHING_MISSED), OTHER_ONLY) && run.past.state == HOLDER_ONLY
  {
    var past := SecondIsWritten();
    HolderGoesAway();
    OneMoreStep(past, Reelect({0}, [1], NOTHING_MISSED), OTHER_ONLY);
    run := Then(past, Reelect({0}, [1], NOTHING_MISSED), OTHER_ONLY);
    assert AllAcked(run) == [FIRST, SECOND];
  }

  lemma RecordIsLost()
    ensures Safe(TWO_REPLICAS, []) && !Safe(OTHER_ONLY, [FIRST, SECOND]) && Live(OTHER_ONLY) == {1}
  {
    LiveOfOne(OTHER_ONLY);
    NotOn(Platter(UNEVEN, 1));
  }

  /**
    From there the unmounted disk, which holds the only copy of that record, is released on the word
    of the replica that lacks it.
   */
  lemma UnmountedRemovalCanLoseARecord() returns (run: Trace)
    ensures IsRun(run) && First(run) == TWO_REPLICAS && AllAcked(run) == [FIRST, SECOND]
    ensures 0 !in Elected(run.state)
    ensures forall listable, comparable :: JournalRemoval.Released(run.state, ONE_AWAY, listable, comparable, 0)
    ensures forall u: Vol, s: nat :: SECOND !in Records(At(Platter(JournalRemoval.Without(run.state, 0).disks, u), s))
  {
    run := HolderIsGone();
    ReleasedOnItsWord();
    forall u: Vol, s: nat {
      NowhereElse(u, s);
    }
  }

  lemma ReleasedOnItsWord()
    ensures 0 !in Elected(OTHER_ONLY)
    ensures forall listable, comparable :: JournalRemoval.Released(OTHER_ONLY, ONE_AWAY, listable, comparable, 0)
  {
    LiveOfOne(OTHER_ONLY);
    assert ONE_AWAY[1].isMounted && ONE_AWAY[1].id == 1;
    assert OTHER_ONLY.replicas[0] in OTHER_ONLY.replicas;
    assert JournalRemoval.HealthyElsewhere(OTHER_ONLY, ONE_AWAY, 0);
  }

  lemma NowhereElse(u: Vol, s: nat)
    ensures SECOND !in Records(At(Platter(JournalRemoval.Without(OTHER_ONLY, 0).disks, u), s))
  {
    OneLine(FIRST);
    assert Records([]) == [];
    var bytes := At(Platter(JournalRemoval.Without(OTHER_ONLY, 0).disks, u), s);
    assert bytes == [] || bytes == FIRST;
  }

  // ---------------------------------------------------------------------------------------------

  const DEAD := State(UNEVEN, [], 0)
  const OVERWRITTEN := State(SHARED, [Replica(0, Open(0), 2)], 0)
  const UNSEEN := Oversight({(0, 0)}, map[(0, 0) := {FIRST}])

  lemma ProcessDies()
    ensures Next(HOLDER_ONLY, Crash([]), DEAD)
  {
    LiveOfOne(HOLDER_ONLY);
    assert Join([]) == [];
    assert Appended(Platter(UNEVEN, 0), Platter(UNEVEN, 0), 0, Join([])[..0]);
  }

  lemma OverwrittenIsAdopted(s: nat)
    ensures AdoptedAt(DEAD, OVERWRITTEN, [0, 1], UNSEEN, 0, s)
  {
    OneLine(FIRST);
    BoundaryIsComplete(FIRST);
    var x := At(Platter(SHARED, 0), s);
    if s == 0 {
      assert Pool(DEAD, [0, 1], UNSEEN, 0, s) == {FIRST};
    } else {
      assert Pool(DEAD, [0, 1], UNSEEN, 0, s) == {x};
    }
  }

  lemma OverwrittenIsTraceable()
    ensures Derived(DEAD, OVERWRITTEN, [0, 1]) && Retained(DEAD, OVERWRITTEN, [0, 1], UNSEEN.unseen)
    ensures PoolsTraceable(DEAD, [0, 1], UNSEEN)
  {
    forall v: Vol, s: nat {
      OverwrittenAt(v, s);
    }
    OverwrittenAt(0, 0);
  }

  lemma OverwrittenAt(v: Vol, s: nat)
    ensures Complete(At(Platter(UNEVEN, v), s)) <= At(Platter(SHARED, v), s) || (v, s) == (0, 0)
    ensures At(Platter(SHARED, v), s) <= At(Platter(UNEVEN, v), s)
  {
    TwoRecords();
    CompletePrefix(At(Platter(UNEVEN, v), s), At(Platter(UNEVEN, v), s));
  }

  lemma HolderIsOverwritten()
    ensures Next(DEAD, Reelect({}, [0, 1], UNSEEN), OVERWRITTEN)
  {
    LiveOfOne(OVERWRITTEN);
    OverwrittenIsTraceable();
    forall s: nat {
      OverwrittenIsAdopted(s);
    }
    assert AtBoundary(FIRST);
  }

  /**
    A look at a target that fails costs an acknowledged record for good: after a restart the one disk
    that holds it is seeded from the other, its file is taken for absent and overwritten, and the
    record is on no disk any more.
   */
  lemma FailedLookLosesARecordForGood() returns (run: Trace)
    ensures IsRun(run) && First(run) == TWO_REPLICAS && AllAcked(run) == [FIRST, SECOND]
    ensures run.event == Reelect({}, [0, 1], UNSEEN) && run.state == OVERWRITTEN
    ensures JournalLineage.Found(run.past.state.disks, BOTH_IN, _ => true) == [0, 1]
    ensures SECOND in Records(At(Platter(run.past.state.disks, 0), 0))
    ensures forall v: Vol, s: nat :: SECOND !in Records(At(Platter(run.state.disks, v), s))
  {
    var past := ProcessIsDead();
    HolderIsOverwritten();
    OneMoreStep(past, Reelect({}, [0, 1], UNSEEN), OVERWRITTEN);
    run := Then(past, Reelect({}, [0, 1], UNSEEN), OVERWRITTEN);
    assert AllAcked(run) == [FIRST, SECOND];
    TwoRecords();
    BothAreFound();
    forall v: Vol, s: nat {
      OnNoDisk(v, s);
    }
  }

  lemma ProcessIsDead() returns (run: Trace)
    ensures IsRun(run) && First(run) == TWO_REPLICAS && AllAcked(run) == [FIRST, SECOND] && run.state == DEAD
  {
    var past := SecondIsWritten();
    ProcessDies();
    OneMoreStep(past, Crash([]), DEAD);
    run := Then(past, Crash([]), DEAD);
    assert AllAcked(run) == [FIRST, SECOND];
  }

  lemma OnNoDisk(v: Vol, s: nat)
    ensures SECOND !in Records(At(Platter(SHARED, v), s))
  {
    OneLine(FIRST);
    assert Records([]) == [];
    assert At(Platter(SHARED, v), s) == [] || At(Platter(SHARED, v), s) == FIRST;
  }

  /** The fleet with both disks in. */
  const BOTH_IN := [JournalLineage.FleetVolume(0, false, true), JournalLineage.FleetVolume(1, false, true)]

  lemma BothAreFound()
    ensures JournalLineage.Found(UNEVEN, BOTH_IN, _ => true) == [0, 1]
  {
    assert BOTH_IN[..1] == [BOTH_IN[0]] && BOTH_IN[..1][..0] == [];
    assert Platter(UNEVEN, 0)[0] != [] && Platter(UNEVEN, 1)[0] != [];
    assert JournalLineage.HistoryOn(UNEVEN, BOTH_IN[0], _ => true) && JournalLineage.HistoryOn(UNEVEN, BOTH_IN[1], _ => true);
    assert JournalLineage.Found(UNEVEN, [], _ => true) == [];
    assert JournalLineage.Found(UNEVEN, BOTH_IN[..1], _ => true) == [0];
  }

  lemma BothLookAlike()
    ensures JournalLineage.OneLook(UNEVEN, BOTH_IN, _ => true)
  {
    forall u: Vol, v: Vol
      ensures Seeding.PrefixOrdered(At(Platter(UNEVEN, u), 0), At(Platter(UNEVEN, v), 0))
    {
      TwoRecords();
    }
    JournalLineage.OneLogLooksAlike(DEAD, BOTH_IN, _ => true);
  }

  lemma OtherIsTheShortCopy()
    ensures JournalReelect.OtherDisks(UNEVEN, [0, 1], 0) == [Platter(UNEVEN, 1)]
  {
    assert [0, 1][..1] == [0] && [0][..0] == [];
    assert JournalReelect.OtherDisks(UNEVEN, [], 0) == [];
    assert JournalReelect.OtherDisks(UNEVEN, [0], 0) == [];
  }

  /** Every file operation works, and every look at a target fails. */
  const BLIND_COPIES: nat -> Seeding.Weather := (_: nat) => Seeding.Weather((_: nat) => Seeding.NoFault, (_: nat) => false, true)

  lemma OverwrittenByTheOther(result: Disk)
    requires Seeding.Longest([Platter(UNEVEN, 1)], BLIND_COPIES, 1, Platter(UNEVEN, 0), result)
    ensures SameBytes(result, Platter(OVERWRITTEN.disks, 0))
  {
    var sources := [Platter(UNEVEN, 1)];
    forall s: nat
      ensures At(result, s) == At(Platter(SHARED, 0), s)
    {
      assert Seeding.LongestAt(sources, BLIND_COPIES, 1, Platter(UNEVEN, 0), result, s);
      assert Seeding.LastUnseen(sources, BLIND_COPIES, 0, s) == -1;
      assert s == 0 ==> Seeding.Counts(sources, BLIND_COPIES, 1, s, 0);
    }
  }

  lemma HolderCanBeSeeded()
    ensures Seeding.OneHistory([Platter(UNEVEN, 1)], Platter(UNEVEN, 0))
    ensures Platter(UNEVEN, 1) != map[] && forall i: nat :: Seeding.Calm(BLIND_COPIES(i))
  {
    TwoRecords();
    assert 0 in Platter(UNEVEN, 1);
  }

  method ColdStartFindsBoth() returns (sources: JournalLineage.Sources)
    ensures sources == JournalLineage.From([0, 1])
  {
    BothLookAlike();
    BothAreFound();
    sources := JournalLineage.SeedSources(DEAD.disks, [], BOTH_IN, _ => true);
  }

  /** That overwriting is what the code does: both disks are sources, and the seed of disk 0 succeeds and leaves it so. */
  method ColdStartOverwritesTheHolder() returns (sources: JournalLineage.Sources, result: Disk, seeded: bool)
    ensures sources == JournalLineage.From([0, 1]) && seeded
    ensures SameBytes(result, Platter(OVERWRITTEN.disks, 0))
  {
    sources := ColdStartFindsBoth();
    OtherIsTheShortCopy();
    HolderCanBeSeeded();
    var others := JournalReelect.OtherDisks(DEAD.disks, [0, 1], 0);
    assert others == [Platter(UNEVEN, 1)] && |others| == 1;
    result, seeded := Seeding.SeedFrom(others, Platter(DEAD.disks, 0), BLIND_COPIES);
    OverwrittenByTheOther(result);
  }

  // ---------------------------------------------------------------------------------------------

  /** Disk 1 with a torn tail, and disk 0 without and with another record. */
  const TORN: Bytes := [125, NEWLINE, 123]
  const FIRST_TWICE: Bytes := [125, NEWLINE, 125, NEWLINE]
  const CUT_OFF: map<Vol, Disk> := map[0 := map[0 := FIRST], 1 := map[0 := TORN]]
  const FORKED: map<Vol, Disk> := map[0 := map[0 := FIRST_TWICE], 1 := map[0 := TORN]]
  const DIED := State(CUT_OFF, [], 0)
  const BACK := State(CUT_OFF, [Replica(0, Open(0), 2)], 0)
  const WENT_ON := State(FORKED, [Replica(0, Open(0), 4)], 0)

  lemma DiesPartWay()
    ensures Next(BOTH_WROTE, Crash([SECOND]), DIED)
  {
    OneLine(SECOND);
    LiveOfPair(BOTH_WROTE);
    assert Live(BOTH_WROTE) == {0, 1};
    assert Appended(Platter(SHARED, 0), Platter(CUT_OFF, 0), 0, Join([SECOND])[..0]);
    assert Appended(Platter(SHARED, 1), Platter(CUT_OFF, 1), 0, Join([SECOND])[..1]);
    assert PartlyAppended(Platter(SHARED, 0), Platter(CUT_OFF, 0), 0, Join([SECOND]));
    assert PartlyAppended(Platter(SHARED, 1), Platter(CUT_OFF, 1), 0, Join([SECOND]));
  }

  lemma ComesBackWithoutTheTorn()
    ensures Next(DIED, Reelect({1}, [0], NOTHING_MISSED), BACK)
  {
    LiveOfOne(BACK);
    OneLine(FIRST);
    forall s: nat
      ensures AdoptedAt(DIED, BACK, [0], NOTHING_MISSED, 0, s)
    {
      var x := At(Platter(CUT_OFF, 0), s);
      assert Pool(DIED, [0], NOTHING_MISSED, 0, s) == {x};
      CompletePrefix(x, x);
    }
    forall v: Vol, s: nat
      ensures Complete(At(Platter(CUT_OFF, v), s)) <= At(Platter(CUT_OFF, v), s)
    {
      CompletePrefix(At(Platter(CUT_OFF, v), s), At(Platter(CUT_OFF, v), s));
    }
  }

  lemma GoesOn()
    ensures Next(BACK, Write([FIRST], {0}), WENT_ON)
  {
    OneLine(FIRST);
    LiveOfOne(BACK);
    LiveOfOne(WENT_ON);
    FrontLine(FIRST, FIRST);
    assert FIRST_TWICE == FIRST + FIRST;
    assert Appended(Platter(CUT_OFF, 0), Platter(FORKED, 0), 0, Join([FIRST]));
  }

  lemma PartWayThere() returns (run: Trace)
    ensures IsRun(run) && First(run) == TWO_REPLICAS && AllAcked(run) == [FIRST] && run.state == BACK
  {
    var past := FirstIsWritten();
    DiesPartWay();
    ComesBackWithoutTheTorn();
    OneMoreStep(past, Crash([SECOND]), DIED);
    var died := Then(past, Crash([SECOND]), DIED);
    OneMoreStep(died, Reelect({1}, [0], NOTHING_MISSED), BACK);
    run := Then(died, Reelect({1}, [0], NOTHING_MISSED), BACK);
    assert AllAcked(run) == [FIRST];
  }

  /**
    A replica cut off by a crash need not stay a prefix of the healthy ones. Its torn tail is still
    there when the log goes on without it, and from then on it looks like a disk of another history:
    the probe tells the two apart, and no seed will touch it.
   */
  lemma TornReplicaDiverges() returns (run: Trace)
    ensures IsRun(run) && First(run) == TWO_REPLICAS && AllAcked(run) == [FIRST, FIRST] && run.state == WENT_ON
    ensures Live(WENT_ON) == {0} && !Seeding.PrefixOrdered(At(Platter(FORKED, 0), 0), At(Platter(FORKED, 1), 0))
    ensures !JournalLineage.Alike(Platter(FORKED, 0), Platter(FORKED, 1))
  {
    var past := PartWayThere();
    GoesOn();
    LiveOfOne(WENT_ON);
    OneMoreStep(past, Write([FIRST], {0}), WENT_ON);
    run := Then(past, Write([FIRST], {0}), WENT_ON);
    assert AllAcked(run) == [FIRST, FIRST];
    DoNotAgree();
  }

  lemma DoNotAgree()
    ensures !Seeding.PrefixOrdered(FIRST_TWICE, TORN)
    ensures !JournalLineage.Alike(Platter(FORKED, 0), Platter(FORKED, 1))
  {
    assert FIRST_TWICE[2] != TORN[2];
    assert FIRST_TWICE[..3][2] == 125 && TORN[..3][2] == 123;
    assert !JournalLineage.AgreeAtStart(FIRST_TWICE, TORN);
  }

  // ---------------------------------------------------------------------------------------------

  const ONLY_ON_ZERO: map<Vol, Disk> := map[0 := map[0 := FIRST]]
  const ONE_CLOSED := State(map[], [Replica(0, Open(0), 0), Replica(1, Closed, 0)], 0)
  const MISSED_ONE := State(ONLY_ON_ZERO, [Replica(0, Open(0), 2), Replica(1, Closed, 0)], 0)
  const REOPENED := State(ONLY_ON_ZERO, [Replica(0, Open(1), 0), Replica(1, Open(1), 0)], 1)

  lemma ReplicaIsClosed() returns (run: Trace)
    ensures IsRun(run) && First(run) == TWO_REPLICAS && AllAcked(run) == [] && run.state == ONE_CLOSED
  {
    run := Then(Begin(TWO_REPLICAS), Throw({1}), ONE_CLOSED);
    OneMoreStep(Begin(TWO_REPLICAS), Throw({1}), ONE_CLOSED);
  }

  lemma ClosedReplicaIsNotAsked()
    ensures Next(ONE_CLOSED, Write([FIRST], {0}), MISSED_ONE)
  {
    OneLine(FIRST);
    LiveOfPair(ONE_CLOSED);
    LiveOfPair(MISSED_ONE);
    assert Appended(Platter(map[], 0), Platter(ONLY_ON_ZERO, 0), 0, Join([FIRST]));
  }

  lemma BatchIsMissed() returns (run: Trace)
    ensures IsRun(run) && First(run) == TWO_REPLICAS && AllAcked(run) == [FIRST] && run.state == MISSED_ONE
  {
    var past := ReplicaIsClosed();
    ClosedReplicaIsNotAsked();
    OneMoreStep(past, Write([FIRST], {0}), MISSED_ONE);
    run := Then(past, Write([FIRST], {0}), MISSED_ONE);
  }

  lemma ClosedReplicaIsReopened()
    ensures Next(MISSED_ONE, Rotate, REOPENED)
  {
    LiveOfPair(MISSED_ONE);
    LiveOfPair(REOPENED);
    assert NoneClosed(REOPENED);
  }

  lemma CarriesNothing(d: Disk)
    requires d == map[]
    ensures !Subseq([FIRST], History(d, 2))
  {
    assert Records([]) == [];
    assert History(d, 1) == History(d, 0) + Records([]);
    assert History(d, 2) == History(d, 1) + Records([]);
  }

  /**
    A re-election that throws after closing an unmounted replica leaves it in the set. It misses
    the next batch, and the next rotation reopens it as if it had not.
   */
  lemma ThrownReelectionLeavesAHole() returns (run: Trace)
    ensures IsRun(run) && First(run) == TWO_REPLICAS && Safe(First(run), [])
    ensures AllAcked(run) == [FIRST] && run.state == REOPENED && Live(REOPENED) == {0, 1}
    ensures !Safe(run.state, AllAcked(run))
  {
    var past := BatchIsMissed();
    ClosedReplicaIsReopened();
    OneMoreStep(past, Rotate, REOPENED);
    run := Then(past, Rotate, REOPENED);
    assert AllAcked(run) == [FIRST];
    HoleIsLive();
  }

  lemma HoleIsLive()
    ensures Safe(TWO_REPLICAS, []) && !Safe(REOPENED, [FIRST]) && Live(REOPENED) == {0, 1}
  {
    LiveOfPair(REOPENED);
    CarriesNothing(Platter(REOPENED.disks, 1));
  }
}
