/**
  The journal object: a queue of records, a replica set, and a ghost record of every step taken, so
  that what the protocol promises about whole runs holds of the object.
 */
module JournalService {
  import opened Lines
  import opened Segments
  import opened JournalProtocol
  import opened JournalWrite
  import opened JournalOpen
  import JournalLineage
  import opened JournalLockstep
  import opened JournalTidy
  import opened Prelude
  import JournalReelect
  import JournalRebuild
  import JournalRemoval
  import Election

  /** A batch nobody made durable, after the attempt to take it back. */
  lemma RejectedBatch(a: State, written: State, b: State, batch: seq<Bytes>, takes: Vol -> bool)
    requires Valid(a) && WriteEffect(a, written, batch, {})
    requires b == State(b.disks, written.replicas, written.segment)
    requires forall r :: r in a.replicas && r.handle.Open? && takes(r.vol) ==>
               Platter(b.disks, r.vol) == Truncated(Platter(written.disks, r.vol), a.segment, r.bytes)
    requires forall v :: (forall r :: r in a.replicas && r.vol == v ==> r.handle.Closed? || !takes(v)) ==>
               Platter(b.disks, v) == Platter(written.disks, v)
    ensures WriteEffect(a, b, batch, {})
    ensures (forall v :: v in Live(a) ==> takes(v)) ==> RolledBack(a, b)
  {
    forall v: Vol
      ensures v !in Live(a) || takes(v) ==> SameBytes(Platter(a.disks, v), Platter(b.disks, v))
      ensures v in Live(a) ==> PartlyAppended(Platter(a.disks, v), Platter(b.disks, v), a.segment, Join(batch))
    {
      RejectedOnOneDisk(a, written, b, batch, takes, v);
    }
  }

  lemma RejectedOnOneDisk(a: State, written: State, b: State, batch: seq<Bytes>, takes: Vol -> bool, v: Vol)
    requires Valid(a) && WriteEffect(a, written, batch, {})
    requires forall r :: r in a.replicas && r.handle.Open? && takes(r.vol) ==>
               Platter(b.disks, r.vol) == Truncated(Platter(written.disks, r.vol), a.segment, r.bytes)
    requires (forall r :: r in a.replicas && r.vol == v ==> r.handle.Closed? || !takes(v)) ==>
               Platter(b.disks, v) == Platter(written.disks, v)
    ensures v !in Live(a) || takes(v) ==> SameBytes(Platter(a.disks, v), Platter(b.disks, v))
    ensures v in Live(a) ==> PartlyAppended(Platter(a.disks, v), Platter(b.disks, v), a.segment, Join(batch))
  {
    if v in Live(a) {
      var r := LiveReplica(a, v);
      if takes(v) {
        TruncationUndoesAppend(Platter(a.disks, v), Platter(written.disks, v), a.segment, Join(batch));
        assert Appended(Platter(a.disks, v), Platter(b.disks, v), a.segment, Join(batch)[..0]);
      } else {
        assert forall q :: q in a.replicas && q.vol == v ==> q == r;
      }
    }
  }

  /** Write one batch, and take it back when nobody made it durable. */
  method Commit(a: State, batch: seq<Bytes>, outcome: Vol -> Outcome, takes: Vol -> bool)
    returns (b: State, durable: bool)
    requires Valid(a) && AreLines(batch)
    ensures WriteEffect(a, b, batch, Live(b))
    ensures durable <==> Live(b) != {}
    ensures forall v :: v in Live(b) <==> v in Live(a) && outcome(v).Durable?
    ensures !durable && (forall v :: v in Live(a) ==> takes(v)) ==> RolledBack(a, b)
  {
    var body := Join(batch);
    b := WriteToAll(a, body, outcome);
    EveryTurnTaken(a, b, batch, outcome);
    durable := exists r :: r in b.replicas && r.handle.Open?;
    if !durable {
      ghost var written := b;
      var disks := RollBack(a.replicas, b.disks, a.segment, takes);
      b := State(disks, b.replicas, b.segment);
      RejectedBatch(a, written, b, batch, takes);
    }
  }

  /** Whether a batch filled a segment, by the lengths before it and its own. */
  lemma FullAfterWrite(a: State, b: State, batch: seq<Bytes>, segmentBytes: nat)
    requires WriteEffect(a, b, batch, Live(b))
    ensures Full(b, segmentBytes) <==>
              exists v :: v in Live(b) && |At(Platter(a.disks, v), a.segment)| + |Join(batch)| >= segmentBytes
  {
    FullIff(b, segmentBytes);
    forall v | v in Live(b)
      ensures |At(Platter(b.disks, v), b.segment)| == |At(Platter(a.disks, v), a.segment)| + |Join(batch)|
    {
      assert Appended(Platter(a.disks, v), Platter(b.disks, v), a.segment, Join(batch));
    }
  }

  /** The log once the process has died with `part` of a batch on its way to the platters. */
  ghost function AfterCrash(log: Log, a: State, part: seq<Bytes>, after: map<Vol, Disk>): Log {
    Extend(log, a, JournalProtocol.Event.Crash(part), State(after, [], 0))
  }

  /** The process dies in lockstep, and the rack the next one finds is fit to be recovered from. */
  ghost predicate MayRestart(a: State, part: seq<Bytes>, after: map<Vol, Disk>, log: Log, world: JournalRebuild.World) {
    && AreLines(part) && CrashEffect(a, State(after, [], 0), part)
    && InLockstep(a, log) && TidyExcept(a, log, {a.segment}) && Live(a) != {}
    && JournalRebuild.Recoverable(a, State(after, [], 0), world, AfterCrash(log, a, part, after))
  }

  /** What a rebuild may have come to, with every look at a target succeeding. */
  ghost predicate RestartStep(b: State, e: Event, c: State, world: JournalRebuild.World) {
    || e == Throw(JournalRebuild.Unmounted(world.fleet))
    || (&& e.Reelect? && e.unmounted == JournalRebuild.Unmounted(world.fleet) && JournalRebuild.Searched(b, world, e.sources)
        && (Live(c) == {} || (JournalRebuild.OnHighest(b.disks, e.sources, b.segment, c.segment) && e.missed == NOTHING_MISSED)))
  }

  lemma RestartEnds(a: State, part: seq<Bytes>, after: map<Vol, Disk>, log: Log, world: JournalRebuild.World, e: Event, c: State)
    requires MayRestart(a, part, after, log, world)
    requires Next(State(after, [], 0), e, c) && RestartStep(State(after, [], 0), e, c, world)
    ensures var log' := AfterCrash(log, a, part, after);
            InLockstep(c, log') && TidyExcept(c, log', {a.segment})
  {
    var b, log' := State(after, [], 0), AfterCrash(log, a, part, after);
    if e.Throw? {
      JournalRebuild.CrashLeavesAGoodStart(a, part, b, world, log);
      assert c == b;
    } else {
      JournalRebuild.RebuildAfterCrash(a, part, b, c, world, e.sources, e.missed, log);
    }
  }

  class Journal {
    const segmentBytes: nat
    const wanted: nat
    var disks: map<Vol, Disk>
    var replicas: seq<Replica>
    var segment: nat
    var pending: seq<Bytes>
    ghost var run: Trace

    function Now(): State
      reads this
    {
      State(disks, replicas, segment)
    }

    /** The fields are where the recorded run leads. */
    ghost predicate Valid()
      reads this
    {
      && wanted >= 1
      && JournalProtocol.Valid(Now())
      && AreLines(pending)
      && IsRun(run) && run.state == Now()
    }

    /** A fresh process over whatever the platters hold. */
    constructor (platters: map<Vol, Disk>, wanted: nat, segmentBytes: nat)
      requires wanted >= 1
      ensures Valid() && run == Begin(State(platters, [], 0)) && pending == []
      ensures this.wanted == wanted && this.segmentBytes == segmentBytes
    {
      this.wanted, this.segmentBytes := wanted, segmentBytes;
      disks, replicas, segment, pending := platters, [], 0, [];
      run := Begin(State(platters, [], 0));
    }

    /**
      Queue a record. With no replica to write to, one re-election is tried first, and the record is
      refused if that leaves none either.
     */
    method Append(line: Bytes, world: JournalRebuild.World, outcome: Vol -> Outcome, takes: Vol -> bool, opening: Vol -> Opening)
      returns (accepted: bool, tried: bool)
      requires Valid() && IsLine(line) && Election.DistinctIds(world.candidates)
      modifies this
      ensures Valid() && First(run) == old(First(run))
      ensures tried <==> old(replicas) == []
      ensures !tried ==> run == old(run) && Now() == old(Now()) && accepted && pending == old(pending) + [line]
      ensures tried ==> run.Then? && (run.event.Reelect? || run.event.Throw?)
      ensures tried ==> (accepted <==> replicas != []) && pending == if accepted then [line] else []
    {
      tried := replicas == [];
      if tried {
        var _, _, _, _ := Reconfigure(world, outcome, takes, opening);
      }
      accepted := replicas != [];
      if accepted {
        pending := pending + [line];
      }
    }

    /**
      Write the whole queue as one batch, tell the callers, rotate if a segment is full. The batch
      is acknowledged exactly when some open replica made all of it durable; a rejected batch is
      off every platter whose truncation took effect.
     */
    method Flush(outcome: Vol -> Outcome, takes: Vol -> bool, opening: Vol -> Opening) returns (acknowledged: bool)
      requires Valid()
      modifies this
      ensures Valid() && pending == []
      ensures acknowledged <==>
                old(pending) != [] && exists v :: v in old(Live(Now())) && outcome(v).Durable?
      ensures AllAcked(run) == old(AllAcked(run)) + (if acknowledged then old(pending) else [])
      ensures First(run) == old(First(run))
      ensures old(pending) == [] ==> run == old(run)
      ensures !acknowledged && (forall v :: v in old(Live(Now())) ==> takes(v)) ==> RolledBack(old(Now()), Now())
      // The write is recorded with exactly the replicas that made it durable, and they stay in the set.
      ensures old(pending) != [] ==>
                && Written().Then? && Written().past == old(run) && Written().event == Write(old(pending), Live(Written().state))
                && forall v :: v in Live(Written().state) <==> v in old(Live(Now())) && outcome(v).Durable?
      // A segment that is full afterwards is left behind, and all elected replicas that open go on in the next.
      ensures old(pending) != [] ==>
                (Rotated() <==> acknowledged && exists v :: && v in old(Live(Now())) && outcome(v).Durable?
                                                            && |At(Platter(old(disks), v), old(segment))| + |Join(old(pending))| >= segmentBytes)
      ensures segment == if old(pending) != [] && Rotated() then old(segment) + 1 else old(segment)
      ensures old(pending) != [] && Rotated() ==> forall v :: v in Live(Now()) <==> v in Elected(Written().state) && opening(v).Opens?
    {
      acknowledged := false;
      if pending == [] {
        return;
      }
      var batch := pending;
      pending := [];
      ghost var a := Now();
      var b, durable := Commit(Now(), batch, outcome, takes);
      Take(Write(batch, Live(b)), b);
      FullAfterWrite(a, b, batch, segmentBytes);
      if durable {
        acknowledged := true;
        var c := RotateIfNeeded(b, segmentBytes, opening);
        if Full(b, segmentBytes) {
          Take(Rotate, c);
        }
      }
    }

    /** The last thing recorded was a rotation. */
    ghost predicate Rotated()
      reads this
    {
      run.Then? && run.event.Rotate?
    }

    /** The run up to the last write, but for a rotation after it. */
    ghost function Written(): Trace
      reads this
    {
      if Rotated() then run.past else run
    }

    /**
      Drain the queue onto the current set, then rebuild it. The step recorded is a re-election, or
      a throw that only closed replicas on unmounted disks. The rebuild awaits many times, and appends
      and flushes may be called meanwhile; that it can be taken as one step is what
      `JournalGate.CopyWindowIsQuiet` proves: from the end of the drain to the end of the rebuild
      nothing is written or acknowledged.
     */
    method Reconfigure(world: JournalRebuild.World, outcome: Vol -> Outcome, takes: Vol -> bool, opening: Vol -> Opening)
      returns (ending: JournalRebuild.Ending, ghost drained: Trace, ghost acknowledged: bool, ghost plan: JournalRebuild.Plan)
      requires Valid() && Election.DistinctIds(world.candidates)
      modifies this
      ensures Valid() && pending == []
      ensures AllAcked(run) == old(AllAcked(run)) + (if acknowledged then old(pending) else [])
      ensures First(run) == old(First(run))
      ensures run.Then? && run.past == drained && (old(pending) == [] ==> drained == old(run))
      ensures ending.Threw? ==> run.event == Throw(JournalRebuild.Unmounted(world.fleet))
      ensures !ending.Threw? ==> run.event.Reelect? && run.event.unmounted == JournalRebuild.Unmounted(world.fleet)
      ensures !ending.Threw? && JournalRebuild.AllLooksSucceed(world) ==> run.event.missed == NOTHING_MISSED
      ensures ending.Rebuilt? ==> JournalRebuild.OnHighest(drained.state.disks, run.event.sources, drained.state.segment, segment)
      ensures ending.NowhereToWrite? ==> replicas == []
      // Who is in the set now: as many of the candidates as the journal wants, those that could be seated and opened.
      ensures Election.IsElection(world.candidates, JournalRebuild.VolumesOf(drained.state.replicas), wanted, plan.chosen)
      ensures ending.Rebuilt? ==> JournalRebuild.FromTheElected(drained.state, Now(), world, run.event.sources, plan)
      ensures !ending.Threw? ==> forall v :: v in plan.broken ==> !JournalReelect.SureToSeed(drained.state, run.event.sources, world.weather, v)
      ensures !ending.Threw? ==>
                (ending.KeptWhereItWas? <==>
                   && JournalProtocol.Standing(drained.state, JournalRebuild.Unmounted(world.fleet)) != {} && world.lineageReadable
                   && JournalRebuild.NoneToSeat(drained.state, world, run.event.sources, plan))
      ensures ending.Rebuilt? && JournalProtocol.Standing(drained.state, JournalRebuild.Unmounted(world.fleet)) == {} ==>
                JournalRebuild.FromTheMajority(drained.state, world, run.event.sources)
      ensures ending.NowhereToWrite? ==> !world.segmentsReadable || JournalRebuild.MayFailClosed(drained.state, world)
      ensures !world.segmentsReadable ==> !ending.Rebuilt?
      ensures ending.Threw? ==> !world.lineageReadable
      ensures !ending.Threw? && JournalRebuild.NothingFails(drained.state, world, run.event.sources) ==>
                ending.Rebuilt? && |Live(Now())| == Min(wanted, |world.candidates|)
      ensures !ending.Threw? ==> JournalRebuild.Searched(drained.state, world, run.event.sources)
    {
      acknowledged := Flush(outcome, takes, opening);
      drained := run;
      var b, sources;
      ghost var missed;
      b, ending, sources, missed, plan := JournalRebuild.Rebuild(Now(), world, wanted);
      ghost var unmounted := JournalRebuild.Unmounted(world.fleet);
      if ending.Threw? {
        ThrowKeeps(Now(), b, unmounted);
      }
      Take(if ending.Threw? then Throw(unmounted) else Reelect(unmounted, sources, missed), b);
    }

    /** The process dies with `part` of a batch on its way to the platters; a new one starts from nothing. */
    method Crash(ghost part: seq<Bytes>, after: map<Vol, Disk>)
      requires Valid() && AreLines(part) && CrashEffect(Now(), State(after, [], 0), part)
      modifies this
      ensures Valid() && pending == [] && run == Then(old(run), JournalProtocol.Event.Crash(part), State(after, [], 0))
      ensures AllAcked(run) == old(AllAcked(run)) && First(run) == old(First(run))
    {
      pending := [];
      Take(JournalProtocol.Event.Crash(part), State(after, [], 0));
    }

    /**
      The process dies part-way through a batch, and a new one rebuilds the set. However that ends,
      the journal is in lockstep again: its open replicas, if it has any, are the log with the lines
      of the batch that survived, and only the segment that was being written may be torn anywhere.
     */
    method CrashAndRestart(ghost part: seq<Bytes>, after: map<Vol, Disk>, ghost log: Log, world: JournalRebuild.World,
                           outcome: Vol -> Outcome, takes: Vol -> bool, opening: Vol -> Opening)
      returns (ending: JournalRebuild.Ending)
      requires Valid() && MayRestart(Now(), part, after, log, world)
      requires JournalRebuild.AllLooksSucceed(world) && Election.DistinctIds(world.candidates)
      modifies this
      ensures Valid() && pending == [] && First(run) == old(First(run)) && AllAcked(run) == old(AllAcked(run))
      ensures var log' := AfterCrash(log, old(Now()), part, after);
              InLockstep(Now(), log') && TidyExcept(Now(), log', {old(segment)})
    {
      ghost var a := Now();
      Crash(part, after);
      ghost var drained, acknowledged, plan;
      ending, drained, acknowledged, plan := Reconfigure(world, outcome, takes, opening);
      RestartEnds(a, part, after, log, world, run.event, Now());
    }

    /** Move the journal off a volume, and refuse unless it is provably gone and not the last copy. */
    method RelocateOff(v: Vol, world: JournalRebuild.World, comparable: (Vol, nat) -> bool,
                       outcome: Vol -> Outcome, takes: Vol -> bool, opening: Vol -> Opening)
      returns (released: bool, threw: bool)
      requires Valid() && Election.DistinctIds(world.candidates)
      modifies this
      ensures Valid() && pending == []
      ensures First(run) == old(First(run))
      ensures threw ==> !released
      ensures run.Then? && if threw then run.event.Throw? else run.event.Reelect?
      ensures !threw ==>
                (released <==> v !in Elected(Now()) && JournalRemoval.Released(Now(), world.fleet, world.listable, comparable, v))
    {
      var ending, drained, acknowledged, plan := Reconfigure(world, outcome, takes, opening);
      released, threw := false, ending.Threw?;
      if threw || exists r :: r in replicas && r.vol == v {
        return;
      }
      released := JournalRemoval.NotLastCopy(Now(), world.fleet, world.listable, comparable, v);
    }

    /** Move to the state a protocol step leads to, and record the step. */
    method Take(ghost e: Event, b: State)
      requires Valid() && Next(Now(), e, b) && JournalProtocol.Valid(b)
      modifies this`disks, this`replicas, this`segment, this`run
      ensures Valid() && Now() == b && run == Then(old(run), e, b)
      ensures First(run) == old(First(run)) && AllAcked(run) == old(AllAcked(run)) + Acked(e)
    {
      run := Then(run, e, b);
      disks, replicas, segment := b.disks, b.replicas, b.segment;
    }
  }

  /**
    At any moment in the life of a journal, whatever sequence of calls led there: if no throw closed
    an open replica and every cold re-election found a source that carries what was acknowledged,
    every open replica carries every acknowledged record, in order.
   */
  lemma OpenReplicasCarryEverythingAcknowledged(j: Journal, v: Vol)
    requires j.Valid() && First(j.run).replicas == []
    requires NoThrowCloses(j.run) && ColdStartsFindASource(j.run, [])
    requires v in Live(j.Now())
    ensures Subseq(AllAcked(j.run), History(Platter(j.disks, v), j.segment + 1))
  {
    QuietRunsAreCareful(j.run, []);
    AcknowledgedIsSafe(j.run, []);
    assert [] + AllAcked(j.run) == AllAcked(j.run);
  }

  /**
    At any moment in the life of a journal whose every step was clean: the open replicas are byte for
    byte one log, which holds what it held at the start followed by everything acknowledged since and
    what survived of batches interrupted by a crash.
   */
  lemma OpenReplicasAreOneLog(j: Journal, log: Log)
    requires j.Valid() && CleanRun(j.run, log) && InLockstep(First(j.run), log)
    ensures var now := LogAfter(log, j.run);
            && (forall v :: v in Live(j.Now()) ==> SameBytes(Platter(j.disks, v), now.bytes))
            && LogRecords(now) == LogRecords(log) + AllKept(j.run)
            && Subseq(AllAcked(j.run), AllKept(j.run))
  {
    LockstepOverRuns(j.run, log);
  }

  /**
    At any moment in the life of a journal whose every step was orderly: whatever a disk holds of a
    segment that no crash interrupted is a byte prefix of the one log, and of every open replica. So a
    replica that dropped out is a strict prefix of a healthier copy, or the same.
   */
  lemma EveryDiskIsAPrefix(j: Journal, log: Log, v: Vol, u: Vol, s: nat)
    requires j.Valid() && OrderlyRun(j.run, log, {}) && InLockstep(First(j.run), log) && Tidy(First(j.run), log)
    requires s !in Torn(j.run, {})
    ensures At(Platter(j.disks, v), s) <= At(LogAfter(log, j.run).bytes, s)
    ensures u in Live(j.Now()) ==> At(Platter(j.disks, v), s) <= At(Platter(j.disks, u), s)
    ensures CleanRun(j.run, log)
  {
    RunsStayTidy(j.run, log, {});
    assert TidyAt(j.Now(), LogAfter(log, j.run), v, s);
    assert u in Live(j.Now()) ==> SameBytes(Platter(j.disks, u), LogAfter(log, j.run).bytes);
  }

  /** A disk such a journal releases is not missed: every written segment that was in full on some disk still is. */
  lemma ReleasedDiskIsNotMissed(j: Journal, log: Log, fleet: seq<JournalLineage.FleetVolume>, listable: Vol -> bool,
                                comparable: (Vol, nat) -> bool, v: Vol, s: nat)
    requires j.Valid() && CleanRun(j.run, log) && InLockstep(First(j.run), log)
    requires JournalRemoval.Released(j.Now(), fleet, listable, comparable, v)
    requires At(LogAfter(log, j.run).bytes, s) != [] && JournalRemoval.SomewhereInFull(j.Now(), LogAfter(log, j.run), s)
    ensures JournalRemoval.SomewhereInFull(JournalRemoval.Without(j.Now(), v), LogAfter(log, j.run), s)
  {
    LockstepOverRuns(j.run, log);
    JournalRemoval.RemovalLosesNoSegment(j.Now(), LogAfter(log, j.run), fleet, listable, comparable, v, s);
  }
}
