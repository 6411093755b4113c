/**
  Lockstep: the array writes one log, the open replicas are byte for byte that log, and every other
  disk holds no complete record that is not in it. A crash part-way through a batch adds to the log
  the lines of it that survived.
 */
module JournalLockstep {
  import opened Lines
  import opened Segments
  import opened JournalProtocol

  /** The one history the array is writing: its bytes by segment, and a segment nothing lies beyond. */
  datatype Log = Log(bytes: Disk, top: nat)

  ghost function LogRecords(log: Log): seq<Bytes> {
    History(log.bytes, log.top + 1)
  }

  /** Every complete record of the disk is the log's, segment by segment and from the start. */
  ghost predicate Trails(d: Disk, log: Disk) {
    forall s: nat :: Complete(At(d, s)) <= At(log, s)
  }

  ghost predicate WellFormed(log: Log) {
    EndsBy(log.bytes, log.top) && forall s: nat :: AtBoundary(At(log.bytes, s))
  }

  ghost predicate InLockstep(a: State, log: Log) {
    && Valid(a)
    && WellFormed(log)
    && (forall v: Vol :: Trails(Platter(a.disks, v), log.bytes))
    && (forall v :: v in Live(a) ==> SameBytes(Platter(a.disks, v), log.bytes))
  }

  // ---------------------------------------------------------------------------------------------
  // What a step adds to the log.

  /** The first `k` lines of an interrupted batch are all on some disk. */
  ghost predicate Reached(a: State, b: State, batch: seq<Bytes>, k: nat) {
    && k <= |batch|
    && exists v :: v in Live(a)
         && |At(Platter(b.disks, v), a.segment)| >= |At(Platter(a.disks, v), a.segment)| + |Join(batch[..k])|
  }

  /** The most lines, up to `k`, that reached a disk before the crash. */
  ghost function Survived(a: State, b: State, batch: seq<Bytes>, k: nat): (r: nat)
    requires k <= |batch|
    ensures r <= k && (r > 0 ==> Reached(a, b, batch, r))
    ensures forall j: nat :: r < j <= k ==> !Reached(a, b, batch, j)
  {
    if k == 0 then 0 else if Reached(a, b, batch, k) then k else Survived(a, b, batch, k - 1)
  }

  /** The records a step leaves in the log: an acknowledged batch, or what survived of an interrupted one. */
  ghost function Kept(a: State, e: Event, b: State): seq<Bytes> {
    if e.Crash? then e.batch[..Survived(a, b, e.batch, |e.batch|)] else Acked(e)
  }

  ghost function Extend(log: Log, a: State, e: Event, b: State): Log {
    if Kept(a, e, b) == [] then log
    else Log(log.bytes[a.segment := At(log.bytes, a.segment) + Join(Kept(a, e, b))], a.segment)
  }

  ghost function LogAfter(log: Log, run: Trace): Log {
    if run.Begin? then log else Extend(LogAfter(log, run.past), run.past.state, run.event, run.state)
  }

  /** Everything a run left in the log, in order. */
  ghost function AllKept(run: Trace): seq<Bytes> {
    if run.Begin? then [] else AllKept(run.past) + Kept(run.past.state, run.event, run.state)
  }

  /** All that was acknowledged is among it, in order; the rest are first lines of interrupted batches. */
  lemma {:induction false} AcknowledgedIsKept(run: Trace)
    ensures Subseq(AllAcked(run), AllKept(run))
  {
    if run.Then? {
      AcknowledgedIsKept(run.past);
      var acked, kept := Acked(run.event), Kept(run.past.state, run.event, run.state);
      assert run.event.Crash? ==> acked == [];
      SubseqRefl(acked);
      assert Subseq(acked, kept);
      SubseqConcat(AllAcked(run.past), AllKept(run.past), acked, kept);
    }
  }

  lemma LogOfLiveReplica(a: State, log: Log, v: Vol)
    requires InLockstep(a, log) && v in Live(a)
    ensures EndsBy(log.bytes, a.segment)
  {
    var r := LiveReplica(a, v);
    assert SameBytes(Platter(a.disks, v), log.bytes);
  }

  lemma LinesEndOnABoundary(lines: seq<Bytes>)
    requires AreLines(lines)
    ensures AtBoundary(Join(lines))
  {
    RecordsOfJoin(lines);
    assert Join(lines) + [] == Join(lines);
  }

  /** Lines added to the active segment of a log that ends there. */
  lemma LogGrows(log: Log, segment: nat, lines: seq<Bytes>)
    requires AreLines(lines) && WellFormed(log) && EndsBy(log.bytes, segment)
    ensures var log' := Log(log.bytes[segment := At(log.bytes, segment) + Join(lines)], segment);
            WellFormed(log') && LogRecords(log') == LogRecords(log) + lines && Within(log.bytes, log'.bytes)
  {
    var log' := Log(log.bytes[segment := At(log.bytes, segment) + Join(lines)], segment);
    LinesEndOnABoundary(lines);
    assert AtBoundary(At(log.bytes, segment));
    BoundaryAppend(At(log.bytes, segment), Join(lines));
    forall s: nat
      ensures AtBoundary(At(log'.bytes, s)) && (s > segment ==> At(log'.bytes, s) == [])
      ensures At(log.bytes, s) <= At(log'.bytes, s) && (s != segment ==> At(log'.bytes, s) == At(log.bytes, s))
    {
      assert AtBoundary(At(log.bytes, s));
    }
    HistoryAppend(log.bytes, log'.bytes, segment, lines);
    var n := log.top + segment + 1;
    HistoryEnds(log.bytes, log.top, n);
    HistoryEnds(log.bytes, segment, n);
  }

  lemma StepGrowsLog(a: State, e: Event, b: State, log: Log)
    requires InLockstep(a, log) && Next(a, e, b)
    ensures WellFormed(Extend(log, a, e, b))
    ensures LogRecords(Extend(log, a, e, b)) == LogRecords(log) + Kept(a, e, b)
    ensures Within(log.bytes, Extend(log, a, e, b).bytes)
  {
    var kept := Kept(a, e, b);
    if kept == [] {
      assert LogRecords(log) + [] == LogRecords(log);
    } else {
      var v :| v in Live(a);
      LogOfLiveReplica(a, log, v);
      LogGrows(log, a.segment, kept);
    }
  }

  lemma TrailsWithin(d: Disk, log: Disk, log': Disk)
    requires Within(log, log')
    ensures Trails(d, log) ==> Trails(d, log')
    ensures Within(d, log) ==> Trails(d, log')
  {
    forall s: nat
      ensures Trails(d, log) ==> Complete(At(d, s)) <= At(log', s)
      ensures Within(d, log) ==> Complete(At(d, s)) <= At(log', s)
    {
      CompletePrefix(At(d, s), At(d, s));
    }
  }

  // ---------------------------------------------------------------------------------------------
  // Writing and crashing.

  /** A replica that took all of an acknowledged batch is the log again; one that took part of it is a prefix. */
  lemma GrownDisk(before: Disk, after: Disk, log: Disk, s: nat, body: Bytes, n: nat)
    requires SameBytes(before, log)
    requires n <= |body| && Appended(before, after, s, body[..n])
    ensures Within(after, log[s := At(log, s) + body])
    ensures n == |body| ==> SameBytes(after, log[s := At(log, s) + body])
  {
    var log' := log[s := At(log, s) + body];
    forall t: nat
      ensures At(after, t) <= At(log', t)
      ensures n == |body| ==> At(after, t) == At(log', t)
    {
      assert At(before, t) == At(log, t);
    }
  }

  lemma EmptyBody(log: Disk, s: nat)
    ensures SameBytes(log[s := At(log, s) + Join([])], log)
  {
    assert At(log, s) + [] == At(log, s);
  }

  lemma WriteOnOneDisk(a: State, b: State, batch: seq<Bytes>, durable: set<Vol>, log: Log, v: Vol)
    requires InLockstep(a, log) && WriteEffect(a, b, batch, durable) && durable != {} && v in Live(a)
    ensures var log' := log.bytes[a.segment := At(log.bytes, a.segment) + Join(batch)];
            Within(Platter(b.disks, v), log') && (v in durable ==> SameBytes(Platter(b.disks, v), log'))
  {
    var before, after, body := Platter(a.disks, v), Platter(b.disks, v), Join(batch);
    var n := |body|;
    if v !in durable {
      n :| 0 <= n <= |body| && Appended(before, after, a.segment, body[..n]);
    } else {
      assert body[..n] == body;
    }
    GrownDisk(before, after, log.bytes, a.segment, body, n);
  }

  lemma WriteKeepsLockstep(a: State, b: State, batch: seq<Bytes>, durable: set<Vol>, log: Log)
    requires InLockstep(a, log) && Next(a, Write(batch, durable), b) && (durable == {} ==> RolledBack(a, b))
    ensures InLockstep(b, Extend(log, a, Write(batch, durable), b))
  {
    var log' := Extend(log, a, Write(batch, durable), b);
    StepGrowsLog(a, Write(batch, durable), b, log);
    forall v: Vol
      ensures Trails(Platter(b.disks, v), log'.bytes)
      ensures v in Live(b) ==> SameBytes(Platter(b.disks, v), log'.bytes)
    {
      TrailsWithin(Platter(a.disks, v), log.bytes, log'.bytes);
      if v in Live(a) && durable != {} {
        WriteOnOneDisk(a, b, batch, durable, log, v);
        EmptyBody(log.bytes, a.segment);
        TrailsWithin(Platter(b.disks, v), log'.bytes, log'.bytes);
      } else {
        assert SameBytes(Platter(a.disks, v), Platter(b.disks, v));
      }
    }
  }

  /** What is complete of a disk that was being written is within the log and the lines that survived. */
  lemma CrashOnOneDisk(a: State, b: State, batch: seq<Bytes>, log: Log, v: Vol)
    requires InLockstep(a, log) && AreLines(batch) && CrashEffect(a, b, batch) && v in Live(a)
    ensures var k := Survived(a, b, batch, |batch|);
            Complete(At(Platter(b.disks, v), a.segment)) <= At(log.bytes, a.segment) + Join(batch[..k])
  {
    var before, after := Platter(a.disks, v), Platter(b.disks, v);
    var n :| 0 <= n <= |Join(batch)| && Appended(before, after, a.segment, Join(batch)[..n]);
    assert At(before, a.segment) == At(log.bytes, a.segment);
    var j := LinesOfPrefix(batch, n);
    CompleteOfAppend(At(before, a.segment), Join(batch)[..n]);
    CompletePrefix(Join(batch)[..n], Join(batch)[..n]);
    var k := Survived(a, b, batch, |batch|);
    assert Reached(a, b, batch, j);
    JoinOfPrefix(batch, j, k);
  }

  /** The log after a crash: what survived, at the end of the segment that was being written. */
  lemma LogAfterCrash(a: State, b: State, batch: seq<Bytes>, log: Log, s: nat)
    ensures At(Extend(log, a, Crash(batch), b).bytes, s) ==
              if s == a.segment then At(log.bytes, s) + Join(batch[..Survived(a, b, batch, |batch|)]) else At(log.bytes, s)
  {
    assert At(log.bytes, s) + Join([]) == At(log.bytes, s);
  }

  lemma CrashLeavesTrailing(a: State, b: State, batch: seq<Bytes>, log: Log, v: Vol)
    requires InLockstep(a, log) && AreLines(batch) && CrashEffect(a, b, batch) && v in Live(a)
    ensures Trails(Platter(b.disks, v), Extend(log, a, Crash(batch), b).bytes)
  {
    var before, after := Platter(a.disks, v), Platter(b.disks, v);
    var n :| 0 <= n <= |Join(batch)| && Appended(before, after, a.segment, Join(batch)[..n]);
    CrashOnOneDisk(a, b, batch, log, v);
    forall s: nat
      ensures Complete(At(after, s)) <= At(Extend(log, a, Crash(batch), b).bytes, s)
    {
      LogAfterCrash(a, b, batch, log, s);
      assert s != a.segment ==> At(after, s) == At(before, s);
      assert Complete(At(before, s)) <= At(log.bytes, s);
    }
  }

  lemma CrashKeepsLockstep(a: State, b: State, batch: seq<Bytes>, log: Log)
    requires InLockstep(a, log) && Next(a, Crash(batch), b)
    ensures InLockstep(b, Extend(log, a, Crash(batch), b))
  {
    var log' := Extend(log, a, Crash(batch), b);
    StepGrowsLog(a, Crash(batch), b, log);
    forall v: Vol
      ensures Trails(Platter(b.disks, v), log'.bytes)
    {
      if v in Live(a) {
        CrashLeavesTrailing(a, b, batch, log, v);
      } else {
        TrailsWithin(Platter(a.disks, v), log.bytes, log'.bytes);
        assert SameBytes(Platter(a.disks, v), Platter(b.disks, v));
      }
    }
  }

  lemma RotateKeepsLockstep(a: State, b: State, log: Log)
    requires InLockstep(a, log) && RotateEffect(a, b) && NoneClosed(a)
    ensures InLockstep(b, log)
  {
    forall v: Vol
      ensures Trails(Platter(b.disks, v), log.bytes)
      ensures v in Live(b) ==> SameBytes(Platter(b.disks, v), log.bytes)
    {
      var before, after := Platter(a.disks, v), Platter(b.disks, v);
      assert OpenedAt(before, after, b.segment) && Trails(before, log.bytes);
      BoundaryIsComplete(Complete(At(before, b.segment)));
      if v in Live(b) {
        assert v in Elected(a);
        BoundaryIsComplete(At(log.bytes, b.segment));
      }
    }
  }

  // ---------------------------------------------------------------------------------------------
  // Re-election.

  /** Some copy the segment is put together from has all of it. */
  ghost predicate HeldInFull(a: State, sources: seq<Vol>, missed: Oversight, v: Vol, log: Log, s: nat) {
    exists x :: x in Pool(a, sources, missed, v, s) && Complete(x) == At(log.bytes, s)
  }

  /** None of those copies has a torn tail, or any other byte, that the log has not. */
  ghost predicate NoStrayTail(a: State, sources: seq<Vol>, missed: Oversight, v: Vol, log: Log, s: nat) {
    forall x :: x in Pool(a, sources, missed, v, s) ==> x <= At(log.bytes, s)
  }

  lemma PoolTrails(a: State, sources: seq<Vol>, missed: Oversight, v: Vol, log: Log, s: nat, x: Bytes)
    requires InLockstep(a, log) && PoolsTraceable(a, sources, missed) && x in Pool(a, sources, missed, v, s)
    ensures Complete(x) <= At(log.bytes, s)
  {
    assert Trails(Platter(a.disks, v), log.bytes);
    if x <= At(Platter(a.disks, v), s) {
      CompletePrefix(x, At(Platter(a.disks, v), s));
    } else {
      assert (v, s) in missed.pools ==> WithinSource(a, sources, s, x);
      var i :| 0 <= i < |sources| && x <= At(Platter(a.disks, sources[i]), s);
      assert Trails(Platter(a.disks, sources[i]), log.bytes);
      CompletePrefix(x, At(Platter(a.disks, sources[i]), s));
    }
  }

  /**
    One segment of an adopted replica: it has all of the log's exactly when some copy it was put
    together from did, and is byte for byte the log's exactly when besides, unless it was opened and
    its tail cut, none of those copies had a stray tail.
   */
  lemma AdoptedSegmentIff(a: State, b: State, sources: seq<Vol>, missed: Oversight, log: Log, v: Vol, s: nat)
    requires InLockstep(a, log) && PoolsTraceable(a, sources, missed) && AdoptedAt(a, b, sources, missed, v, s)
    requires s == b.segment ==> AtBoundary(At(Platter(b.disks, v), s))
    ensures At(log.bytes, s) <= At(Platter(b.disks, v), s) <==> HeldInFull(a, sources, missed, v, log, s)
    ensures At(Platter(b.disks, v), s) == At(log.bytes, s) <==>
              HeldInFull(a, sources, missed, v, log, s) && (s != b.segment ==> NoStrayTail(a, sources, missed, v, log, s))
  {
    var full, now := At(log.bytes, s), At(Platter(b.disks, v), s);
    BoundaryIsComplete(full);
    var y :| y in Pool(a, sources, missed, v, s) && now <= y;
    PoolTrails(a, sources, missed, v, log, s, y);
    CompletePrefix(now, y);
    if full <= now {
      CompletePrefix(full, y);
      assert Complete(y) == full;
    }
    if x :| x in Pool(a, sources, missed, v, s) && Complete(x) == full {
      assert Carried(x, now, s == b.segment);
      CompletePrefix(x, x);
      assert full <= now;
    }
    if s == b.segment {
      BoundaryIsComplete(now);
    }
  }

  /** An adopted replica is the whole log, byte for byte, exactly when that holds of every segment. */
  lemma AdoptionIsCompleteIff(a: State, b: State, unmounted: set<Vol>, sources: seq<Vol>, missed: Oversight, log: Log, v: Vol)
    requires InLockstep(a, log) && ReelectEffect(a, b, unmounted, sources, missed)
    requires v in Live(b) - Standing(a, unmounted)
    ensures SameBytes(Platter(b.disks, v), log.bytes) <==>
              forall s: nat :: && HeldInFull(a, sources, missed, v, log, s)
                               && (s != b.segment ==> NoStrayTail(a, sources, missed, v, log, s))
    ensures Within(log.bytes, Platter(b.disks, v)) <==> forall s: nat :: HeldInFull(a, sources, missed, v, log, s)
  {
    var r := LiveReplica(b, v);
    forall s: nat
      ensures At(log.bytes, s) <= At(Platter(b.disks, v), s) <==> HeldInFull(a, sources, missed, v, log, s)
      ensures At(Platter(b.disks, v), s) == At(log.bytes, s) <==>
                HeldInFull(a, sources, missed, v, log, s) && (s != b.segment ==> NoStrayTail(a, sources, missed, v, log, s))
    {
      assert AdoptedAt(a, b, sources, missed, v, s);
      AdoptedSegmentIff(a, b, sources, missed, log, v, s);
    }
  }

  lemma ReelectStaysWithin(a: State, b: State, unmounted: set<Vol>, sources: seq<Vol>, missed: Oversight, log: Log, v: Vol)
    requires InLockstep(a, log) && ReelectEffect(a, b, unmounted, sources, missed)
    ensures Trails(Platter(b.disks, v), log.bytes)
  {
    forall s: nat
      ensures Complete(At(Platter(b.disks, v), s)) <= At(log.bytes, s)
    {
      var now := At(Platter(b.disks, v), s);
      assert Trails(Platter(a.disks, v), log.bytes);
      if now <= At(Platter(a.disks, v), s) {
        CompletePrefix(now, At(Platter(a.disks, v), s));
      } else {
        var i :| 0 <= i < |sources| && now <= At(Platter(a.disks, sources[i]), s);
        assert Trails(Platter(a.disks, sources[i]), log.bytes);
        CompletePrefix(now, At(Platter(a.disks, sources[i]), s));
      }
    }
  }

  /** With a replica standing, what every adopted segment is put together from has all of it. */
  lemma StandingSourceIsFull(a: State, unmounted: set<Vol>, sources: seq<Vol>, missed: Oversight, log: Log, v: Vol, s: nat)
    requires InLockstep(a, log) && FromStanding(a, unmounted, sources, missed)
    ensures HeldInFull(a, sources, missed, v, log, s)
  {
    var u :| u in Standing(a, unmounted) && sources == [u] && PoolsHold(a, u, missed);
    assert SameBytes(Platter(a.disks, u), log.bytes);
    assert At(Platter(a.disks, u), s) == At(log.bytes, s);
    BoundaryIsComplete(At(log.bytes, s));
    assert At(Platter(a.disks, sources[0]), s) in Pool(a, sources, missed, v, s);
  }

  /**
    A step of a run in which rejected batches are rolled back, no rotation reopens a closed replica,
    and every replica adopted finds each segment of the log in full among the copies it is put
    together from, with no stray tail in a segment that is not opened again.
   */
  ghost predicate Clean(a: State, e: Event, b: State, log: Log) {
    && (e.Rotate? ==> NoneClosed(a))
    && (e.Write? && e.durable == {} ==> RolledBack(a, b))
    && (e.Reelect? ==> forall v, s: nat :: v in Live(b) - Standing(a, e.unmounted) ==>
          CleanlyAdopted(a, e.unmounted, e.sources, e.missed, b.segment, log, v, s))
  }

  ghost predicate CleanlyAdopted(a: State, unmounted: set<Vol>, sources: seq<Vol>, missed: Oversight, segment: nat, log: Log, v: Vol, s: nat) {
    && (Standing(a, unmounted) == {} ==> HeldInFull(a, sources, missed, v, log, s))
    && (s != segment ==> NoStrayTail(a, sources, missed, v, log, s))
  }

  lemma ReelectKeepsLockstep(a: State, b: State, unmounted: set<Vol>, sources: seq<Vol>, missed: Oversight, log: Log)
    requires InLockstep(a, log) && ReelectEffect(a, b, unmounted, sources, missed)
    requires Clean(a, Reelect(unmounted, sources, missed), b, log)
    ensures InLockstep(b, log)
  {
    forall v: Vol {
      ReelectStaysWithin(a, b, unmounted, sources, missed, log, v);
    }
    forall v | v in Live(b)
      ensures SameBytes(Platter(b.disks, v), log.bytes)
    {
      if v in Standing(a, unmounted) {
        assert SameBytes(Platter(a.disks, v), log.bytes);
      } else {
        AdoptionIsCompleteIff(a, b, unmounted, sources, missed, log, v);
        forall s: nat
          ensures HeldInFull(a, sources, missed, v, log, s) && (s != b.segment ==> NoStrayTail(a, sources, missed, v, log, s))
        {
          assert CleanlyAdopted(a, unmounted, sources, missed, b.segment, log, v, s);
          if Standing(a, unmounted) != {} {
            StandingSourceIsFull(a, unmounted, sources, missed, log, v, s);
          }
        }
      }
    }
  }

  // ---------------------------------------------------------------------------------------------

  lemma StepKeepsLockstep(a: State, e: Event, b: State, log: Log)
    requires InLockstep(a, log) && Next(a, e, b) && Clean(a, e, b, log)
    ensures InLockstep(b, Extend(log, a, e, b))
    ensures LogRecords(Extend(log, a, e, b)) == LogRecords(log) + Kept(a, e, b)
  {
    StepGrowsLog(a, e, b, log);
    match e
    case Write(batch, durable) => WriteKeepsLockstep(a, b, batch, durable, log);
    case Rotate => RotateKeepsLockstep(a, b, log);
    case Reelect(unmounted, sources, missed) => ReelectKeepsLockstep(a, b, unmounted, sources, missed, log);
    case Throw(unmounted) => ThrowKeeps(a, b, unmounted);
    case Crash(batch) => CrashKeepsLockstep(a, b, batch, log);
  }

  ghost predicate CleanRun(run: Trace, log: Log) {
    run.Then? ==>
      && CleanRun(run.past, log)
      && Clean(run.past.state, run.event, run.state, LogAfter(log, run.past))
  }

  /**
    Over every clean run, crashes part-way through a batch included, the open replicas are byte for
    byte one log with the same segment open; no other disk holds a complete record out of place; and
    the log holds exactly what it held at the start followed by what was acknowledged since and the
    first lines of interrupted batches that survived, each once and in order.
   */
  lemma {:induction false} LockstepOverRuns(run: Trace, log: Log)
    requires IsRun(run) && CleanRun(run, log) && InLockstep(First(run), log)
    ensures InLockstep(run.state, LogAfter(log, run))
    ensures LogRecords(LogAfter(log, run)) == LogRecords(log) + AllKept(run)
    ensures Subseq(AllAcked(run), AllKept(run))
  {
    AcknowledgedIsKept(run);
    match run
    case Begin(_) =>
      assert LogRecords(log) + [] == LogRecords(log);
    case Then(past, event, state) =>
      LockstepOverRuns(past, log);
      StepKeepsLockstep(past.state, event, state, LogAfter(log, past));
      Associative(LogRecords(log), AllKept(past), Kept(past.state, event, state));
  }

  // ---------------------------------------------------------------------------------------------
  // Coming back after a crash part-way through a batch.

  /** What the disk holds of this segment is a byte prefix of the log's. */
  ghost predicate TidyAt(a: State, log: Log, v: Vol, s: nat) {
    At(Platter(a.disks, v), s) <= At(log.bytes, s)
  }

  /** No disk has a byte the log has not, except in segments that may be torn. */
  ghost predicate TidyExcept(a: State, log: Log, torn: set<nat>) {
    forall v: Vol, s: nat :: s !in torn ==> TidyAt(a, log, v, s)
  }

  ghost predicate Tidy(a: State, log: Log) {
    TidyExcept(a, log, {})
  }

  /** What is complete of a segment cut off part-way through a batch includes every line it has all of. */
  lemma LinesBeforeTheCut(before: Bytes, batch: seq<Bytes>, n: nat, k: nat)
    requires AtBoundary(before) && AreLines(batch) && n <= |Join(batch)| && k <= |batch| && |Join(batch[..k])| <= n
    ensures before + Join(batch[..k]) <= Complete(before + Join(batch)[..n])
  {
    JoinOfPrefix(batch, k, |batch|);
    assert batch[..|batch|] == batch;
    LinesEndOnABoundary(batch[..k]);
    BoundaryAppend(before, Join(batch[..k]));
    BoundaryIsComplete(before + Join(batch[..k]));
    CompletePrefix(before + Join(batch[..k]), before + Join(batch)[..n]);
  }

  /** Among the disks that were being written, one has all the lines that survived. */
  lemma SomeDiskHasTheSurvivors(a: State, b: State, batch: seq<Bytes>, log: Log) returns (v: Vol)
    requires InLockstep(a, log) && AreLines(batch) && CrashEffect(a, b, batch) && Live(a) != {}
    ensures v in Live(a)
    ensures Complete(At(Platter(b.disks, v), a.segment)) == At(Extend(log, a, Crash(batch), b).bytes, a.segment)
  {
    var k := Survived(a, b, batch, |batch|);
    if k > 0 {
      v :| v in Live(a)
        && |At(Platter(b.disks, v), a.segment)| >= |At(Platter(a.disks, v), a.segment)| + |Join(batch[..k])|;
    } else {
      v :| v in Live(a);
    }
    LongestHasTheSurvivors(a, b, batch, log, v);
  }

  lemma LongestHasTheSurvivors(a: State, b: State, batch: seq<Bytes>, log: Log, v: Vol)
    requires InLockstep(a, log) && AreLines(batch) && CrashEffect(a, b, batch) && v in Live(a)
    requires var k := Survived(a, b, batch, |batch|);
             k > 0 ==> |At(Platter(b.disks, v), a.segment)| >= |At(Platter(a.disks, v), a.segment)| + |Join(batch[..k])|
    ensures Complete(At(Platter(b.disks, v), a.segment)) == At(Extend(log, a, Crash(batch), b).bytes, a.segment)
  {
    CrashOnOneDisk(a, b, batch, log, v);
    LogAfterCrash(a, b, batch, log, a.segment);
    var n := CutAt(a, b, batch, log, v);
    SurvivorsAreComplete(At(log.bytes, a.segment), batch, n, Survived(a, b, batch, |batch|));
  }

  /** How much of the batch reached one of the disks being written. */
  lemma CutAt(a: State, b: State, batch: seq<Bytes>, log: Log, v: Vol) returns (n: nat)
    requires InLockstep(a, log) && CrashEffect(a, b, batch) && v in Live(a)
    ensures n <= |Join(batch)| && AtBoundary(At(log.bytes, a.segment))
    ensures At(Platter(a.disks, v), a.segment) == At(log.bytes, a.segment)
    ensures At(Platter(b.disks, v), a.segment) == At(log.bytes, a.segment) + Join(batch)[..n]
  {
    n :| 0 <= n <= |Join(batch)| && Appended(Platter(a.disks, v), Platter(b.disks, v), a.segment, Join(batch)[..n]);
    assert SameBytes(Platter(a.disks, v), log.bytes);
  }

  lemma SurvivorsAreComplete(before: Bytes, batch: seq<Bytes>, n: nat, k: nat)
    requires AtBoundary(before) && AreLines(batch) && n <= |Join(batch)| && k <= |batch|
    requires k > 0 ==> |Join(batch[..k])| <= n
    requires Complete(before + Join(batch)[..n]) <= before + Join(batch[..k])
    ensures Complete(before + Join(batch)[..n]) == before + Join(batch[..k])
  {
    LinesBeforeTheCut(before, batch, n, k);
  }

  lemma CrashHeldInFull(a: State, b: State, batch: seq<Bytes>, sources: seq<Vol>, log: Log, v: Vol, s: nat)
    requires InLockstep(a, log) && AreLines(batch) && CrashEffect(a, b, batch) && Live(a) != {}
    requires forall u :: u in Live(a) ==> u in sources
    ensures HeldInFull(b, sources, NOTHING_MISSED, v, Extend(log, a, Crash(batch), b), s)
  {
    var u := SomeDiskHasTheSurvivors(a, b, batch, log);
    var i :| 0 <= i < |sources| && sources[i] == u;
    var x := At(Platter(b.disks, sources[i]), s);
    assert x in Pool(b, sources, NOTHING_MISSED, v, s);
    if s != a.segment {
      LogAfterCrash(a, b, batch, log, s);
      CrashElsewhere(a, b, batch, u, s);
      assert x == At(Platter(a.disks, u), s) == At(log.bytes, s);
      BoundaryIsComplete(x);
    }
  }

  /** A crash touches only the segment that was being written. */
  lemma CrashElsewhere(a: State, b: State, batch: seq<Bytes>, u: Vol, s: nat)
    requires CrashEffect(a, b, batch) && s != a.segment
    ensures At(Platter(b.disks, u), s) == At(Platter(a.disks, u), s)
  {
    assert if u in Live(a) then PartlyAppended(Platter(a.disks, u), Platter(b.disks, u), a.segment, Join(batch))
           else SameBytes(Platter(a.disks, u), Platter(b.disks, u));
  }

  /**
    A cold start after a crash, from every disk that was being written and with every look at a target
    succeeding: the replicas it adopts are byte for byte the log with the lines of the interrupted
    batch that survived, whatever each disk had of it, exactly when they open the segment that was
    being written or none of the copies they are put together from has a torn tail there.
   */
  lemma CrashIsRecoveredIff(a: State, batch: seq<Bytes>, b: State, unmounted: set<Vol>, sources: seq<Vol>, c: State, log: Log)
    requires InLockstep(a, log) && TidyExcept(a, log, {a.segment}) && Live(a) != {} && Next(a, Crash(batch), b)
    requires ReelectEffect(b, c, unmounted, sources, NOTHING_MISSED)
    requires forall u :: u in Live(a) ==> u in sources
    ensures var log' := Extend(log, a, Crash(batch), b);
            InLockstep(c, log') <==>
              c.segment == a.segment || forall v :: v in Live(c) ==> NoStrayTail(b, sources, NOTHING_MISSED, v, log', a.segment)
  {
    var log' := Extend(log, a, Crash(batch), b);
    CrashKeepsLockstep(a, b, batch, log);
    CrashPools(a, b, batch, sources, log);
    LockstepTurnsOn(b, c, unmounted, sources, NOTHING_MISSED, log', a.segment);
  }

  lemma LockstepTurnsOn(b: State, c: State, unmounted: set<Vol>, sources: seq<Vol>, missed: Oversight, log: Log, segment: nat)
    requires InLockstep(b, log) && ReelectEffect(b, c, unmounted, sources, missed) && Standing(b, unmounted) == {}
    requires forall v: Vol, s: nat :: HeldInFull(b, sources, missed, v, log, s)
    requires forall v: Vol, s: nat :: s != segment ==> NoStrayTail(b, sources, missed, v, log, s)
    ensures InLockstep(c, log) <==> c.segment == segment || forall v :: v in Live(c) ==> NoStrayTail(b, sources, missed, v, log, segment)
  {
    forall v | v in Live(c)
      ensures SameBytes(Platter(c.disks, v), log.bytes) <==> c.segment == segment || NoStrayTail(b, sources, missed, v, log, segment)
    {
      AdoptionTurnsOn(b, c, unmounted, sources, missed, log, v, segment);
    }
    forall v: Vol {
      ReelectStaysWithin(b, c, unmounted, sources, missed, log, v);
    }
  }

  lemma CrashPools(a: State, b: State, batch: seq<Bytes>, sources: seq<Vol>, log: Log)
    requires InLockstep(a, log) && TidyExcept(a, log, {a.segment}) && Live(a) != {} && Next(a, Crash(batch), b)
    requires forall u :: u in Live(a) ==> u in sources
    ensures forall v: Vol, s: nat :: HeldInFull(b, sources, NOTHING_MISSED, v, Extend(log, a, Crash(batch), b), s)
    ensures forall v: Vol, s: nat :: s != a.segment ==> NoStrayTail(b, sources, NOTHING_MISSED, v, Extend(log, a, Crash(batch), b), s)
  {
    forall v: Vol, s: nat
      ensures HeldInFull(b, sources, NOTHING_MISSED, v, Extend(log, a, Crash(batch), b), s)
    {
      CrashHeldInFull(a, b, batch, sources, log, v, s);
    }
    forall v: Vol, s: nat | s != a.segment
      ensures NoStrayTail(b, sources, NOTHING_MISSED, v, Extend(log, a, Crash(batch), b), s)
    {
      UntouchedByTheCrash(a, b, batch, sources, log, v, s);
    }
  }

  /** When every segment is held in full and only one may have stray tails, it all turns on that one. */
  lemma AdoptionTurnsOn(b: State, c: State, unmounted: set<Vol>, sources: seq<Vol>, missed: Oversight, log: Log, v: Vol, segment: nat)
    requires InLockstep(b, log) && ReelectEffect(b, c, unmounted, sources, missed)
    requires v in Live(c) - Standing(b, unmounted)
    requires forall s: nat :: HeldInFull(b, sources, missed, v, log, s)
    requires forall s: nat :: s != segment ==> NoStrayTail(b, sources, missed, v, log, s)
    ensures SameBytes(Platter(c.disks, v), log.bytes) <==> c.segment == segment || NoStrayTail(b, sources, missed, v, log, segment)
  {
    AdoptionIsCompleteIff(b, c, unmounted, sources, missed, log, v);
  }

  lemma UntouchedByTheCrash(a: State, b: State, batch: seq<Bytes>, sources: seq<Vol>, log: Log, v: Vol, s: nat)
    requires TidyExcept(a, log, {a.segment}) && CrashEffect(a, b, batch) && s != a.segment
    ensures NoStrayTail(b, sources, NOTHING_MISSED, v, Extend(log, a, Crash(batch), b), s)
  {
    LogAfterCrash(a, b, batch, log, s);
    forall u: Vol
      ensures At(Platter(b.disks, u), s) <= At(log.bytes, s)
    {
      assert TidyAt(a, log, u, s);
      CrashElsewhere(a, b, batch, u, s);
    }
  }

  // ---------------------------------------------------------------------------------------------
  // Full copies.

  /** The disk has every record of the log, perhaps with a torn tail. */
  ghost predicate HoldsAll(d: Disk, log: Disk) {
    forall s: nat :: Complete(At(d, s)) == At(log, s)
  }

  /** A re-election that sees the disk, from sources with no byte the log has not, leaves it with everything. */
  lemma ReelectKeepsFullDisk(a: State, b: State, unmounted: set<Vol>, sources: seq<Vol>, missed: Oversight, log: Log, v: Vol)
    requires InLockstep(a, log) && ReelectEffect(a, b, unmounted, sources, missed)
    requires HoldsAll(Platter(a.disks, v), log.bytes)
    requires forall i :: 0 <= i < |sources| ==> Within(Platter(a.disks, sources[i]), log.bytes)
    requires forall s: nat :: (v, s) !in missed.unseen
    ensures HoldsAll(Platter(b.disks, v), log.bytes)
  {
    ReelectStaysWithin(a, b, unmounted, sources, missed, log, v);
    forall s: nat
      ensures Complete(At(Platter(b.disks, v), s)) == At(log.bytes, s)
    {
      var bytes, now := At(Platter(a.disks, v), s), At(Platter(b.disks, v), s);
      CompletePrefix(bytes, bytes);
      assert !OutgrownBySource(a, sources, s, bytes) by {
        assert forall i :: 0 <= i < |sources| ==> At(Platter(a.disks, sources[i]), s) <= At(log.bytes, s);
      }
      BoundaryIsComplete(At(log.bytes, s));
      CompletePrefix(At(log.bytes, s), now);
    }
  }

  /** Between closing a replica and the next rotation there are only batches and further throws. */
  ghost predicate OnlyWrites(run: Trace) {
    run.Then? ==> OnlyWrites(run.past) && (run.event.Write? || run.event.Throw?)
  }

  /** A replica that is not open is left alone. */
  lemma {:induction false} ClosedIsUntouched(run: Trace, v: Vol)
    requires IsRun(run) && OnlyWrites(run) && Valid(First(run)) && v !in Live(First(run))
    ensures Valid(run.state) && v !in Live(run.state) && SameBytes(Platter(First(run).disks, v), Platter(run.state.disks, v))
  {
    if run.Then? {
      ClosedIsUntouched(run.past, v);
      if run.event.Throw? {
        ThrowKeeps(run.past.state, run.state, run.event.unmounted);
      } else {
        assert SameBytes(Platter(run.past.state.disks, v), Platter(run.state.disks, v));
      }
    }
  }

  lemma {:induction false} NothingAcknowledgedNothingLogged(run: Trace, log: Log)
    requires OnlyWrites(run)
    ensures AllKept(run) == AllAcked(run)
    ensures AllAcked(run) == [] ==> LogAfter(log, run) == log
  {
    if run.Then? {
      NothingAcknowledgedNothingLogged(run.past, log);
    }
  }

  lemma SameBytesSameRecords(x: Log, y: Log)
    requires WellFormed(x) && WellFormed(y) && SameBytes(x.bytes, y.bytes)
    ensures LogRecords(x) == LogRecords(y)
  {
    var n := x.top + y.top + 1;
    HistoryEnds(x.bytes, x.top, n);
    HistoryEnds(y.bytes, y.top, n);
    HistoryCongruence(x.bytes, y.bytes, n);
  }

  /** A replica that held the whole log when it was closed still does exactly when nothing has been acknowledged since. */
  lemma ClosedReplicaIsFullIff(run: Trace, log: Log, v: Vol)
    requires IsRun(run) && CleanRun(run, log) && InLockstep(First(run), log) && OnlyWrites(run)
    requires v !in Live(First(run)) && SameBytes(Platter(First(run).disks, v), log.bytes)
    ensures SameBytes(Platter(run.state.disks, v), LogAfter(log, run).bytes) <==> AllAcked(run) == []
  {
    ClosedIsUntouched(run, v);
    NothingAcknowledgedNothingLogged(run, log);
    LockstepOverRuns(run, log);
    if SameBytes(Platter(run.state.disks, v), LogAfter(log, run).bytes) {
      forall s: nat
        ensures At(log.bytes, s) == At(LogAfter(log, run).bytes, s)
      {
        assert At(Platter(First(run).disks, v), s) == At(log.bytes, s);
      }
      SameBytesSameRecords(log, LogAfter(log, run));
      assert |LogRecords(log)| == |LogRecords(log)| + |AllKept(run)|;
    }
  }

  /**
    A rotation reopens replicas that a thrown re-election closed, without seeding them. One that
    held the whole log when it was closed is back in lockstep exactly when nothing was acknowledged
    between the closing and the rotation.
   */
  lemma RotationIsCompleteIff(run: Trace, b: State, log: Log, v: Vol)
    requires IsRun(run) && CleanRun(run, log) && InLockstep(First(run), log) && OnlyWrites(run)
    requires v !in Live(First(run)) && SameBytes(Platter(First(run).disks, v), log.bytes)
    requires RotateEffect(run.state, b)
    ensures SameBytes(Platter(b.disks, v), LogAfter(log, run).bytes) <==> AllAcked(run) == []
  {
    ClosedReplicaIsFullIff(run, log, v);
    LockstepOverRuns(run, log);
    ClosedIsUntouched(run, v);
    var before, after, full := Platter(run.state.disks, v), Platter(b.disks, v), LogAfter(log, run).bytes;
    assert OpenedAt(before, after, b.segment);
    forall s: nat
      ensures At(after, s) == At(before, s)
    {
      assert At(before, s) == At(Platter(First(run).disks, v), s) == At(log.bytes, s);
      BoundaryIsComplete(At(log.bytes, s));
    }
  }
}
