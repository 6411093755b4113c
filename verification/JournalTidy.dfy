/**
  The byte form of lockstep. A crash can leave a torn tail in the segment that was being written, and
  nothing else can: everywhere else, what a disk holds is a byte prefix of the log, a replica that
  dropped out of the set included.
 */
module JournalTidy {
  import opened Lines
  import opened Segments
  import opened JournalProtocol
  import opened JournalLockstep

  /** A crash adds the segment it interrupted, if any disk was being written, to those that may be torn. */
  ghost function TornBy(a: State, e: Event): set<nat> {
    if e.Crash? && Live(a) != {} then {a.segment} else {}
  }

  /** The segments that may be torn after a run. */
  ghost function Torn(run: Trace, torn: set<nat>): set<nat> {
    if run.Begin? then torn else Torn(run.past, torn) + TornBy(run.past.state, run.event)
  }

  /**
    A step of a run in which rejected batches are rolled back, no rotation reopens a closed replica, a
    cold start finds every segment of the log in full, and what a crash tore is cut off before it is
    copied: it is opened again, or none of the copies has it.
   */
  ghost predicate Orderly(a: State, e: Event, b: State, log: Log, torn: set<nat>) {
    && (e.Rotate? ==> NoneClosed(a))
    && (e.Write? && e.durable == {} ==> RolledBack(a, b))
    && (e.Reelect? && Standing(a, e.unmounted) == {} ==> forall v, s: nat :: v in Live(b) ==> HeldInFull(a, e.sources, e.missed, v, log, s))
    && (e.Reelect? ==> forall v, s: nat :: v in Live(b) - Standing(a, e.unmounted) && s in torn && s != b.segment ==>
          NoStrayTail(a, e.sources, e.missed, v, log, s))
  }

  ghost predicate OrderlyRun(run: Trace, log: Log, torn: set<nat>) {
    run.Then? ==>
      && OrderlyRun(run.past, log, torn)
      && Orderly(run.past.state, run.event, run.state, LogAfter(log, run.past), Torn(run.past, torn))
  }

  /** Where nothing is torn, no copy a segment is put together from has a stray tail. */
  lemma TidyPool(a: State, sources: seq<Vol>, missed: Oversight, log: Log, torn: set<nat>, v: Vol, s: nat)
    requires TidyExcept(a, log, torn) && PoolsTraceable(a, sources, missed) && s !in torn
    ensures NoStrayTail(a, sources, missed, v, log, s)
  {
    forall x | x in Pool(a, sources, missed, v, s)
      ensures x <= At(log.bytes, s)
    {
      assert TidyAt(a, log, v, s);
      if !(x <= At(Platter(a.disks, v), s)) {
        assert (v, s) in missed.pools ==> WithinSource(a, sources, s, x);
        var i :| 0 <= i < |sources| && x <= At(Platter(a.disks, sources[i]), s);
        assert TidyAt(a, log, sources[i], s);
      }
    }
  }

  lemma OrderlyIsClean(a: State, e: Event, b: State, log: Log, torn: set<nat>)
    requires TidyExcept(a, log, torn) && Next(a, e, b) && Orderly(a, e, b, log, torn)
    ensures Clean(a, e, b, log)
  {
    if e.Reelect? {
      forall v, s: nat | v in Live(b) - Standing(a, e.unmounted)
        ensures CleanlyAdopted(a, e.unmounted, e.sources, e.missed, b.segment, log, v, s)
      {
        if s !in torn {
          TidyPool(a, e.sources, e.missed, log, torn, v, s);
        }
      }
    }
  }

  lemma WriteKeepsTidy(a: State, b: State, batch: seq<Bytes>, durable: set<Vol>, log: Log, torn: set<nat>, v: Vol, s: nat)
    requires InLockstep(a, log) && TidyExcept(a, log, torn) && s !in torn
    requires WriteEffect(a, b, batch, durable) && AreLines(batch) && (durable == {} ==> RolledBack(a, b))
    ensures TidyAt(b, Extend(log, a, Write(batch, durable), b), v, s)
  {
    var log' := Extend(log, a, Write(batch, durable), b);
    StepGrowsLog(a, Write(batch, durable), b, log);
    assert TidyAt(a, log, v, s);
    if v in Live(a) && durable != {} {
      WriteOnOneDisk(a, b, batch, durable, log, v);
      EmptyBody(log.bytes, a.segment);
      assert At(Platter(b.disks, v), s) <= At(log.bytes[a.segment := At(log.bytes, a.segment) + Join(batch)], s);
    } else {
      assert SameBytes(Platter(a.disks, v), Platter(b.disks, v));
      assert At(log.bytes, s) <= At(log'.bytes, s);
    }
  }

  lemma RotateKeepsTidy(a: State, b: State, log: Log, torn: set<nat>, v: Vol, s: nat)
    requires TidyExcept(a, log, torn) && RotateEffect(a, b) && s !in torn
    ensures TidyAt(b, log, v, s)
  {
    assert TidyAt(a, log, v, s);
    assert OpenedAt(Platter(a.disks, v), Platter(b.disks, v), b.segment);
    CompletePrefix(At(Platter(a.disks, v), s), At(Platter(a.disks, v), s));
  }

  lemma ReelectKeepsTidy(a: State, b: State, sources: seq<Vol>, log: Log, torn: set<nat>, v: Vol, s: nat)
    requires TidyExcept(a, log, torn) && Derived(a, b, sources) && s !in torn
    ensures TidyAt(b, log, v, s)
  {
    var now := At(Platter(b.disks, v), s);
    assert TidyAt(a, log, v, s);
    if !(now <= At(Platter(a.disks, v), s)) {
      var i :| 0 <= i < |sources| && now <= At(Platter(a.disks, sources[i]), s);
      assert TidyAt(a, log, sources[i], s);
    }
  }

  lemma CrashKeepsTidy(a: State, b: State, batch: seq<Bytes>, log: Log, torn: set<nat>, v: Vol, s: nat)
    requires TidyExcept(a, log, torn) && CrashEffect(a, b, batch) && s !in torn + TornBy(a, Crash(batch))
    ensures TidyAt(b, Extend(log, a, Crash(batch), b), v, s)
  {
    assert TidyAt(a, log, v, s);
    LogAfterCrash(a, b, batch, log, s);
    if Live(a) == {} {
      assert v !in Live(a);
      assert SameBytes(Platter(a.disks, v), Platter(b.disks, v));
    } else {
      CrashElsewhere(a, b, batch, v, s);
    }
  }

  /** One step of such a run is clean, and tears nothing but the segment a crash interrupts. */
  lemma StepKeepsTidy(a: State, e: Event, b: State, log: Log, torn: set<nat>)
    requires InLockstep(a, log) && TidyExcept(a, log, torn) && Next(a, e, b) && Orderly(a, e, b, log, torn)
    ensures Clean(a, e, b, log)
    ensures InLockstep(b, Extend(log, a, e, b)) && TidyExcept(b, Extend(log, a, e, b), torn + TornBy(a, e))
  {
    OrderlyIsClean(a, e, b, log, torn);
    StepKeepsLockstep(a, e, b, log);
    forall v: Vol, s: nat | s !in torn + TornBy(a, e)
      ensures TidyAt(b, Extend(log, a, e, b), v, s)
    {
      match e
      case Write(batch, durable) => WriteKeepsTidy(a, b, batch, durable, log, torn, v, s);
      case Rotate => RotateKeepsTidy(a, b, log, torn, v, s);
      case Reelect(_, sources, _) => ReelectKeepsTidy(a, b, sources, log, torn, v, s);
      case Throw(_) => assert TidyAt(a, log, v, s);
      case Crash(batch) => CrashKeepsTidy(a, b, batch, log, torn, v, s);
    }
  }

  /**
    Over every orderly run each step is clean, so the open replicas are one log; and on every other
    disk each segment that no crash interrupted is a byte prefix of that log.
   */
  lemma {:induction false} RunsStayTidy(run: Trace, log: Log, torn: set<nat>)
    requires IsRun(run) && OrderlyRun(run, log, torn)
    requires InLockstep(First(run), log) && TidyExcept(First(run), log, torn)
    ensures CleanRun(run, log)
    ensures InLockstep(run.state, LogAfter(log, run))
    ensures TidyExcept(run.state, LogAfter(log, run), Torn(run, torn))
  {
    if run.Then? {
      RunsStayTidy(run.past, log, torn);
      StepKeepsTidy(run.past.state, run.event, run.state, LogAfter(log, run.past), Torn(run.past, torn));
    }
  }

  ghost predicate NoCrash(run: Trace) {
    run.Then? ==> NoCrash(run.past) && !run.event.Crash?
  }

  lemma {:induction false} NothingIsTorn(run: Trace)
    requires NoCrash(run)
    ensures Torn(run, {}) == {}
  {
    if run.Then? {
      NothingIsTorn(run.past);
    }
  }

  /**
    A replica that dropped out of the set is a byte prefix of the live ones: over every run without a
    crash in which rejected batches are rolled back, no rotation reopens a closed replica and a cold
    start finds every segment in full.
   */
  lemma DroppedReplicaIsAPrefix(run: Trace, log: Log)
    requires IsRun(run) && NoCrash(run) && OrderlyRun(run, log, {})
    requires InLockstep(First(run), log) && Tidy(First(run), log)
    ensures CleanRun(run, log) && InLockstep(run.state, LogAfter(log, run)) && Tidy(run.state, LogAfter(log, run))
    ensures forall u, v: Vol :: u in Live(run.state) ==> Within(Platter(run.state.disks, v), Platter(run.state.disks, u))
  {
    NothingIsTorn(run);
    RunsStayTidy(run, log, {});
    forall u, v: Vol | u in Live(run.state)
      ensures Within(Platter(run.state.disks, v), Platter(run.state.disks, u))
    {
      forall s: nat
        ensures At(Platter(run.state.disks, v), s) <= At(Platter(run.state.disks, u), s)
      {
        assert TidyAt(run.state, LogAfter(log, run), v, s);
        assert SameBytes(Platter(run.state.disks, u), LogAfter(log, run).bytes);
      }
    }
  }

  // ---------------------------------------------------------------------------------------------
  // What becomes of a torn tail that is not cut off.

  /** While there are only batches, the log grows at the end of one segment by what is acknowledged. */
  lemma {:induction false} OnlyWritesGrow(run: Trace, log: Log)
    requires IsRun(run) && OnlyWrites(run)
    ensures run.state.segment == First(run).segment
    ensures At(LogAfter(log, run).bytes, run.state.segment) == At(log.bytes, run.state.segment) + Join(AllAcked(run))
  {
    if run.Begin? {
      assert At(log.bytes, run.state.segment) + [] == At(log.bytes, run.state.segment);
    } else {
      OnlyWritesGrow(run.past, log);
      JoinAppend(AllAcked(run.past), Acked(run.event));
      Associative(At(log.bytes, run.state.segment), Join(AllAcked(run.past)), Join(Acked(run.event)));
      if Acked(run.event) == [] {
        assert AllAcked(run) == AllAcked(run.past);
      }
    }
  }

  lemma PrefixAfter(before: Bytes, tail: Bytes, logged: Bytes)
    ensures before + tail <= before + logged <==> tail <= logged
  {
    if before + tail <= before + logged {
      assert tail == (before + tail)[|before|..] && (before + logged)[|before|..] == logged;
      assert (before + logged)[..|before + tail|] == before + tail;
      assert logged[..|tail|] == tail;
    }
    if tail <= logged {
      assert (before + logged)[..|before + tail|] == before + logged[..|tail|];
    }
  }

  /**
    A disk that was left with every record of the active segment and a torn tail is a byte prefix of
    the log, after any number of further batches, exactly when the tail is how they begin.
   */
  lemma TornStaysAPrefixIff(run: Trace, log: Log, v: Vol, tail: Bytes)
    requires IsRun(run) && OnlyWrites(run) && Valid(First(run)) && v !in Live(First(run))
    requires At(Platter(First(run).disks, v), First(run).segment) == At(log.bytes, First(run).segment) + tail
    ensures TidyAt(run.state, LogAfter(log, run), v, run.state.segment) <==> tail <= Join(AllAcked(run))
  {
    OnlyWritesGrow(run, log);
    ClosedIsUntouched(run, v);
    PrefixAfter(At(log.bytes, run.state.segment), tail, Join(AllAcked(run)));
  }
}
