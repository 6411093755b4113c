/**
  The exclusion window of the journal: appends wait at a gate while a chain of re-elections is in
  progress, flushes chain onto the one in flight, and a re-election drains the queue before it
  copies. One event per stretch of code that runs without yielding.
 */
module JournalGate {

  type Record = nat

  /** The timer slot: empty, armed, or still occupied by a timer that has already gone off. */
  datatype Timer = NoTimer | Armed | Spent

  datatype Flight = Idle | InFlight(batch: seq<Record>)

  /**
    The re-election whose turn it is. It waits to be scheduled, then drains: chained behind a flush
    in flight, or owning the flush that took the last of the queue. Then it copies; `acked` is what
    had been acknowledged when the first source was read.
   */
  datatype Turn = Nobody | Waiting | Chained | Owning | Copying(acked: seq<Record>)

  /**
    `parked` are appends waiting for the gate and `past` those that found it open and have yet to
    queue their record; `followUps` counts flush calls chained behind the one in flight, and
    `behind` the re-elections chained behind the one whose turn it is.
   */
  datatype Gate = Gate(
    parked: multiset<Record>,
    past: multiset<Record>,
    pending: seq<Record>,
    flight: Flight,
    followUps: nat,
    timer: Timer,
    turn: Turn,
    behind: nat,
    acked: seq<Record>,
    rejected: multiset<Record>)

  const START := Gate(multiset{}, multiset{}, [], Idle, 0, NoTimer, Nobody, 0, [], multiset{})

  predicate Open(g: Gate) {
    g.turn.Nobody?
  }

  /** Another re-election joins the end of the chain. */
  function Chain(g: Gate): Gate {
    if g.turn.Nobody? then g.(turn := Waiting) else g.(behind := g.behind + 1)
  }

  /** A call of flush that nobody chained: it starts a batch, finds nothing to do, or chains itself. */
  function CallFlush(g: Gate): Gate {
    if g.flight.InFlight? then g.(followUps := g.followUps + 1)
    else if g.pending == [] then g.(timer := NoTimer)
    else g.(timer := NoTimer, flight := InFlight(g.pending), pending := [])
  }

  /** Queueing a record: a full batch is flushed at once, otherwise a timer is armed if the slot is free. */
  function Enqueue(g: Gate, r: Record, full: bool): Gate {
    var queued := g.(pending := g.pending + [r]);
    if full then CallFlush(queued)
    else queued.(timer := if g.timer.NoTimer? then Armed else g.timer)
  }

  /** The re-election whose turn it is calls flush, and then waits for what that call returned. */
  function CallDrain(g: Gate): Gate {
    if g.flight.InFlight? then g.(turn := Chained)
    else if g.pending == [] then g.(timer := NoTimer, turn := Copying(g.acked))
    else CallFlush(g).(turn := Owning)
  }

  datatype Event =
    | Arrive(r: Record)
    | Pass(r: Record)
    | Queue(r: Record, full: bool)
    | Refuse(r: Record)
    | Revive(r: Record)
    | Fire
    | Flush
    | FollowUp
    | Settle(durable: bool, reelect: bool)
    | Reelect
    | StartDrain
    | RetryDrain
    | Drained
    | Finish

  /** What may happen next. A record is refused, or calls a re-election of its own, when there is no replica. */
  predicate Enabled(g: Gate, e: Event) {
    match e
    case Arrive(_) => true
    case Pass(r) => r in g.parked && Open(g)
    case Queue(r, _) => r in g.past
    case Refuse(r) => r in g.past
    case Revive(r) => r in g.past
    case Fire => g.timer.Armed?
    case Flush => true
    case FollowUp => g.flight.Idle? && g.followUps > 0
    case Settle(_, _) => g.flight.InFlight?
    case Reelect => true
    case StartDrain => g.turn.Waiting?
    case RetryDrain => g.turn.Chained? && g.flight.Idle?
    case Drained => g.turn.Owning? && g.flight.Idle?
    case Finish => g.turn.Copying?
  }

  function After(g: Gate, e: Event): Gate
    requires Enabled(g, e)
  {
    match e
    case Arrive(r) => g.(parked := g.parked + multiset{r})
    case Pass(r) => g.(parked := g.parked - multiset{r}, past := g.past + multiset{r})
    case Queue(r, full) => Enqueue(g.(past := g.past - multiset{r}), r, full)
    case Refuse(r) => g.(past := g.past - multiset{r}, rejected := g.rejected + multiset{r})
    case Revive(r) => g.(past := g.past - multiset{r}, parked := g.parked + multiset{r},
                         turn := if g.turn.Nobody? then Waiting else g.turn)
    case Fire => CallFlush(g.(timer := Spent))
    case Flush => CallFlush(g)
    case FollowUp => CallFlush(g.(followUps := g.followUps - 1))
    case Settle(durable, reelect) =>
      var done := if durable then g.(acked := g.acked + g.flight.batch)
                  else g.(rejected := g.rejected + multiset(g.flight.batch));
      if reelect then Chain(done.(flight := Idle)) else done.(flight := Idle)
    case Reelect => Chain(g)
    case StartDrain => CallDrain(g)
    case RetryDrain => CallDrain(g)
    case Drained => g.(turn := Copying(g.acked))
    case Finish => if g.behind > 0 then g.(turn := Waiting, behind := g.behind - 1) else g.(turn := Nobody)
  }

  /** A run, newest event outermost, with the state each event led to. */
  datatype Run =
    | Begin(state: Gate)
    | Then(before: Run, event: Event, state: Gate)

  predicate Possible(run: Run) {
    match run
    case Begin(state) => state == START
    case Then(before, event, state) => Possible(before) && Enabled(before.state, event) && state == After(before.state, event)
  }

  /**
    The scheduler runs an append that found the gate open to its queueing before a re-election
    chained after it gets to drain: one turn of the microtask queue against at least two.
   */
  predicate InOrder(run: Run) {
    run.Then? ==> InOrder(run.before) && (run.event.StartDrain? ==> run.before.state.past == multiset{})
  }

  /** Nothing has been acknowledged since the sources were read, and nothing is about to be. */
  predicate Sealed(g: Gate) {
    && (!g.turn.Nobody? && !g.turn.Waiting? ==> g.past == multiset{})
    && (g.turn.Owning? ==> g.pending == [])
    && (g.turn.Copying? ==> g.pending == [] && g.flight.Idle? && g.acked == g.turn.acked)
  }

  lemma StepStaysSealed(g: Gate, e: Event)
    requires Sealed(g) && Enabled(g, e) && (e.StartDrain? ==> g.past == multiset{})
    ensures Sealed(After(g, e))
  {
    match e {
      case Queue(r, full) =>
        assert r in g.past;
        assert g.turn.Nobody? || g.turn.Waiting?;
      case Pass(_) =>
      case Settle(_, _) =>
      case _ =>
    }
  }

  /**
    In every interleaving of appends, timers, flushes and chained re-elections: while a copy is
    running the queue is empty, no flush is running and none of the acknowledged records is newer
    than what the copy reads.
   */
  lemma {:induction false} NothingIsAcknowledgedDuringACopy(run: Run)
    requires Possible(run) && InOrder(run)
    ensures Sealed(run.state)
  {
    if run.Then? {
      NothingIsAcknowledgedDuringACopy(run.before);
      StepStaysSealed(run.before.state, run.event);
    }
  }

  /** Whatever happens next while a copy runs, up to and including its end, acknowledges nothing. */
  lemma CopyWindowIsQuiet(run: Run)
    requires Possible(run) && InOrder(run) && run.Then? && run.before.state.turn.Copying?
    ensures run.state.acked == run.before.state.turn.acked
    ensures run.state.pending == [] && run.state.flight.Idle?
  {
    NothingIsAcknowledgedDuringACopy(run.before);
    StepStaysSealed(run.before.state, run.event);
  }

  function Do(run: Run, e: Event): (next: Run)
    requires Possible(run) && Enabled(run.state, e)
    ensures Possible(next) && next == Then(run, e, After(run.state, e))
  {
    Then(run, e, After(run.state, e))
  }

  lemma SlipsThrough() returns (run: Run)
    ensures Possible(run) && !InOrder(run)
    ensures run.state == START.(past := multiset{7}, turn := Copying([]))
  {
    var passed := Do(Do(Begin(START), Arrive(7)), Pass(7));
    assert passed.state == START.(past := multiset{7});
    run := Do(Do(passed, Reelect), StartDrain);
    assert 7 in run.before.state.past;
  }

  /** Without the scheduler's order, one append that slips between its check and its queueing breaks the window. */
  lemma OrderIsNeeded() returns (run: Run)
    ensures Possible(run) && !InOrder(run)
    ensures run.state.turn == Copying([]) && run.state.acked == [7]
  {
    var copying := SlipsThrough();
    var queued := Do(copying, Queue(7, true));
    run := Do(queued, Settle(true, false));
  }

  // ---------------------------------------------------------------------------------------------

  /** How often a record is anywhere: waiting, queued, being written, acknowledged or rejected. */
  function Count(g: Gate, r: Record): nat {
    g.parked[r] + g.past[r] + multiset(g.pending)[r] + (if g.flight.InFlight? then multiset(g.flight.batch)[r] else 0)
    + multiset(g.acked)[r] + g.rejected[r]
  }

  function TimesAppended(run: Run, r: Record): nat {
    if run.Begin? then 0
    else TimesAppended(run.before, r) + (if run.event == Arrive(r) then 1 else 0)
  }

  lemma QueueCounts(g: Gate, q: Record, full: bool, r: Record)
    requires q in g.past
    ensures Count(After(g, Queue(q, full)), r) == Count(g, r)
  {
    var queued := g.(past := g.past - multiset{q}, pending := g.pending + [q]);
    assert multiset(g.pending + [q]) == multiset(g.pending) + multiset{q};
    assert Count(queued, r) == Count(g, r);
    FlushCounts(queued, r);
  }

  lemma SettleCounts(g: Gate, durable: bool, reelect: bool, r: Record)
    requires g.flight.InFlight?
    ensures Count(After(g, Settle(durable, reelect)), r) == Count(g, r)
  {
    assert multiset(g.acked + g.flight.batch) == multiset(g.acked) + multiset(g.flight.batch);
  }

  lemma StepCounts(g: Gate, e: Event, r: Record)
    requires Enabled(g, e)
    ensures Count(After(g, e), r) == Count(g, r) + (if e == Arrive(r) then 1 else 0)
  {
    if e.Queue? {
      QueueCounts(g, e.r, e.full, r);
    } else if e.Settle? {
      SettleCounts(g, e.durable, e.reelect, r);
    } else if e.Arrive? || e.Pass? || e.Refuse? || e.Revive? {
      MoveCounts(g, e, r);
    } else if e.Reelect? || e.Drained? || e.Finish? {
      TurnCounts(g, e, r);
    } else {
      FlushStepCounts(g, e, r);
    }
  }

  lemma TurnCounts(g: Gate, e: Event, r: Record)
    requires Enabled(g, e) && (e.Reelect? || e.Drained? || e.Finish?)
    ensures Count(After(g, e), r) == Count(g, r)
  {
  }

  lemma FlushStepCounts(g: Gate, e: Event, r: Record)
    requires Enabled(g, e) && (e.Fire? || e.Flush? || e.FollowUp? || e.StartDrain? || e.RetryDrain?)
    ensures Count(After(g, e), r) == Count(g, r)
  {
    if e.Fire? {
      FlushCounts(g.(timer := Spent), r);
    } else if e.FollowUp? {
      FlushCounts(g.(followUps := g.followUps - 1), r);
    } else {
      FlushCounts(g, r);
    }
  }

  lemma FlushCounts(g: Gate, r: Record)
    ensures Count(CallFlush(g), r) == Count(g, r)
  {
  }

  lemma MoveCounts(g: Gate, e: Event, r: Record)
    requires Enabled(g, e) && (e.Arrive? || e.Pass? || e.Refuse? || e.Revive?)
    ensures Count(After(g, e), r) == Count(g, r) + (if e == Arrive(r) then 1 else 0)
  {
  }

  /** A record waits, is acknowledged or is rejected exactly as often as it was appended: none is lost, none is doubled. */
  lemma {:induction false} EveryRecordIsAccountedFor(run: Run, r: Record)
    requires Possible(run)
    ensures Count(run.state, r) == TimesAppended(run, r)
  {
    if run.Then? {
      EveryRecordIsAccountedFor(run.before, r);
      StepCounts(run.before.state, run.event, r);
    }
  }

  /** A queued record has something coming for it: a timer, a chained flush, or a drain. */
  predicate Attended(g: Gate) {
    && (g.timer.Spent? ==> g.followUps > 0)
    && (g.pending != [] ==> g.timer.Armed? || g.followUps > 0 || g.turn.Chained?)
  }

  /** No queued record is ever stranded. */
  lemma {:induction false} NoRecordIsStranded(run: Run)
    requires Possible(run)
    ensures Attended(run.state)
  {
    if run.Then? {
      NoRecordIsStranded(run.before);
      StepAttends(run.before.state, run.event);
    }
  }

  lemma StepAttends(g: Gate, e: Event)
    requires Attended(g) && Enabled(g, e)
    ensures Attended(After(g, e))
  {
    if e.Queue? {
      FlushAttends(g.(past := g.past - multiset{e.r}, pending := g.pending + [e.r]));
    } else if e.Fire? || e.Flush? || e.FollowUp? || e.StartDrain? || e.RetryDrain? {
      FlushStepAttends(g, e);
    } else {
      OtherStepAttends(g, e);
    }
  }

  lemma FlushStepAttends(g: Gate, e: Event)
    requires Attended(g) && Enabled(g, e) && (e.Fire? || e.Flush? || e.FollowUp? || e.StartDrain? || e.RetryDrain?)
    ensures Attended(After(g, e))
  {
  }

  lemma OtherStepAttends(g: Gate, e: Event)
    requires Attended(g) && Enabled(g, e) && !e.Queue? && !(e.Fire? || e.Flush? || e.FollowUp? || e.StartDrain? || e.RetryDrain?)
    ensures Attended(After(g, e))
  {
  }

  lemma FlushAttends(g: Gate)
    requires g.timer.Spent? ==> g.followUps > 0
    ensures Attended(CallFlush(g))
  {
  }

  // ---------------------------------------------------------------------------------------------
  // Nothing that was asked for is forgotten.

  /** Whether this event asks for a re-election: by a fleet change, by a degraded write, or by an append that finds no replica. */
  function Asks(g: Gate, e: Event): nat {
    if e.Reelect? || (e.Settle? && e.reelect) || (e.Revive? && g.turn.Nobody?) then 1 else 0
  }

  function TimesAsked(run: Run): nat {
    if run.Begin? then 0 else TimesAsked(run.before) + Asks(run.before.state, run.event)
  }

  function TimesRebuilt(run: Run): nat {
    if run.Begin? then 0 else TimesRebuilt(run.before) + (if run.event.Finish? then 1 else 0)
  }

  /**
    Every re-election that was asked for has run, is having its turn, or is chained behind that one; and
    the gate opens only when the chain is at its end.
   */
  lemma {:induction false} EveryReelectionRuns(run: Run)
    requires Possible(run)
    ensures TimesAsked(run) == TimesRebuilt(run) + (if run.state.turn.Nobody? then 0 else 1) + run.state.behind
    ensures Open(run.state) ==> TimesAsked(run) == TimesRebuilt(run)
  {
    if run.Then? {
      EveryReelectionRuns(run.before);
      StepKeepsTheChain(run.before.state, run.event);
      ChainIsNotSkipped(run);
    }
  }

  lemma StepKeepsTheChain(g: Gate, e: Event)
    requires Enabled(g, e)
    ensures var g' := After(g, e);
            (if g'.turn.Nobody? then 0 else 1) + g'.behind + (if e.Finish? then 1 else 0)
              == (if g.turn.Nobody? then 0 else 1) + g.behind + Asks(g, e)
  {
  }

  lemma {:induction false} ChainIsNotSkipped(run: Run)
    requires Possible(run)
    ensures Open(run.state) ==> run.state.behind == 0
  {
    if run.Then? {
      ChainIsNotSkipped(run.before);
      StepSkipsNobody(run.before.state, run.event);
    }
  }

  lemma StepSkipsNobody(g: Gate, e: Event)
    requires Enabled(g, e) && (Open(g) ==> g.behind == 0)
    ensures Open(After(g, e)) ==> After(g, e).behind == 0
  {
  }

  /** Whether this event calls flush while one is in flight, and so has to be followed up. */
  function Chains(g: Gate, e: Event): nat {
    if g.flight.InFlight? && (e.Fire? || e.Flush? || (e.Queue? && e.full)) then 1 else 0
  }

  function TimesChained(run: Run): nat {
    if run.Begin? then 0 else TimesChained(run.before) + Chains(run.before.state, run.event)
  }

  function TimesFollowedUp(run: Run): nat {
    if run.Begin? then 0 else TimesFollowedUp(run.before) + (if run.event.FollowUp? then 1 else 0)
  }

  /** Every flush that was called while another was in flight has been followed up, or is going to be. */
  lemma {:induction false} EveryFlushIsFollowedUp(run: Run)
    requires Possible(run)
    ensures TimesChained(run) == TimesFollowedUp(run) + run.state.followUps
  {
    if run.Then? {
      EveryFlushIsFollowedUp(run.before);
      StepKeepsFollowUps(run.before.state, run.event);
    }
  }

  lemma StepKeepsFollowUps(g: Gate, e: Event)
    requires Enabled(g, e)
    ensures After(g, e).followUps + (if e.FollowUp? then 1 else 0) == g.followUps + Chains(g, e)
  {
  }
}
