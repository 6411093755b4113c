/**
  The coalescing write() of the bootstrap manifest: one pass at a time, at most one follow-up, and
  a promise that means "a pass that saw my change has finished".
 */
module ManifestWrites {
  import opened Prelude

  type Caller = nat

  /**
    What a caller is waiting for: the pass its call started, or, having been coalesced into pass
    `k`, whatever pass is trailing once `k` is over.
   */
  datatype Wait = OnPass(n: nat) | AfterPass(k: nat) | Resolved

  /** A caller, and how many passes had started when it called. */
  datatype Call = Call(calledAt: nat, wait: Wait)

  /**
    Passes are numbered in the order they start. `pending` is the one in flight, `trailing` the
    follow-up coalesced callers are to wait for; `during` counts the calls that came in the course
    of the pass in flight.
   */
  datatype Writer = Writer(
    started: nat,
    pending: Option<nat>,
    queued: bool,
    trailing: Option<nat>,
    calls: map<Caller, Call>,
    during: nat)

  const IDLE := Writer(0, None, false, None, map[], 0)

  datatype Event =
    | Write(c: Caller)
    | EndPass
    | Continue(c: Caller)
    | Resolve(c: Caller)

  /** Passes run one after the other, so all those started are over but the one in flight. */
  predicate Over(w: Writer, n: nat) {
    n < w.started && w.pending != Some(n)
  }

  predicate Enabled(w: Writer, e: Event) {
    match e
    case Write(c) => c !in w.calls
    case EndPass => w.pending.Some?
    case Continue(c) => c in w.calls && w.calls[c].wait.AfterPass? && Over(w, w.calls[c].wait.k)
    case Resolve(c) => c in w.calls && w.calls[c].wait.OnPass? && Over(w, w.calls[c].wait.n)
  }

  function StartPass(w: Writer): Writer {
    w.(pending := Some(w.started), started := w.started + 1, during := 0)
  }

  function Waiting(w: Writer, c: Caller, wait: Wait): Writer
    requires c in w.calls
  {
    w.(calls := w.calls[c := w.calls[c].(wait := wait)])
  }

  function After(w: Writer, e: Event): Writer
    requires Enabled(w, e)
  {
    match e
    case Write(c) =>
      if w.pending.Some? then
        w.(queued := true, during := w.during + 1, calls := w.calls[c := Call(w.started, AfterPass(w.pending.value))])
      else StartPass(w).(calls := w.calls[c := Call(w.started, OnPass(w.started))])
    case EndPass =>
      if w.queued then StartPass(w.(queued := false)).(trailing := Some(w.started))
      else w.(pending := None, trailing := None, during := 0)
    case Continue(c) => Waiting(w, c, if w.trailing.Some? then OnPass(w.trailing.value) else Resolved)
    case Resolve(c) => Waiting(w, c, Resolved)
  }

  /** A caller that has not called yet may do so at any time, and waits from then on. */
  lemma AnyoneMayCall(w: Writer, c: Caller)
    requires c !in w.calls
    ensures Enabled(w, Write(c)) && c in After(w, Write(c)).calls && After(w, Write(c)).calls[c].calledAt == w.started
    ensures !After(w, Write(c)).calls[c].wait.Resolved? && After(w, Write(c)).pending.Some?
  {
  }

  /** A pass that started after the call has finished. */
  predicate Served(w: Writer, call: Call) {
    exists n :: call.calledAt <= n < w.started && Over(w, n)
  }

  /** What a caller waits for is, or is followed by, a pass that started after its call. */
  predicate WaitsForItsOwn(w: Writer, call: Call) {
    match call.wait
    case OnPass(n) => call.calledAt <= n < w.started
    case AfterPass(k) => k + 1 == call.calledAt <= w.started && (Over(w, k) ==> call.calledAt < w.started)
                         && (w.pending == Some(k) ==> w.queued)
                         && (w.pending == Some(k + 1) ==> w.trailing == w.pending)
    case Resolved => Served(w, call)
  }

  predicate Orderly(w: Writer) {
    && (w.pending.Some? ==> w.started == w.pending.value + 1)
    && (w.trailing.Some? ==> w.trailing == w.pending)
    && (w.queued <==> w.during > 0)
    && (w.queued ==> w.pending.Some?)
    && forall c :: c in w.calls ==> WaitsForItsOwn(w, w.calls[c])
  }

  lemma StepIsOrderly(w: Writer, e: Event)
    requires Orderly(w) && Enabled(w, e)
    ensures Orderly(After(w, e))
  {
    var v := After(w, e);
    forall c | c in v.calls
      ensures WaitsForItsOwn(v, v.calls[c])
    {
      if c in w.calls {
        assert WaitsForItsOwn(w, w.calls[c]);
        if w.calls[c].wait.Resolved? {
          var n :| w.calls[c].calledAt <= n < w.started && Over(w, n);
          assert Over(v, n);
        }
      }
      if e.Continue? && e.c == c && w.trailing.None? {
        assert Over(v, v.calls[c].calledAt);
      }
      if e.Resolve? && e.c == c {
        assert Over(v, w.calls[c].wait.n);
      }
    }
  }

  datatype Run =
    | Start(state: Writer)
    | Then(before: Run, event: Event, state: Writer)

  ghost predicate Possible(run: Run) {
    match run
    case Start(state) => state == IDLE
    case Then(before, event, state) => Possible(before) && Enabled(before.state, event) && state == After(before.state, event)
  }

  lemma {:induction false} AlwaysOrderly(run: Run)
    requires Possible(run)
    ensures Orderly(run.state)
  {
    if run.Then? {
      AlwaysOrderly(run.before);
      StepIsOrderly(run.before.state, run.event);
    }
  }

  /** In every run: a promise of write() that has resolved means a pass that started after the call is over. */
  lemma ResolvedMeansSeen(run: Run, c: Caller)
    requires Possible(run) && c in run.state.calls && run.state.calls[c].wait.Resolved?
    ensures exists n :: run.state.calls[c].calledAt <= n < run.state.started && Over(run.state, n)
  {
    AlwaysOrderly(run);
    assert WaitsForItsOwn(run.state, run.state.calls[c]);
  }

  /** In every run: any number of calls during one pass, and only then, cause exactly one follow-up, begun as the pass ends. */
  lemma ExactlyOneFollowUp(run: Run)
    requires Possible(run) && run.Then? && run.event.EndPass?
    ensures var w, v := run.before.state, run.state;
            && (w.during > 0 ==> v.started == w.started + 1 && v.pending == Some(w.started))
            && (w.during == 0 ==> v.started == w.started && v.pending == None)
            && v.during == 0
  {
    AlwaysOrderly(run.before);
  }

  function CallsMade(run: Run): nat {
    if run.Start? then 0 else CallsMade(run.before) + (if run.event.Write? then 1 else 0)
  }

  /** No pass runs that nobody asked for. */
  lemma {:induction false} PassesAreAskedFor(run: Run)
    requires Possible(run)
    ensures run.state.started + (if run.state.queued then 1 else 0) <= CallsMade(run)
  {
    if run.Then? {
      PassesAreAskedFor(run.before);
    }
  }

  /** And nobody waits for ever: a caller still waiting waits for a pass that is over, in flight, or bound to follow. */
  lemma NobodyIsForgotten(run: Run, c: Caller)
    requires Possible(run) && c in run.state.calls && !run.state.calls[c].wait.Resolved?
    ensures || Enabled(run.state, Continue(c)) || Enabled(run.state, Resolve(c))
            || (run.state.pending.Some? && run.state.pending.value ==
                  (if run.state.calls[c].wait.OnPass? then run.state.calls[c].wait.n else run.state.calls[c].wait.k))
  {
    AlwaysOrderly(run);
    assert WaitsForItsOwn(run.state, run.state.calls[c]);
  }
}
