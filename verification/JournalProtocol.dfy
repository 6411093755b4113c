/**
  The replicated namespace journal as a protocol: what each operation may do to the disks and
  to the replica set, and what survives every run.
 */
module JournalProtocol {
  import opened Lines
  import opened Segments

  type Vol = nat

  datatype Handle = Closed | Open(segment: nat)

  datatype Replica = Replica(vol: Vol, handle: Handle, bytes: nat)

  /** The platters of every volume, the elected set, and the number of the active segment. */
  datatype State = State(disks: map<Vol, Disk>, replicas: seq<Replica>, segment: nat)

  /** A volume that never carried the journal reads as an empty directory. */
  function Platter(disks: map<Vol, Disk>, v: Vol): Disk {
    if v in disks then disks[v] else map[]
  }

  ghost function Elected(a: State): set<Vol> {
    set r | r in a.replicas :: r.vol
  }

  ghost function Live(a: State): set<Vol> {
    set r | r in a.replicas && r.handle.Open? :: r.vol
  }

  ghost predicate DistinctVolumes(replicas: seq<Replica>) {
    forall i, j :: 0 <= i < j < |replicas| ==> replicas[i].vol != replicas[j].vol
  }

  /** An open replica appends to the active segment, on a record boundary, at the end of everything it holds. */
  ghost predicate InStep(a: State, r: Replica) {
    var d := Platter(a.disks, r.vol);
    && r.handle == Open(a.segment)
    && r.bytes == |At(d, a.segment)|
    && AtBoundary(At(d, a.segment))
    && EndsBy(d, a.segment)
  }

  /** A replica that was closed but not replaced holds nothing past the active segment either. */
  ghost predicate Placed(a: State, r: Replica) {
    if r.handle.Open? then InStep(a, r) else EndsBy(Platter(a.disks, r.vol), a.segment)
  }

  ghost predicate Valid(a: State) {
    && DistinctVolumes(a.replicas)
    && forall r :: r in a.replicas ==> Placed(a, r)
  }

  ghost predicate NoneClosed(a: State) {
    forall r :: r in a.replicas ==> r.handle.Open?
  }

  /** `after` is `before` with `bytes` added at the end of segment `s`. */
  ghost predicate Appended(before: Disk, after: Disk, s: nat, bytes: Bytes) {
    && At(after, s) == At(before, s) + bytes
    && forall t: nat :: t != s ==> At(after, t) == At(before, t)
  }

  /** Some part of `body`, from nothing to all of it, reached the platter. */
  ghost predicate PartlyAppended(before: Disk, after: Disk, s: nat, body: Bytes) {
    exists n :: 0 <= n <= |body| && Appended(before, after, s, body[..n])
  }

  /**
    One group commit. `durable` are the replicas that wrote and synced the whole batch; every other
    open replica keeps an arbitrary part of it and is out of the set.
   */
  ghost predicate WriteEffect(a: State, b: State, batch: seq<Bytes>, durable: set<Vol>) {
    && durable <= Live(a)
    && b.segment == a.segment
    && Valid(b)
    && Live(b) == durable
    && Elected(b) - Live(b) == Elected(a) - Live(a)
    && (forall v :: v !in Live(a) ==> SameBytes(Platter(a.disks, v), Platter(b.disks, v)))
    && (forall v :: v in durable ==> Appended(Platter(a.disks, v), Platter(b.disks, v), a.segment, Join(batch)))
    && (forall v :: v in Live(a) - durable ==>
          PartlyAppended(Platter(a.disks, v), Platter(b.disks, v), a.segment, Join(batch)))
  }

  /** A batch nobody acknowledged left no trace. */
  ghost predicate RolledBack(a: State, b: State) {
    forall v: Vol :: SameBytes(Platter(a.disks, v), Platter(b.disks, v))
  }

  /** Opening segment `s` for append: a torn tail may be cut off it, nothing else moves. */
  ghost predicate OpenedAt(before: Disk, after: Disk, s: nat) {
    && (At(after, s) == At(before, s) || At(after, s) == Complete(At(before, s)))
    && forall t: nat :: t != s ==> At(after, t) == At(before, t)
  }

  /** Moving on to the next segment. Every elected replica is reopened there, closed ones included. */
  ghost predicate RotateEffect(a: State, b: State) {
    && b.segment == a.segment + 1
    && Elected(b) <= Elected(a)
    && (Valid(a) ==> Valid(b))
    && NoneClosed(b)
    && forall v: Vol :: OpenedAt(Platter(a.disks, v), Platter(b.disks, v), b.segment)
  }

  ghost predicate WithinSource(a: State, sources: seq<Vol>, s: nat, bytes: Bytes) {
    exists i :: 0 <= i < |sources| && bytes <= At(Platter(a.disks, sources[i]), s)
  }

  /** Everything on the platters was there before, or is part of what a source held. */
  ghost predicate Derived(a: State, b: State, sources: seq<Vol>) {
    forall v: Vol, s: nat ::
      var bytes := At(Platter(b.disks, v), s);
      bytes <= At(Platter(a.disks, v), s) || WithinSource(a, sources, s, bytes)
  }

  ghost predicate OutgrownBySource(a: State, sources: seq<Vol>, s: nat, bytes: Bytes) {
    exists i :: 0 <= i < |sources| && bytes < At(Platter(a.disks, sources[i]), s)
  }

  /**
    What went unnoticed while targets were seeded: the segments a failed look took for absent and a
    copy may have overwritten, and for each adopted segment such a look bears on, the copies it was
    put together from instead of its own and every source's.
   */
  datatype Oversight = Oversight(unseen: set<(Vol, nat)>, pools: map<(Vol, nat), set<Bytes>>)

  const NOTHING_MISSED := Oversight({}, map[])

  /** No disk loses a record, unless a source holds strictly more of that very segment or it was overwritten unseen. */
  ghost predicate Retained(a: State, b: State, sources: seq<Vol>, unseen: set<(Vol, nat)>) {
    forall v: Vol, s: nat ::
      var bytes := At(Platter(a.disks, v), s);
      || Complete(bytes) <= At(Platter(b.disks, v), s)
      || OutgrownBySource(a, sources, s, bytes)
      || (v, s) in unseen
  }

  /** The copies a segment of an adopted volume is put together from: its own and every source's, if all looks succeeded. */
  ghost function Pool(a: State, sources: seq<Vol>, missed: Oversight, v: Vol, s: nat): set<Bytes> {
    if (v, s) in missed.pools then missed.pools[(v, s)]
    else {At(Platter(a.disks, v), s)} + (set i | 0 <= i < |sources| :: At(Platter(a.disks, sources[i]), s))
  }

  /** Still there: all of it, or without its torn tail where the segment was opened. */
  ghost predicate Carried(x: Bytes, now: Bytes, active: bool) {
    if active then Complete(x) <= now else x <= now
  }

  ghost predicate AdoptedAt(a: State, b: State, sources: seq<Vol>, missed: Oversight, v: Vol, s: nat) {
    var now := At(Platter(b.disks, v), s);
    && (forall x :: x in Pool(a, sources, missed, v, s) ==> Carried(x, now, s == b.segment))
    && (exists x :: x in Pool(a, sources, missed, v, s) && now <= x)
  }

  /** A newly adopted replica carries, segment by segment, every copy it was put together from, and nothing else. */
  ghost predicate Adopted(a: State, b: State, sources: seq<Vol>, missed: Oversight, v: Vol) {
    forall s: nat :: AdoptedAt(a, b, sources, missed, v, s)
  }

  /** Every copy in a pool was on the volume itself or is part of what a source held. */
  ghost predicate PoolsTraceable(a: State, sources: seq<Vol>, missed: Oversight) {
    forall k, x :: k in missed.pools && x in missed.pools[k] ==>
      x <= At(Platter(a.disks, k.0), k.1) || WithinSource(a, sources, k.1, x)
  }

  /** Every pool has this volume's copy in it. */
  ghost predicate PoolsHold(a: State, u: Vol, missed: Oversight) {
    forall k :: k in missed.pools ==> At(Platter(a.disks, u), k.1) in missed.pools[k]
  }

  /** Open replicas whose disk the fleet does not report as unmounted. */
  ghost function Standing(a: State, unmounted: set<Vol>): set<Vol> {
    Live(a) - unmounted
  }

  /** The only source is a standing replica, and whatever was overwritten was overwritten with its copy. */
  ghost predicate FromStanding(a: State, unmounted: set<Vol>, sources: seq<Vol>, missed: Oversight) {
    exists u :: u in Standing(a, unmounted) && sources == [u] && PoolsHold(a, u, missed)
  }

  /**
    A re-election. Replicas still standing are kept as they are; anything else is adopted only
    after being seeded from `sources`, which is a standing replica whenever there is one.
   */
  ghost predicate ReelectEffect(a: State, b: State, unmounted: set<Vol>, sources: seq<Vol>, missed: Oversight) {
    && b.segment >= a.segment
    && Valid(b)
    && NoneClosed(b)
    && (Standing(a, unmounted) != {} ==> FromStanding(a, unmounted, sources, missed))
    && Derived(a, b, sources)
    && Retained(a, b, sources, missed.unseen)
    && PoolsTraceable(a, sources, missed)
    && forall v :: v in Live(b) ==>
         if v in Standing(a, unmounted) then SameBytes(Platter(a.disks, v), Platter(b.disks, v))
         else Adopted(a, b, sources, missed, v)
  }

  /** A re-election that throws part-way has only closed the handles of unmounted replicas. */
  ghost predicate ThrowEffect(a: State, b: State, unmounted: set<Vol>) {
    && b.disks == a.disks && b.segment == a.segment
    && |b.replicas| == |a.replicas|
    && forall i :: 0 <= i < |a.replicas| ==>
         b.replicas[i] == if a.replicas[i].vol in unmounted then a.replicas[i].(handle := Closed) else a.replicas[i]
  }

  /** The process dies, perhaps part-way through writing a batch, and comes back knowing nothing. */
  ghost predicate CrashEffect(a: State, b: State, batch: seq<Bytes>) {
    && b.replicas == [] && b.segment == 0
    && forall v: Vol ::
         if v in Live(a) then PartlyAppended(Platter(a.disks, v), Platter(b.disks, v), a.segment, Join(batch))
         else SameBytes(Platter(a.disks, v), Platter(b.disks, v))
  }

  datatype Event =
    | Write(batch: seq<Bytes>, durable: set<Vol>)
    | Rotate
    | Reelect(unmounted: set<Vol>, sources: seq<Vol>, missed: Oversight)
    | Throw(unmounted: set<Vol>)
    | Crash(batch: seq<Bytes>)

  ghost predicate Next(a: State, e: Event, b: State) {
    match e
    case Write(batch, durable) => AreLines(batch) && WriteEffect(a, b, batch, durable)
    case Rotate => RotateEffect(a, b)
    case Reelect(unmounted, sources, missed) => ReelectEffect(a, b, unmounted, sources, missed)
    case Throw(unmounted) => ThrowEffect(a, b, unmounted)
    case Crash(batch) => AreLines(batch) && CrashEffect(a, b, batch)
  }

  /** What the callers were told: a batch is acknowledged when at least one replica made it durable. */
  ghost function Acked(e: Event): seq<Bytes> {
    if e.Write? && e.durable != {} then e.batch else []
  }

  /** A run, newest step outermost. */
  datatype Trace =
    | Begin(state: State)
    | Then(past: Trace, event: Event, state: State)

  ghost predicate IsRun(run: Trace) {
    run.Then? ==> IsRun(run.past) && Next(run.past.state, run.event, run.state)
  }

  ghost function First(run: Trace): State {
    if run.Begin? then run.state else First(run.past)
  }

  /** Everything acknowledged during a run, in acknowledgement order. */
  ghost function AllAcked(run: Trace): seq<Bytes> {
    if run.Begin? then [] else AllAcked(run.past) + Acked(run.event)
  }

  lemma LiveReplica(a: State, v: Vol) returns (r: Replica)
    requires v in Live(a) && Valid(a)
    ensures r in a.replicas && r.vol == v && InStep(a, r)
  {
    r :| r in a.replicas && r.handle.Open? && r.vol == v;
  }

  // ---------------------------------------------------------------------------------------------
  // Every acknowledged record is on every live replica, in order, whatever else happened.
  // ---------------------------------------------------------------------------------------------

  ghost predicate Carries(d: Disk, records: seq<Bytes>) {
    exists n: nat :: Subseq(records, History(d, n))
  }

  /** Every open replica carries everything acknowledged so far. */
  ghost predicate Safe(a: State, acked: seq<Bytes>) {
    && Valid(a)
    && forall v :: v in Live(a) ==> Subseq(acked, History(Platter(a.disks, v), a.segment + 1))
  }

  /** A source that carries the acknowledged records, and that every segment overwritten unseen was copied from. */
  ghost predicate CarriedBy(a: State, sources: seq<Vol>, missed: Oversight, acked: seq<Bytes>, i: int) {
    0 <= i < |sources| && Carries(Platter(a.disks, sources[i]), acked) && PoolsHold(a, sources[i], missed)
  }

  /**
    What a run must not do for its acknowledgements to be safe: rotate while a closed replica is
    still elected, or come back up from sources none of which carries them to every replica.
   */
  ghost predicate Careful(a: State, e: Event, acked: seq<Bytes>) {
    && (e.Rotate? ==> NoneClosed(a))
    && (e.Reelect? && Standing(a, e.unmounted) == {} && acked != [] ==>
          exists i :: CarriedBy(a, e.sources, e.missed, acked, i))
  }

  lemma CarriesWithin(d: Disk, top: nat, records: seq<Bytes>, n: nat)
    requires EndsBy(d, top) && Subseq(records, History(d, n))
    ensures Subseq(records, History(d, top + 1))
  {
    if n > top {
      HistoryEnds(d, top, n);
    } else {
      HistoryIsMonotone(d, n, top + 1);
      SubseqOfPrefix(History(d, n), History(d, top + 1));
      SubseqTrans(records, History(d, n), History(d, top + 1));
    }
  }

  lemma {:induction false} HistoryIsMonotone(d: Disk, m: nat, n: nat)
    requires m <= n
    ensures History(d, m) <= History(d, n)
  {
    if m < n {
      HistoryIsMonotone(d, m, n - 1);
    }
  }

  lemma WriteIsSafe(a: State, b: State, batch: seq<Bytes>, durable: set<Vol>, acked: seq<Bytes>)
    requires Safe(a, acked) && AreLines(batch) && WriteEffect(a, b, batch, durable)
    ensures Safe(b, acked + (if durable == {} then [] else batch))
  {
    forall v | v in Live(b)
      ensures Subseq(acked + batch, History(Platter(b.disks, v), b.segment + 1))
    {
      var r := LiveReplica(a, v);
      var before, after := Platter(a.disks, v), Platter(b.disks, v);
      HistoryAppend(before, after, a.segment, batch);
      SubseqRefl(batch);
      SubseqConcat(acked, History(before, a.segment + 1), batch, batch);
    }
    assert acked + [] == acked;
  }

  /** A replica that ended at one segment carries as much once the next is opened. */
  lemma NextSegmentCarries(before: Disk, after: Disk, segment: nat, acked: seq<Bytes>)
    requires Subseq(acked, History(before, segment + 1)) && EndsBy(before, segment)
    requires OpenedAt(before, after, segment + 1)
    ensures Subseq(acked, History(after, segment + 2))
  {
    HistoryCongruence(before, after, segment + 1);
    assert Complete([]) == [];
    CarriesWithin(after, segment + 1, acked, segment + 1);
  }

  /** A replica open after a rotation was open before, and ended at the segment then active. */
  lemma RotatedFrom(a: State, b: State, v: Vol)
    requires Valid(a) && RotateEffect(a, b) && NoneClosed(a) && v in Live(b)
    ensures v in Live(a) && EndsBy(Platter(a.disks, v), a.segment)
    ensures OpenedAt(Platter(a.disks, v), Platter(b.disks, v), a.segment + 1)
  {
    assert v in Elected(b) && v in Elected(a);
    var r :| r in a.replicas && r.vol == v;
    assert Placed(a, r);
  }

  lemma RotateIsSafe(a: State, b: State, acked: seq<Bytes>)
    requires Safe(a, acked) && RotateEffect(a, b) && NoneClosed(a)
    ensures Safe(b, acked)
  {
    forall v | v in Live(b)
      ensures Subseq(acked, History(Platter(b.disks, v), b.segment + 1))
    {
      RotatedFrom(a, b, v);
      NextSegmentCarries(Platter(a.disks, v), Platter(b.disks, v), a.segment, acked);
    }
  }

  /** A disk that grew out of one carrying the acknowledged records carries them too. */
  lemma GrowthCarries(source: Disk, after: Disk, acked: seq<Bytes>, n: nat, top: nat)
    requires Subseq(acked, History(source, n))
    requires forall s: nat :: Complete(At(source, s)) <= At(after, s)
    requires EndsBy(after, top)
    ensures Subseq(acked, History(after, top + 1))
  {
    HistoryGrows(source, after, n);
    SubseqTrans(acked, History(source, n), History(after, n));
    CarriesWithin(after, top, acked, n);
  }

  lemma SourceCarries(a: State, unmounted: set<Vol>, sources: seq<Vol>, missed: Oversight, acked: seq<Bytes>) returns (i: nat)
    requires Safe(a, acked) && acked != [] && Careful(a, Reelect(unmounted, sources, missed), acked)
    requires Standing(a, unmounted) != {} ==> FromStanding(a, unmounted, sources, missed)
    ensures CarriedBy(a, sources, missed, acked, i)
  {
    if Standing(a, unmounted) != {} {
      i := 0;
    } else {
      i :| CarriedBy(a, sources, missed, acked, i);
    }
  }

  lemma KeptReplicaIsSafe(before: Disk, after: Disk, acked: seq<Bytes>, segment: nat, top: nat)
    requires Subseq(acked, History(before, segment + 1)) && SameBytes(before, after) && EndsBy(after, top)
    ensures Subseq(acked, History(after, top + 1))
  {
    HistoryCongruence(before, after, segment + 1);
    CarriesWithin(after, top, acked, segment + 1);
  }

  lemma AdoptedReplicaIsSafe(a: State, b: State, sources: seq<Vol>, missed: Oversight, acked: seq<Bytes>, i: nat, v: Vol)
    requires CarriedBy(a, sources, missed, acked, i)
    requires Adopted(a, b, sources, missed, v) && EndsBy(Platter(b.disks, v), b.segment)
    ensures Subseq(acked, History(Platter(b.disks, v), b.segment + 1))
  {
    var source := Platter(a.disks, sources[i]);
    forall s: nat
      ensures Complete(At(source, s)) <= At(Platter(b.disks, v), s)
    {
      assert AdoptedAt(a, b, sources, missed, v, s);
      assert At(source, s) in Pool(a, sources, missed, v, s);
    }
    var n: nat :| Subseq(acked, History(source, n));
    GrowthCarries(source, Platter(b.disks, v), acked, n, b.segment);
  }

  lemma ReelectIsSafe(a: State, b: State, unmounted: set<Vol>, sources: seq<Vol>, missed: Oversight, acked: seq<Bytes>)
    requires Safe(a, acked) && ReelectEffect(a, b, unmounted, sources, missed)
    requires Careful(a, Reelect(unmounted, sources, missed), acked)
    ensures Safe(b, acked)
  {
    if acked != [] {
      var i := SourceCarries(a, unmounted, sources, missed, acked);
      forall v | v in Live(b)
        ensures Subseq(acked, History(Platter(b.disks, v), b.segment + 1))
      {
        var r := LiveReplica(b, v);
        if v in Standing(a, unmounted) {
          KeptReplicaIsSafe(Platter(a.disks, v), Platter(b.disks, v), acked, a.segment, b.segment);
        } else {
          AdoptedReplicaIsSafe(a, b, sources, missed, acked, i, v);
        }
      }
    }
  }

  lemma StepIsSafe(a: State, e: Event, b: State, acked: seq<Bytes>)
    requires Safe(a, acked) && Next(a, e, b) && Careful(a, e, acked)
    ensures Safe(b, acked + Acked(e))
  {
    assert acked + [] == acked;
    match e
    case Write(batch, durable) => WriteIsSafe(a, b, batch, durable, acked);
    case Rotate => RotateIsSafe(a, b, acked);
    case Reelect(unmounted, sources, missed) => ReelectIsSafe(a, b, unmounted, sources, missed, acked);
    case Throw(unmounted) => ThrowKeeps(a, b, unmounted);
    case Crash(batch) =>
  }

  lemma ThrowKeepsVolumes(a: State, b: State, unmounted: set<Vol>)
    requires ThrowEffect(a, b, unmounted)
    ensures Live(b) == Live(a) - unmounted && Elected(b) == Elected(a)
  {
  }

  lemma ThrowKeeps(a: State, b: State, unmounted: set<Vol>)
    requires Valid(a) && ThrowEffect(a, b, unmounted)
    ensures Valid(b) && Live(b) == Live(a) - unmounted && Elected(b) == Elected(a)
  {
    ThrowKeepsVolumes(a, b, unmounted);
    forall r | r in b.replicas
      ensures Placed(b, r)
    {
      var i :| 0 <= i < |b.replicas| && b.replicas[i] == r;
      assert Placed(a, a.replicas[i]);
    }
  }

  ghost predicate CarefulRun(run: Trace, acked: seq<Bytes>) {
    run.Then? ==>
      && CarefulRun(run.past, acked)
      && Careful(run.past.state, run.event, acked + AllAcked(run.past))
  }

  /**
    Over every careful run, with rejected batches left on the platters or not and with any
    foreign disks about, every acknowledged record is on every open replica in acknowledgement order.
   */
  lemma {:induction false} AcknowledgedIsSafe(run: Trace, acked: seq<Bytes>)
    requires IsRun(run) && CarefulRun(run, acked) && Safe(First(run), acked)
    ensures Safe(run.state, acked + AllAcked(run))
  {
    match run
    case Begin(_) =>
      assert acked + [] == acked;
    case Then(past, event, state) =>
      AcknowledgedIsSafe(past, acked);
      StepIsSafe(past.state, event, state, acked + AllAcked(past));
      Associative(acked, AllAcked(past), Acked(event));
  }

  /** No re-election that threw had closed an open replica on its way. */
  ghost predicate NoThrowCloses(run: Trace) {
    run.Then? ==>
      && NoThrowCloses(run.past)
      && (run.event.Throw? ==> Live(run.past.state) * run.event.unmounted == {})
  }

  /** Every re-election with nothing standing had a source that carries what was acknowledged. */
  ghost predicate ColdStartsFindASource(run: Trace, acked: seq<Bytes>) {
    run.Then? ==>
      && ColdStartsFindASource(run.past, acked)
      && (run.event.Rotate? || Careful(run.past.state, run.event, acked + AllAcked(run.past)))
  }

  lemma StepLeavesNoneClosed(a: State, e: Event, b: State)
    requires Valid(a) && NoneClosed(a) && Next(a, e, b)
    requires e.Throw? ==> Live(a) * e.unmounted == {}
    ensures Valid(b) && NoneClosed(b)
  {
    match e
    case Write(_, durable) =>
      forall r | r in b.replicas
        ensures r.handle.Open?
      {
        assert r.vol in Elected(b);
        assert forall v :: v in Elected(a) ==> v in Live(a);
        assert r.vol !in Elected(b) - Live(b);
        var q :| q in b.replicas && q.handle.Open? && q.vol == r.vol;
      }
    case Throw(unmounted) =>
      ThrowKeeps(a, b, unmounted);
      forall i | 0 <= i < |a.replicas|
        ensures b.replicas[i].handle.Open?
      {
        assert a.replicas[i] in a.replicas && a.replicas[i].vol in Live(a);
        assert a.replicas[i].vol !in Live(a) * unmounted;
      }
    case Rotate =>
    case Reelect(_, _, _) =>
    case Crash(_) =>
  }

  /** A closed replica is only ever left in the set by a throw, so without those every rotation is careful. */
  lemma {:induction false} QuietRunsAreCareful(run: Trace, acked: seq<Bytes>)
    requires IsRun(run) && Valid(First(run)) && NoneClosed(First(run))
    requires NoThrowCloses(run) && ColdStartsFindASource(run, acked)
    ensures Valid(run.state) && NoneClosed(run.state) && CarefulRun(run, acked)
  {
    if run.Then? {
      QuietRunsAreCareful(run.past, acked);
      StepLeavesNoneClosed(run.past.state, run.event, run.state);
    }
  }
}
