/**
  Opening the active segment on every replica, and rotating to the next one.
 */
module JournalOpen {
  import opened Lines
  import opened Segments
  import opened JournalProtocol

  /** The torn tail is gone, unless opening failed before it was cut. */
  ghost predicate TailCut(before: Disk, after: Disk, s: nat, opening: Opening) {
    At(after, s) == if opening == Fails(false) then At(before, s) else Complete(At(before, s))
  }

  /** Opening one replica: it works, or it fails before or after the torn tail was cut. */
  datatype Opening = Opens | Fails(trimmed: bool)

  /** Replica `r` as it comes out of opening segment `a.segment`, given its disk afterwards. */
  ghost predicate OpenedReplica(a: State, b: State, r: Replica) {
    || (r in a.replicas && r.handle.Open? && Platter(b.disks, r.vol) == Platter(a.disks, r.vol))
    || (&& r.handle == Open(a.segment)
        && (exists q :: q in a.replicas && q.vol == r.vol && q.handle.Closed?)
        && OpenedAt(Platter(a.disks, r.vol), Platter(b.disks, r.vol), a.segment)
        && At(Platter(b.disks, r.vol), a.segment) == Complete(At(Platter(a.disks, r.vol), a.segment))
        && r.bytes == |At(Platter(b.disks, r.vol), a.segment)|)
  }

  /** Every replica left is open, and only torn tails of the active segment were touched. */
  ghost predicate OpenEffect(a: State, b: State) {
    && b.segment == a.segment
    && DistinctVolumes(b.replicas)
    && Elected(b) <= Elected(a)
    && (forall r :: r in b.replicas ==> OpenedReplica(a, b, r))
    && (forall v: Vol :: OpenedAt(Platter(a.disks, v), Platter(b.disks, v), a.segment))
    && (forall v: Vol :: v !in Elected(a) ==> Platter(b.disks, v) == Platter(a.disks, v))
  }

  function TrimmedDisk(d: Disk, s: nat, kept: Bytes): Disk {
    d[s := kept]
  }

  lemma TrimmingOpens(d: Disk, s: nat)
    ensures OpenedAt(d, TrimmedDisk(d, s, Complete(At(d, s))), s)
    ensures OpenedAt(d, d, s)
  {
  }

  ghost predicate Progress(a: State, disks: map<Vol, Disk>, ready: seq<Replica>, i: nat)
    requires i <= |a.replicas|
  {
    var b := State(disks, ready, a.segment);
    && DistinctVolumes(ready)
    && (forall r :: r in ready ==> OpenedReplica(a, b, r) && exists j :: 0 <= j < i && a.replicas[j].vol == r.vol)
    && (forall v: Vol :: OpenedAt(Platter(a.disks, v), Platter(disks, v), a.segment))
    && (forall v: Vol :: (forall j :: 0 <= j < i ==> a.replicas[j].vol != v) ==> Platter(disks, v) == Platter(a.disks, v))
  }

  lemma Advance(a: State, disks: map<Vol, Disk>, ready: seq<Replica>, i: nat,
                disks': map<Vol, Disk>, ready': seq<Replica>)
    requires i < |a.replicas| && DistinctVolumes(a.replicas)
    requires Progress(a, disks, ready, i)
    requires var v := a.replicas[i].vol;
             && disks' == disks[v := Platter(disks', v)]
             && OpenedAt(Platter(a.disks, v), Platter(disks', v), a.segment)
             && (ready' == ready ||
                 exists r: Replica :: r.vol == v && ready' == ready + [r] && OpenedReplica(a, State(disks', ready', a.segment), r))
    ensures Progress(a, disks', ready', i + 1)
  {
    var v := a.replicas[i].vol;
    assert forall j :: 0 <= j < i ==> a.replicas[j].vol != v;
    assert forall u :: u != v ==> Platter(disks', u) == Platter(disks, u);
    var b := State(disks, ready, a.segment);
    var b' := State(disks', ready', a.segment);
    forall r | r in ready
      ensures r.vol != v && OpenedReplica(a, b', r)
    {
      assert OpenedReplica(a, b, r);
    }
    forall r | r in ready'
      ensures OpenedReplica(a, b', r) && exists j :: 0 <= j < i + 1 && a.replicas[j].vol == r.vol
    {
      if r !in ready {
        assert r.vol == a.replicas[i].vol;
      }
    }
  }

  /** A replica that stays in the set. */
  predicate StaysIn(r: Replica, opening: Vol -> Opening) {
    r.handle.Open? || opening(r.vol).Opens?
  }

  /** Open the segment on one replica: cut a torn tail, open for append, note the size. */
  method OpenOne(a: State, r: Replica, opening: Opening) returns (d: Disk, r': Replica)
    requires r in a.replicas && r.handle.Closed?
    ensures OpenedAt(Platter(a.disks, r.vol), d, a.segment)
    ensures r'.vol == r.vol
    ensures TailCut(Platter(a.disks, r.vol), d, a.segment, opening)
    ensures opening.Opens? ==> forall b: State :: Platter(b.disks, r.vol) == d ==> OpenedReplica(a, b, r')
  {
    d := Platter(a.disks, r.vol);
    TrimmingOpens(d, a.segment);
    var kept := RollBackTornTail(At(d, a.segment));
    if opening != Fails(false) {
      d := TrimmedDisk(d, a.segment, kept);
    }
    r' := Replica(r.vol, Open(a.segment), |kept|);
  }

  ghost predicate Ready(ready: seq<Replica>, v: Vol) {
    exists r :: r in ready && r.vol == v
  }

  /** Of the first `i` replicas exactly those that should stay are ready. */
  ghost predicate ThoseThatStay(a: State, ready: seq<Replica>, i: nat, opening: Vol -> Opening)
    requires i <= |a.replicas|
  {
    && (forall j :: 0 <= j < i ==> (StaysIn(a.replicas[j], opening) <==> Ready(ready, a.replicas[j].vol)))
    && (forall r :: r in ready ==> exists j :: 0 <= j < i && a.replicas[j].vol == r.vol)
  }

  lemma OneMoreStays(a: State, ready: seq<Replica>, i: nat, opening: Vol -> Opening, ready': seq<Replica>)
    requires i < |a.replicas| && DistinctVolumes(a.replicas) && ThoseThatStay(a, ready, i, opening)
    requires if StaysIn(a.replicas[i], opening)
             then |ready'| == |ready| + 1 && ready' == ready + [ready'[|ready|]] && ready'[|ready|].vol == a.replicas[i].vol
             else ready' == ready
    ensures ThoseThatStay(a, ready', i + 1, opening)
  {
    var v := a.replicas[i].vol;
    assert !Ready(ready, v);
    assert StaysIn(a.replicas[i], opening) ==> Ready(ready', v);
    forall j | 0 <= j < i
      ensures Ready(ready', a.replicas[j].vol) <==> Ready(ready, a.replicas[j].vol)
    {
      assert a.replicas[j].vol != v;
    }
    forall r | r in ready'
      ensures exists j :: 0 <= j <= i && a.replicas[j].vol == r.vol
    {
      if r in ready {
        var j :| 0 <= j < i && a.replicas[j].vol == r.vol;
      } else {
        assert a.replicas[i].vol == r.vol;
      }
    }
  }

  /** Of the first `i` replicas, those that had to be opened have had their torn tails cut. */
  ghost predicate TailsCut(a: State, disks: map<Vol, Disk>, i: nat, opening: Vol -> Opening)
    requires i <= |a.replicas|
  {
    forall j :: 0 <= j < i && a.replicas[j].handle.Closed? ==>
      TailCut(Platter(a.disks, a.replicas[j].vol), Platter(disks, a.replicas[j].vol), a.segment, opening(a.replicas[j].vol))
  }

  lemma OneMoreTailCut(a: State, disks: map<Vol, Disk>, disks': map<Vol, Disk>, i: nat, opening: Vol -> Opening)
    requires i < |a.replicas| && DistinctVolumes(a.replicas) && TailsCut(a, disks, i, opening)
    requires forall v :: v != a.replicas[i].vol ==> Platter(disks', v) == Platter(disks, v)
    requires var v := a.replicas[i].vol;
             a.replicas[i].handle.Closed? ==> TailCut(Platter(a.disks, v), Platter(disks', v), a.segment, opening(v))
    ensures TailsCut(a, disks', i + 1, opening)
  {
  }

  /** The next replica's turn. */
  method OpenNext(a: State, disks: map<Vol, Disk>, ready: seq<Replica>, i: nat, opening: Vol -> Opening)
    returns (disks': map<Vol, Disk>, ready': seq<Replica>)
    requires DistinctVolumes(a.replicas) && i < |a.replicas|
    requires Progress(a, disks, ready, i) && ThoseThatStay(a, ready, i, opening) && TailsCut(a, disks, i, opening)
    ensures Progress(a, disks', ready', i + 1) && ThoseThatStay(a, ready', i + 1, opening) && TailsCut(a, disks', i + 1, opening)
  {
    var r := a.replicas[i];
    assert forall j :: 0 <= j < i ==> a.replicas[j].vol != r.vol;
    var d := Platter(disks, r.vol);
    ready' := ready;
    if r.handle.Open? {
      ready' := ready + [r];
    } else {
      var r';
      d, r' := OpenOne(a, r, opening(r.vol));
      if opening(r.vol).Opens? {
        ready' := ready + [r'];
      }
    }
    disks' := disks[r.vol := d];
    OneMoreTailCut(a, disks, disks', i, opening);
    Advance(a, disks, ready, i, disks', ready');
    OneMoreStays(a, ready, i, opening, ready');
  }

  /** Open the active segment on every replica that is not open; the ones that cannot be opened are out. */
  method OpenAll(a: State, opening: Vol -> Opening) returns (b: State)
    requires DistinctVolumes(a.replicas)
    ensures OpenEffect(a, b)
    ensures ThoseThatStay(a, b.replicas, |a.replicas|, opening)
    ensures TailsCut(a, b.disks, |a.replicas|, opening)
  {
    var disks: map<Vol, Disk> := a.disks;
    var ready: seq<Replica> := [];
    var i := 0;
    while i < |a.replicas|
      invariant 0 <= i <= |a.replicas|
      invariant Progress(a, disks, ready, i)
      invariant ThoseThatStay(a, ready, i, opening)
      invariant TailsCut(a, disks, i, opening)
    {
      disks, ready := OpenNext(a, disks, ready, i, opening);
      i := i + 1;
    }
    b := State(disks, ready, a.segment);
    AllOpened(a, b);
  }

  lemma AllOpened(a: State, b: State)
    requires b.segment == a.segment && Progress(a, b.disks, b.replicas, |a.replicas|)
    ensures OpenEffect(a, b)
  {
  }

  function AllClosed(replicas: seq<Replica>): (r: seq<Replica>)
    ensures |r| == |replicas|
    ensures forall i :: 0 <= i < |r| ==> r[i] == replicas[i].(handle := Closed)
  {
    seq(|replicas|, i requires 0 <= i < |replicas| => replicas[i].(handle := Closed))
  }

  lemma ElectedWhenClosed(a: State, segment: nat)
    ensures Elected(State(a.disks, AllClosed(a.replicas), segment)) == Elected(a)
    ensures DistinctVolumes(a.replicas) ==> DistinctVolumes(AllClosed(a.replicas))
  {
  }

  /** Moving to the next segment on replicas that all ended at the last one. */
  lemma OpeningTheNextSegment(a: State, mid: State, b: State)
    requires DistinctVolumes(a.replicas)
    requires mid == State(a.disks, AllClosed(a.replicas), a.segment + 1) && OpenEffect(mid, b)
    ensures NoneClosed(b) && Elected(b) <= Elected(a)
    ensures Valid(a) ==> Valid(b)
  {
    ElectedWhenClosed(a, a.segment + 1);
    if Valid(a) {
      forall r | r in b.replicas
        ensures InStep(b, r)
      {
        assert OpenedReplica(mid, b, r);
        assert r.vol in Elected(b) && r.vol in Elected(a);
        var q :| q in a.replicas && q.vol == r.vol;
        assert q.handle.Open? ==> InStep(a, q);
      }
    }
  }

  /** Some open replica has filled its segment, by the length it has noted. */
  predicate Full(a: State, segmentBytes: nat) {
    exists r :: r in a.replicas && r.handle.Open? && r.bytes >= segmentBytes
  }

  /** In a valid set it is the files themselves that say so. */
  lemma FullIff(a: State, segmentBytes: nat)
    requires Valid(a)
    ensures Full(a, segmentBytes) <==> exists v :: v in Live(a) && |At(Platter(a.disks, v), a.segment)| >= segmentBytes
  {
    if r :| r in a.replicas && r.handle.Open? && r.bytes >= segmentBytes {
      assert Placed(a, r) && r.vol in Live(a);
    }
    if v :| v in Live(a) && |At(Platter(a.disks, v), a.segment)| >= segmentBytes {
      var r := LiveReplica(a, v);
    }
  }

  /** Exactly the elected replicas that open are in the set afterwards. */
  lemma ReopenedAre(a: State, mid: State, b: State, opening: Vol -> Opening)
    requires DistinctVolumes(a.replicas) && mid == State(a.disks, AllClosed(a.replicas), a.segment + 1)
    requires OpenEffect(mid, b) && ThoseThatStay(mid, b.replicas, |mid.replicas|, opening)
    ensures forall v :: v in Live(b) <==> v in Elected(a) && opening(v).Opens?
  {
    forall v
      ensures v in Live(b) <==> v in Elected(a) && opening(v).Opens?
    {
      if v in Live(b) {
        var r :| r in b.replicas && r.vol == v;
        var j :| 0 <= j < |mid.replicas| && mid.replicas[j].vol == v;
        assert Ready(b.replicas, v) && StaysIn(mid.replicas[j], opening);
        assert a.replicas[j] in a.replicas;
      }
      if v in Elected(a) && opening(v).Opens? {
        var j :| 0 <= j < |a.replicas| && a.replicas[j].vol == v;
        assert StaysIn(mid.replicas[j], opening) && Ready(b.replicas, v);
        var r :| r in b.replicas && r.vol == v;
        assert OpenedReplica(mid, b, r);
      }
    }
  }

  /** Rotate when some open replica has filled its segment. */
  method RotateIfNeeded(a: State, segmentBytes: nat, opening: Vol -> Opening) returns (b: State)
    requires DistinctVolumes(a.replicas)
    ensures if Full(a, segmentBytes) then RotateEffect(a, b) else b == a
    ensures Full(a, segmentBytes) ==> forall v :: v in Live(b) <==> v in Elected(a) && opening(v).Opens?
  {
    if !Full(a, segmentBytes) {
      return a;
    }
    ElectedWhenClosed(a, a.segment + 1);
    b := OpenAll(State(a.disks, AllClosed(a.replicas), a.segment + 1), opening);
    OpeningTheNextSegment(a, State(a.disks, AllClosed(a.replicas), a.segment + 1), b);
    ReopenedAre(a, State(a.disks, AllClosed(a.replicas), a.segment + 1), b, opening);
  }
}
