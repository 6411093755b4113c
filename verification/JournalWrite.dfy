/**
  Writing a batch to every open replica, and taking it back when nobody made it durable.
 */
module JournalWrite {
  import opened Lines
  import opened Segments
  import opened JournalProtocol

  /** What one replica's write and sync came to: all of it proven, or some bytes and a failure. */
  datatype Outcome = Durable | Failed(written: nat)

  function Grow(d: Disk, s: nat, bytes: Bytes): Disk {
    d[s := At(d, s) + bytes]
  }

  function Upto(bytes: Bytes, n: nat): Bytes {
    if n < |bytes| then bytes[..n] else bytes
  }

  /** A replica's disk after its turn. */
  function AfterTurn(d: Disk, r: Replica, body: Bytes, outcome: Vol -> Outcome): Disk {
    if r.handle.Closed? then d
    else match outcome(r.vol)
      case Durable => Grow(d, r.handle.segment, body)
      case Failed(n) => Grow(d, r.handle.segment, Upto(body, n))
  }

  /** Who is still in the set after their turn: a replica that failed is out, one that was closed was not asked. */
  function Survivors(replicas: seq<Replica>, n: nat, outcome: Vol -> Outcome): seq<Replica> {
    if replicas == [] then []
    else
      var front := Survivors(replicas[..|replicas| - 1], n, outcome);
      front + Survivor(replicas[|replicas| - 1], n, outcome)
  }

  function Survivor(r: Replica, n: nat, outcome: Vol -> Outcome): seq<Replica> {
    if r.handle.Closed? then [r]
    else if outcome(r.vol).Durable? then [r.(bytes := r.bytes + n)]
    else []
  }

  lemma OneMoreSurvivor(replicas: seq<Replica>, i: nat, n: nat, outcome: Vol -> Outcome)
    requires i < |replicas|
    ensures Survivors(replicas[..i + 1], n, outcome) ==
            Survivors(replicas[..i], n, outcome) + Survivor(replicas[i], n, outcome)
  {
    assert replicas[..i + 1][..i] == replicas[..i];
  }

  /** A survivor is a closed replica as it was, or an open one that succeeded and moved on by the batch. */
  ghost predicate SurvivorOf(r: Replica, q: Replica, n: nat, outcome: Vol -> Outcome) {
    if r.handle.Closed? then q == r else outcome(r.vol).Durable? && q == r.(bytes := r.bytes + n)
  }

  ghost predicate ComesFrom(replicas: seq<Replica>, q: Replica, n: nat, outcome: Vol -> Outcome) {
    exists r :: r in replicas && SurvivorOf(r, q, n, outcome)
  }

  lemma LastSurvivor(r: Replica, n: nat, outcome: Vol -> Outcome)
    ensures forall q :: q in Survivor(r, n, outcome) <==> SurvivorOf(r, q, n, outcome)
    ensures |Survivor(r, n, outcome)| <= 1
  {
  }

  /** The survivors are the replicas that were not asked and those that succeeded, each moved on. */
  lemma {:induction false} SurvivorsAre(replicas: seq<Replica>, n: nat, outcome: Vol -> Outcome)
    ensures forall q :: q in Survivors(replicas, n, outcome) <==> ComesFrom(replicas, q, n, outcome)
  {
    if replicas != [] {
      var k := |replicas| - 1;
      var front, last := replicas[..k], replicas[k];
      SurvivorsAre(front, n, outcome);
      LastSurvivor(last, n, outcome);
      forall q
        ensures q in Survivors(replicas, n, outcome) <==> ComesFrom(replicas, q, n, outcome)
      {
        assert ComesFrom(front, q, n, outcome) ==> ComesFrom(replicas, q, n, outcome) by {
          assert forall r :: r in front ==> r in replicas;
        }
        assert SurvivorOf(last, q, n, outcome) ==> ComesFrom(replicas, q, n, outcome) by {
          assert last in replicas;
        }
        if ComesFrom(replicas, q, n, outcome) {
          var r :| r in replicas && SurvivorOf(r, q, n, outcome);
          assert r in front || r == last;
        }
      }
    }
  }

  lemma {:induction false} SurvivorsAreDistinct(replicas: seq<Replica>, n: nat, outcome: Vol -> Outcome)
    requires DistinctVolumes(replicas)
    ensures DistinctVolumes(Survivors(replicas, n, outcome))
  {
    if replicas != [] {
      var k := |replicas| - 1;
      var front, last := replicas[..k], replicas[k];
      SurvivorsAreDistinct(front, n, outcome);
      SurvivorsAre(front, n, outcome);
      LastSurvivor(last, n, outcome);
      forall q | q in Survivors(front, n, outcome)
        ensures q.vol != last.vol
      {
        var r :| r in front && SurvivorOf(r, q, n, outcome);
      }
    }
  }

  lemma DistinctMembers(replicas: seq<Replica>, q: Replica, r: Replica)
    requires DistinctVolumes(replicas) && q in replicas && r in replicas && q.vol == r.vol
    ensures q == r
  {
  }

  /** The volumes a batch was made durable on are those that are live afterwards; the closed ones stay closed. */
  lemma SurvivingVolumes(a: State, b: State, n: nat, outcome: Vol -> Outcome)
    requires DistinctVolumes(a.replicas)
    requires b.replicas == Survivors(a.replicas, n, outcome)
    ensures forall v :: v in Live(b) <==> v in Live(a) && outcome(v).Durable?
    ensures Elected(b) - Live(b) == Elected(a) - Live(a)
  {
    SurvivorsAre(a.replicas, n, outcome);
    forall v
      ensures v in Live(b) <==> v in Live(a) && outcome(v).Durable?
    {
      if v in Live(b) {
        var q :| q in b.replicas && q.handle.Open? && q.vol == v;
        assert ComesFrom(a.replicas, q, n, outcome);
      }
      if v in Live(a) && outcome(v).Durable? {
        var r :| r in a.replicas && r.handle.Open? && r.vol == v;
        var q := r.(bytes := r.bytes + n);
        assert SurvivorOf(r, q, n, outcome) && ComesFrom(a.replicas, q, n, outcome);
      }
    }
    forall v | v in Elected(b) - Live(b)
      ensures v in Elected(a) - Live(a)
    {
      var q :| q in b.replicas && q.vol == v;
      assert q.handle.Closed? && ComesFrom(a.replicas, q, n, outcome);
      assert q in a.replicas;
    }
    forall v | v in Elected(a) - Live(a)
      ensures v in Elected(b)
    {
      var r :| r in a.replicas && r.vol == v;
      assert SurvivorOf(r, r, n, outcome) && ComesFrom(a.replicas, r, n, outcome);
    }
  }

  ghost function Volumes(replicas: seq<Replica>, i: nat): set<Vol>
    requires i <= |replicas|
  {
    set j | 0 <= j < i :: replicas[j].vol
  }

  /** Every disk is where its own turn left it. */
  ghost predicate TurnsTaken(a: State, disks: map<Vol, Disk>, i: nat, body: Bytes, outcome: Vol -> Outcome)
    requires i <= |a.replicas|
  {
    && (forall j :: 0 <= j < i ==>
          Platter(disks, a.replicas[j].vol) ==
          AfterTurn(Platter(a.disks, a.replicas[j].vol), a.replicas[j], body, outcome))
    && (forall v :: v !in Volumes(a.replicas, i) ==> Platter(disks, v) == Platter(a.disks, v))
  }

  lemma NextTurn(a: State, disks: map<Vol, Disk>, disks': map<Vol, Disk>, i: nat, body: Bytes, outcome: Vol -> Outcome)
    requires i < |a.replicas| && DistinctVolumes(a.replicas)
    requires TurnsTaken(a, disks, i, body, outcome)
    requires var r := a.replicas[i];
             disks' == disks[r.vol := AfterTurn(Platter(a.disks, r.vol), r, body, outcome)]
             || (r.handle.Closed? && disks' == disks)
    ensures TurnsTaken(a, disks', i + 1, body, outcome)
  {
    var r := a.replicas[i];
    assert r.vol !in Volumes(a.replicas, i);
    forall v | v !in Volumes(a.replicas, i + 1)
      ensures Platter(disks', v) == Platter(a.disks, v)
    {
      assert v != r.vol && v !in Volumes(a.replicas, i);
    }
  }

  lemma GrowAppends(d: Disk, s: nat, body: Bytes, n: nat)
    ensures Appended(d, Grow(d, s, body), s, body)
    ensures PartlyAppended(d, Grow(d, s, Upto(body, n)), s, body)
  {
    var k := if n < |body| then n else |body|;
    assert Upto(body, n) == body[..k];
    assert Appended(d, Grow(d, s, body[..k]), s, body[..k]);
  }

  lemma DisksAfterWrite(a: State, disks: map<Vol, Disk>, body: Bytes, outcome: Vol -> Outcome, v: Vol)
    requires Valid(a) && TurnsTaken(a, disks, |a.replicas|, body, outcome)
    ensures v !in Live(a) ==> Platter(disks, v) == Platter(a.disks, v)
    ensures v in Live(a) && outcome(v).Durable? ==> Appended(Platter(a.disks, v), Platter(disks, v), a.segment, body)
    ensures v in Live(a) && !outcome(v).Durable? ==>
              PartlyAppended(Platter(a.disks, v), Platter(disks, v), a.segment, body)
  {
    if j :| 0 <= j < |a.replicas| && a.replicas[j].vol == v {
      var r := a.replicas[j];
      assert r in a.replicas;
      if v in Live(a) {
        var r' := LiveReplica(a, v);
        DistinctMembers(a.replicas, r, r');
        GrowAppends(Platter(a.disks, v), a.segment, body, if outcome(v).Failed? then outcome(v).written else 0);
      }
    }
  }

  lemma SurvivorInStep(a: State, b: State, batch: seq<Bytes>, outcome: Vol -> Outcome, r: Replica, q: Replica)
    requires Valid(a) && AreLines(batch) && b.segment == a.segment
    requires TurnsTaken(a, b.disks, |a.replicas|, Join(batch), outcome)
    requires r in a.replicas && SurvivorOf(r, q, |Join(batch)|, outcome)
    ensures Placed(b, q)
  {
    var body := Join(batch);
    assert Placed(a, r);
    DisksAfterWrite(a, b.disks, body, outcome, r.vol);
    if r.handle.Open? {
      assert r.vol in Live(a);
      assert AtBoundary(body) by { RecordsOfJoin(batch); }
      BoundaryAppend(At(Platter(a.disks, r.vol), a.segment), body);
    } else {
      ClosedIsNotLive(a, r);
    }
  }

  lemma ClosedIsNotLive(a: State, r: Replica)
    requires DistinctVolumes(a.replicas) && r in a.replicas && r.handle.Closed?
    ensures r.vol !in Live(a)
  {
  }

  lemma SurvivorsInStep(a: State, b: State, batch: seq<Bytes>, outcome: Vol -> Outcome)
    requires Valid(a) && AreLines(batch) && b.segment == a.segment
    requires b.replicas == Survivors(a.replicas, |Join(batch)|, outcome)
    requires TurnsTaken(a, b.disks, |a.replicas|, Join(batch), outcome)
    ensures Valid(b)
  {
    var body := Join(batch);
    SurvivorsAre(a.replicas, |body|, outcome);
    SurvivorsAreDistinct(a.replicas, |body|, outcome);
    forall q | q in b.replicas
      ensures Placed(b, q)
    {
      var r :| r in a.replicas && SurvivorOf(r, q, |body|, outcome);
      SurvivorInStep(a, b, batch, outcome, r, q);
    }
  }

  /** Every replica has had its turn: that is one group commit. */
  lemma EveryTurnTaken(a: State, b: State, batch: seq<Bytes>, outcome: Vol -> Outcome)
    requires Valid(a) && AreLines(batch) && b.segment == a.segment
    requires b.replicas == Survivors(a.replicas, |Join(batch)|, outcome)
    requires TurnsTaken(a, b.disks, |a.replicas|, Join(batch), outcome)
    ensures WriteEffect(a, b, batch, Live(b))
    ensures forall v :: v in Live(b) <==> v in Live(a) && outcome(v).Durable?
  {
    SurvivorsInStep(a, b, batch, outcome);
    SurvivingVolumes(a, b, |Join(batch)|, outcome);
    forall v: Vol {
      DisksAfterWrite(a, b.disks, Join(batch), outcome, v);
    }
  }

  /** The next replica's turn, if it is open. */
  method WriteToOne(a: State, disks: map<Vol, Disk>, i: nat, body: Bytes, outcome: Vol -> Outcome) returns (disks': map<Vol, Disk>)
    requires i < |a.replicas| && DistinctVolumes(a.replicas)
    requires TurnsTaken(a, disks, i, body, outcome)
    ensures TurnsTaken(a, disks', i + 1, body, outcome)
  {
    var r := a.replicas[i];
    assert Platter(disks, r.vol) == Platter(a.disks, r.vol) by {
      assert r.vol !in Volumes(a.replicas, i);
    }
    disks' := if r.handle.Open? then disks[r.vol := AfterTurn(Platter(disks, r.vol), r, body, outcome)] else disks;
    NextTurn(a, disks, disks', i, body, outcome);
  }

  /** One write and one sync per open replica; a replica that fails is closed and leaves the set. */
  method WriteToAll(a: State, body: Bytes, outcome: Vol -> Outcome) returns (b: State)
    requires DistinctVolumes(a.replicas)
    ensures b.segment == a.segment
    ensures b.replicas == Survivors(a.replicas, |body|, outcome)
    ensures TurnsTaken(a, b.disks, |a.replicas|, body, outcome)
  {
    var disks: map<Vol, Disk> := a.disks;
    var kept: seq<Replica> := [];
    var i := 0;
    while i < |a.replicas|
      invariant 0 <= i <= |a.replicas|
      invariant kept == Survivors(a.replicas[..i], |body|, outcome)
      invariant TurnsTaken(a, disks, i, body, outcome)
    {
      OneMoreSurvivor(a.replicas, i, |body|, outcome);
      kept := kept + Survivor(a.replicas[i], |body|, outcome);
      disks := WriteToOne(a, disks, i, body, outcome);
      i := i + 1;
    }
    assert a.replicas[..i] == a.replicas;
    b := State(disks, kept, a.segment);
  }

  /** Cut a segment file back to a known length, if it is longer. */
  function Truncated(d: Disk, s: nat, n: nat): Disk {
    if s in d && |d[s]| > n then d[s := d[s][..n]] else d
  }

  /** Undoing an append leaves every byte where it was. */
  lemma TruncationUndoesAppend(before: Disk, after: Disk, s: nat, body: Bytes)
    requires PartlyAppended(before, after, s, body)
    ensures SameBytes(Truncated(after, s, |At(before, s)|), before)
  {
  }

  /** Roll every replica that was open back to where its file ended before the batch. */
  method RollBack(before: seq<Replica>, disks: map<Vol, Disk>, segment: nat, takes: Vol -> bool)
    returns (disks': map<Vol, Disk>)
    requires DistinctVolumes(before)
    ensures forall r :: r in before && r.handle.Open? && takes(r.vol) ==>
              Platter(disks', r.vol) == Truncated(Platter(disks, r.vol), segment, r.bytes)
    ensures forall v :: (forall r :: r in before && r.vol == v ==> r.handle.Closed? || !takes(v)) ==>
              Platter(disks', v) == Platter(disks, v)
  {
    disks' := disks;
    var i := 0;
    while i < |before|
      invariant 0 <= i <= |before|
      invariant forall j :: 0 <= j < i && before[j].handle.Open? && takes(before[j].vol) ==>
                  Platter(disks', before[j].vol) == Truncated(Platter(disks, before[j].vol), segment, before[j].bytes)
      invariant forall v :: (forall j :: 0 <= j < i && before[j].vol == v ==> before[j].handle.Closed? || !takes(v)) ==>
                  Platter(disks', v) == Platter(disks, v)
    {
      var r := before[i];
      assert forall j :: 0 <= j < i ==> before[j].vol != r.vol;
      if r.handle.Open? && takes(r.vol) {
        disks' := disks'[r.vol := Truncated(Platter(disks', r.vol), segment, r.bytes)];
      }
      i := i + 1;
    }
  }
}
