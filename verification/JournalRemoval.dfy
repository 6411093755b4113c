/**
  Letting a disk go: the check that it is not the last home of any segment, and what that check
  is worth once the disk is gone.
 */
module JournalRemoval {
  import opened Lines
  import opened Segments
  import opened JournalProtocol
  import opened JournalLineage
  import opened JournalLockstep
  import Seeding

  /** A mounted disk other than `v`, not itself on its way out, that can be read. */
  predicate CanVouch(o: FleetVolume, listable: Vol -> bool, v: Vol) {
    o.id != v && o.isMounted && !o.isDeleted && listable(o.id)
  }

  /** Some such disk holds this segment of `v`, in full and byte for byte. */
  ghost predicate SafeElsewhere(a: State, fleet: seq<FleetVolume>, listable: Vol -> bool,
                                comparable: (Vol, nat) -> bool, v: Vol, s: nat) {
    exists i :: && 0 <= i < |fleet| && CanVouch(fleet[i], listable, v) && comparable(fleet[i].id, s)
                && s in Platter(a.disks, fleet[i].id)
                && At(Platter(a.disks, v), s) <= At(Platter(a.disks, fleet[i].id), s)
  }

  predicate Mounted(fleet: seq<FleetVolume>, v: Vol) {
    exists i :: 0 <= i < |fleet| && fleet[i].isMounted && fleet[i].id == v
  }

  /** An open replica on another disk that the fleet still reports as mounted. */
  predicate HealthyElsewhere(a: State, fleet: seq<FleetVolume>, v: Vol) {
    exists r :: r in a.replicas && r.handle.Open? && r.vol != v && Mounted(fleet, r.vol)
  }

  /** What has to hold for `v` to be let go. An unmounted disk cannot be read, so a healthy replica must vouch. */
  ghost predicate Released(a: State, fleet: seq<FleetVolume>, listable: Vol -> bool,
                           comparable: (Vol, nat) -> bool, v: Vol) {
    if Mounted(fleet, v) then
      listable(v) && forall s :: s in Platter(a.disks, v) ==> SafeElsewhere(a, fleet, listable, comparable, v, s)
    else HealthyElsewhere(a, fleet, v)
  }

  /** Look for another home for one segment. */
  method FindHome(a: State, fleet: seq<FleetVolume>, listable: Vol -> bool, comparable: (Vol, nat) -> bool, v: Vol, s: nat)
    returns (safe: bool)
    requires s in Platter(a.disks, v)
    ensures safe <==> SafeElsewhere(a, fleet, listable, comparable, v, s)
  {
    var mine := At(Platter(a.disks, v), s);
    var i := 0;
    while i < |fleet|
      invariant 0 <= i <= |fleet|
      invariant forall j :: 0 <= j < i ==>
                  !(CanVouch(fleet[j], listable, v) && comparable(fleet[j].id, s) && s in Platter(a.disks, fleet[j].id)
                    && mine <= At(Platter(a.disks, fleet[j].id), s))
    {
      var o := fleet[i];
      if CanVouch(o, listable, v) && s in Platter(a.disks, o.id) && |At(Platter(a.disks, o.id), s)| >= |mine| {
        var theirs := At(Platter(a.disks, o.id), s);
        var agree := Seeding.AgreeOnPrefix(mine, theirs, |mine|);
        assert mine[..|mine|] == mine;
        if agree && comparable(o.id, s) {
          return true;
        }
      }
      i := i + 1;
    }
    safe := false;
  }

  /** The check before a disk leaves: true exactly when it may. */
  method NotLastCopy(a: State, fleet: seq<FleetVolume>, listable: Vol -> bool, comparable: (Vol, nat) -> bool, v: Vol)
    returns (released: bool)
    ensures released <==> Released(a, fleet, listable, comparable, v)
  {
    if !Mounted(fleet, v) {
      return HealthyElsewhere(a, fleet, v);
    }
    if !listable(v) {
      return false;
    }
    var left := Platter(a.disks, v).Keys;
    while left != {}
      invariant left <= Platter(a.disks, v).Keys
      invariant forall s :: s in Platter(a.disks, v) && s !in left ==> SafeElsewhere(a, fleet, listable, comparable, v, s)
    {
      var s :| s in left;
      var safe := FindHome(a, fleet, listable, comparable, v, s);
      if !safe {
        return false;
      }
      left := left - {s};
    }
    released := true;
  }

  /** The array without one disk. */
  function Without(a: State, v: Vol): State {
    a.(disks := a.disks - {v})
  }

  /** Some disk in the array has every record of this segment of the log. */
  ghost predicate SomewhereInFull(a: State, log: Log, s: nat) {
    exists u: Vol :: u in a.disks && Complete(At(Platter(a.disks, u), s)) == At(log.bytes, s)
  }

  /** This volume of the fleet is in the rack to stay: mounted, not on its way out, and its journal can be listed. */
  ghost predicate StaysInTheRack(fleet: seq<FleetVolume>, listable: Vol -> bool, u: Vol) {
    exists i :: 0 <= i < |fleet| && fleet[i].id == u && fleet[i].isMounted && !fleet[i].isDeleted && listable(u)
  }

  /** A mounted disk that was released leaves every record of every segment of its own behind on another that is there to stay. */
  lemma MountedRemovalLosesNothing(a: State, fleet: seq<FleetVolume>, listable: Vol -> bool,
                                   comparable: (Vol, nat) -> bool, v: Vol, s: nat) returns (u: Vol)
    requires Mounted(fleet, v) && Released(a, fleet, listable, comparable, v) && s in Platter(a.disks, v)
    ensures u in Without(a, v).disks && StaysInTheRack(fleet, listable, u) && comparable(u, s)
    ensures At(Platter(a.disks, v), s) <= At(Platter(Without(a, v).disks, u), s)
    ensures Records(At(Platter(a.disks, v), s)) <= Records(At(Platter(Without(a, v).disks, u), s))
  {
    assert SafeElsewhere(a, fleet, listable, comparable, v, s);
    var i :| 0 <= i < |fleet| && CanVouch(fleet[i], listable, v) && comparable(fleet[i].id, s)
      && s in Platter(a.disks, fleet[i].id)
      && At(Platter(a.disks, v), s) <= At(Platter(a.disks, fleet[i].id), s);
    u := fleet[i].id;
    RecordsOfPrefix(At(Platter(a.disks, v), s), At(Platter(a.disks, u), s));
  }

  /** And that is all the check asks of a mounted disk: to be listed, and such a copy of each segment elsewhere. */
  lemma MountedReleaseIff(a: State, fleet: seq<FleetVolume>, listable: Vol -> bool, comparable: (Vol, nat) -> bool, v: Vol)
    requires Mounted(fleet, v)
    ensures Released(a, fleet, listable, comparable, v) <==>
              && listable(v)
              && forall s :: s in Platter(a.disks, v) ==>
                   exists u :: && u != v && StaysInTheRack(fleet, listable, u) && comparable(u, s)
                               && s in Platter(a.disks, u) && At(Platter(a.disks, v), s) <= At(Platter(a.disks, u), s)
  {
    forall s | s in Platter(a.disks, v)
      ensures SafeElsewhere(a, fleet, listable, comparable, v, s) <==>
                exists u :: && u != v && StaysInTheRack(fleet, listable, u) && comparable(u, s)
                            && s in Platter(a.disks, u) && At(Platter(a.disks, v), s) <= At(Platter(a.disks, u), s)
    {
      SafeOnADiskThatStays(a, fleet, listable, comparable, v, s);
    }
  }

  lemma SafeOnADiskThatStays(a: State, fleet: seq<FleetVolume>, listable: Vol -> bool, comparable: (Vol, nat) -> bool, v: Vol, s: nat)
    ensures SafeElsewhere(a, fleet, listable, comparable, v, s) <==>
              exists u :: && u != v && StaysInTheRack(fleet, listable, u) && comparable(u, s)
                          && s in Platter(a.disks, u) && At(Platter(a.disks, v), s) <= At(Platter(a.disks, u), s)
  {
    if SafeElsewhere(a, fleet, listable, comparable, v, s) {
      var i :| && 0 <= i < |fleet| && CanVouch(fleet[i], listable, v) && comparable(fleet[i].id, s)
               && s in Platter(a.disks, fleet[i].id)
               && At(Platter(a.disks, v), s) <= At(Platter(a.disks, fleet[i].id), s);
      assert StaysInTheRack(fleet, listable, fleet[i].id);
    }
    if u :| && u != v && StaysInTheRack(fleet, listable, u) && comparable(u, s)
            && s in Platter(a.disks, u) && At(Platter(a.disks, v), s) <= At(Platter(a.disks, u), s) {
      var i :| 0 <= i < |fleet| && fleet[i].id == u && fleet[i].isMounted && !fleet[i].isDeleted && listable(u);
      assert CanVouch(fleet[i], listable, v);
    }
  }

  /** Of an unmounted disk it asks only that the journal is open on another the fleet reports as mounted. */
  lemma UnmountedReleaseIff(a: State, fleet: seq<FleetVolume>, listable: Vol -> bool, comparable: (Vol, nat) -> bool, v: Vol)
    requires forall i :: 0 <= i < |fleet| && fleet[i].id == v ==> !fleet[i].isMounted
    ensures Released(a, fleet, listable, comparable, v) <==>
              exists i :: 0 <= i < |fleet| && fleet[i].isMounted && fleet[i].id in Live(a)
  {
    if HealthyElsewhere(a, fleet, v) {
      var r :| r in a.replicas && r.handle.Open? && r.vol != v && Mounted(fleet, r.vol);
      assert r.vol in Live(a);
    }
    if i :| 0 <= i < |fleet| && fleet[i].isMounted && fleet[i].id in Live(a) {
      var r :| r in a.replicas && r.handle.Open? && r.vol == fleet[i].id;
      assert Mounted(fleet, r.vol);
    }
  }

  /** The array without several disks. */
  function WithoutAll(a: State, gone: set<Vol>): State {
    a.(disks := a.disks - gone)
  }

  /** Every volume of the fleet by one of these numbers is marked deleted. */
  ghost predicate MarkedDeleted(fleet: seq<FleetVolume>, gone: set<Vol>) {
    forall i :: 0 <= i < |fleet| && fleet[i].id in gone ==> fleet[i].isDeleted
  }

  /**
    Disks on their way out together cannot vouch for each other: if each of them passes the check while
    all are marked deleted, then with all of them gone every segment of every one of them is still, with
    all its records, on a disk that is there to stay.
   */
  lemma RemovalsTogetherLoseNothing(a: State, fleet: seq<FleetVolume>, listable: Vol -> bool, comparable: (Vol, nat) -> bool,
                                    gone: set<Vol>, v: Vol, s: nat) returns (u: Vol)
    requires MarkedDeleted(fleet, gone)
    requires forall w :: w in gone ==> Mounted(fleet, w) && Released(a, fleet, listable, comparable, w)
    requires v in gone && s in Platter(a.disks, v)
    ensures u in WithoutAll(a, gone).disks && StaysInTheRack(fleet, listable, u)
    ensures At(Platter(a.disks, v), s) <= At(Platter(WithoutAll(a, gone).disks, u), s)
    ensures Records(At(Platter(a.disks, v), s)) <= Records(At(Platter(WithoutAll(a, gone).disks, u), s))
  {
    u := MountedRemovalLosesNothing(a, fleet, listable, comparable, v, s);
    assert u !in gone;
    assert Platter(WithoutAll(a, gone).disks, u) == Platter(a.disks, u) == Platter(Without(a, v).disks, u);
  }

  /** An unmounted disk that was released held no record one open replica does not hold, while the array is in lockstep. */
  lemma UnmountedRemovalLosesNothing(a: State, log: Log, fleet: seq<FleetVolume>, listable: Vol -> bool,
                                     comparable: (Vol, nat) -> bool, v: Vol) returns (u: Vol)
    requires InLockstep(a, log)
    requires !Mounted(fleet, v) && Released(a, fleet, listable, comparable, v)
    ensures u in Live(a) && u != v
    ensures forall s: nat :: Records(At(Platter(a.disks, v), s)) <= Records(At(Platter(Without(a, v).disks, u), s))
  {
    var r :| r in a.replicas && r.handle.Open? && r.vol != v && Mounted(fleet, r.vol);
    u := r.vol;
    assert Platter(Without(a, v).disks, u) == Platter(a.disks, u);
    forall s: nat
      ensures Records(At(Platter(a.disks, v), s)) <= Records(At(Platter(a.disks, u), s))
    {
      assert Trails(Platter(a.disks, v), log.bytes) && SameBytes(Platter(a.disks, u), log.bytes);
      RecordsOfPrefix(At(Platter(a.disks, v), s), At(Platter(a.disks, u), s));
    }
  }

  /** Between prefixes of one log, a copy that includes a full one is full. */
  lemma FullWithin(x: Bytes, y: Bytes, full: Bytes)
    requires Complete(x) == full && x <= y && Complete(y) <= full && AtBoundary(full)
    ensures Complete(y) == full
  {
    CompletePrefix(x, y);
  }

  /**
    Mounted or not: in an array in lockstep, letting a released disk go leaves every record of each
    written segment of the log on some disk, if it was on one.
   */
  lemma RemovalLosesNoSegment(a: State, log: Log, fleet: seq<FleetVolume>, listable: Vol -> bool,
                              comparable: (Vol, nat) -> bool, v: Vol, s: nat)
    requires InLockstep(a, log) && Released(a, fleet, listable, comparable, v)
    requires At(log.bytes, s) != [] && SomewhereInFull(a, log, s)
    ensures SomewhereInFull(Without(a, v), log, s)
  {
    var u: Vol :| u in a.disks && Complete(At(Platter(a.disks, u), s)) == At(log.bytes, s);
    if u != v {
      assert u in Without(a, v).disks && Platter(Without(a, v).disks, u) == Platter(a.disks, u);
    } else if Mounted(fleet, v) {
      MountedRemovalLeavesACopy(a, log, fleet, listable, comparable, v, s);
    } else {
      UnmountedRemovalLeavesACopy(a, log, fleet, listable, comparable, v, s);
    }
  }

  lemma MountedRemovalLeavesACopy(a: State, log: Log, fleet: seq<FleetVolume>, listable: Vol -> bool,
                                  comparable: (Vol, nat) -> bool, v: Vol, s: nat)
    requires InLockstep(a, log) && Mounted(fleet, v) && Released(a, fleet, listable, comparable, v)
    requires At(log.bytes, s) != [] && Complete(At(Platter(a.disks, v), s)) == At(log.bytes, s)
    ensures SomewhereInFull(Without(a, v), log, s)
  {
    assert s in Platter(a.disks, v);
    var w := MountedRemovalLosesNothing(a, fleet, listable, comparable, v, s);
    assert Trails(Platter(a.disks, w), log.bytes) && AtBoundary(At(log.bytes, s));
    assert Platter(Without(a, v).disks, w) == Platter(a.disks, w);
    FullWithin(At(Platter(a.disks, v), s), At(Platter(a.disks, w), s), At(log.bytes, s));
  }

  lemma UnmountedRemovalLeavesACopy(a: State, log: Log, fleet: seq<FleetVolume>, listable: Vol -> bool,
                                    comparable: (Vol, nat) -> bool, v: Vol, s: nat)
    requires InLockstep(a, log) && !Mounted(fleet, v) && Released(a, fleet, listable, comparable, v)
    requires At(log.bytes, s) != []
    ensures SomewhereInFull(Without(a, v), log, s)
  {
    var w := UnmountedRemovalLosesNothing(a, log, fleet, listable, comparable, v);
    assert SameBytes(Platter(a.disks, w), log.bytes) && AtBoundary(At(log.bytes, s));
    BoundaryIsComplete(At(log.bytes, s));
    assert At(Platter(a.disks, w), s) == At(log.bytes, s);
    assert w in Without(a, v).disks && Platter(Without(a, v).disks, w) == Platter(a.disks, w);
  }

  /**
    What an adopted replica's word is worth for an absent disk that holds the whole log: everything
    on that disk is on the replica exactly when each segment of the log was in full among the copies
    the replica was put together from.
   */
  lemma ReplicaCoversAbsentDiskIff(a: State, b: State, unmounted: set<Vol>, sources: seq<Vol>, missed: Oversight, log: Log, v: Vol, u: Vol)
    requires InLockstep(a, log) && ReelectEffect(a, b, unmounted, sources, missed)
    requires SameBytes(Platter(b.disks, v), log.bytes) && u in Live(b) - Standing(a, unmounted)
    ensures Within(Platter(b.disks, v), Platter(b.disks, u)) <==> forall s: nat :: HeldInFull(a, sources, missed, u, log, s)
  {
    AdoptionIsCompleteIff(a, b, unmounted, sources, missed, log, u);
    assert Within(Platter(b.disks, v), Platter(b.disks, u)) <==> Within(log.bytes, Platter(b.disks, u)) by {
      assert forall s: nat :: At(Platter(b.disks, v), s) == At(log.bytes, s);
    }
  }
}
