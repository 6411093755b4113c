/**
  Finding the array's history on a cold start: which disks carry one, which of those belong
  together, and when to refuse rather than guess.
 */
module JournalLineage {
  import opened Prelude
  import opened Lines
  import opened Segments
  import opened JournalProtocol
  import opened JournalLockstep
  import Seeding

  // Grouping compares at most this much of one segment. It never authorises a write.
  const PROBE_BYTES: nat := 4 * 1024 * 1024

  function Min3(a: nat, b: nat, c: nat): nat {
    var m := if a < b then a else b;
    if m < c then m else c
  }

  /** Two directories look like one history: they agree on the start of the lowest segment they share. */
  ghost predicate Alike(a: Disk, b: Disk) {
    exists s :: && s in a && s in b
                && (forall t :: t in a && t in b ==> s <= t)
                && AgreeAtStart(a[s], b[s])
  }

  ghost predicate AgreeAtStart(x: Bytes, y: Bytes) {
    var n := Min3(|x|, |y|, PROBE_BYTES);
    x[..n] == y[..n]
  }

  method Lowest(segments: set<nat>) returns (s: nat)
    requires segments != {}
    ensures s in segments && forall t :: t in segments ==> s <= t
  {
    ghost var some :| some in segments;
    Seeding.LeastSegment(segments, some);
    s :| s in segments && forall t :: t in segments ==> s <= t;
  }

  lemma LowestDecides(a: Disk, b: Disk, s: nat)
    requires s in a && s in b && forall t :: t in a && t in b ==> s <= t
    ensures Alike(a, b) <==> AgreeAtStart(a[s], b[s])
  {
  }

  method SameLineage(a: Disk, b: Disk) returns (same: bool)
    ensures same <==> Alike(a, b)
  {
    var shared := a.Keys * b.Keys;
    assert forall t :: t in a && t in b <==> t in shared;
    if shared == {} {
      return false;
    }
    var s := Lowest(shared);
    LowestDecides(a, b, s);
    same := Seeding.AgreeOnPrefix(a[s], b[s], Min3(|a[s]|, |b[s]|, PROBE_BYTES));
  }

  /** `classes` splits `candidates`; every member looks like the first of its class, and like that of no class before it. */
  ghost predicate Grouping(disks: map<Vol, Disk>, candidates: seq<Vol>, classes: seq<seq<Vol>>) {
    && (forall k :: 0 <= k < |classes| ==> |classes[k]| > 0)
    && (forall v :: v in candidates <==> exists k :: 0 <= k < |classes| && v in classes[k])
    && (forall k, m :: 0 <= k < |classes| && 0 <= m < |classes[k]| ==>
          m == 0 || Alike(Platter(disks, classes[k][0]), Platter(disks, classes[k][m])))
    && (forall j, k, m :: 0 <= j < k < |classes| && 0 <= m < |classes[k]| ==>
          !Alike(Platter(disks, classes[j][0]), Platter(disks, classes[k][m])))
  }

  /** Put a candidate into the first class whose representative it resembles, or into a new one. */
  method Place(disks: map<Vol, Disk>, ghost candidates: seq<Vol>, classes: seq<seq<Vol>>, c: Vol)
    returns (classes': seq<seq<Vol>>)
    requires Grouping(disks, candidates, classes)
    ensures Grouping(disks, candidates + [c], classes')
    ensures classes == [] ==> classes' == [[c]]
    ensures classes != [] && Alike(Platter(disks, classes[0][0]), Platter(disks, c)) ==>
              classes' == classes[0 := classes[0] + [c]]
    ensures |classes'| >= |classes|
  {
    var k := FirstAlike(disks, classes, c);
    if k < |classes| {
      classes' := classes[k := classes[k] + [c]];
      GrowClass(disks, candidates, classes, c, k);
    } else {
      classes' := classes + [[c]];
      NewClass(disks, candidates, classes, c);
    }
  }

  /** The first class whose representative the candidate resembles, or their number. */
  method FirstAlike(disks: map<Vol, Disk>, classes: seq<seq<Vol>>, c: Vol) returns (k: nat)
    requires forall j :: 0 <= j < |classes| ==> |classes[j]| > 0
    ensures k <= |classes|
    ensures k < |classes| ==> Alike(Platter(disks, classes[k][0]), Platter(disks, c))
    ensures forall j :: 0 <= j < k ==> !Alike(Platter(disks, classes[j][0]), Platter(disks, c))
  {
    k := 0;
    while k < |classes|
      invariant 0 <= k <= |classes|
      invariant forall j :: 0 <= j < k ==> !Alike(Platter(disks, classes[j][0]), Platter(disks, c))
    {
      var same := SameLineage(Platter(disks, classes[k][0]), Platter(disks, c));
      if same {
        return;
      }
      k := k + 1;
    }
  }

  lemma GrowClass(disks: map<Vol, Disk>, candidates: seq<Vol>, classes: seq<seq<Vol>>, c: Vol, k: nat)
    requires Grouping(disks, candidates, classes) && k < |classes|
    requires Alike(Platter(disks, classes[k][0]), Platter(disks, c))
    requires forall j :: 0 <= j < k ==> !Alike(Platter(disks, classes[j][0]), Platter(disks, c))
    ensures Grouping(disks, candidates + [c], classes[k := classes[k] + [c]])
  {
    var classes' := classes[k := classes[k] + [c]];
    forall v
      ensures v in candidates + [c] <==> exists j :: 0 <= j < |classes'| && v in classes'[j]
    {
      if v in candidates {
        var j :| 0 <= j < |classes| && v in classes[j];
        assert v in classes'[j];
      } else if v == c {
        assert classes'[k][|classes[k]|] == c;
      }
      assert forall j :: 0 <= j < |classes'| && v in classes'[j] && v != c ==> v in classes[j];
    }
    forall i, j, m | 0 <= i < j < |classes'| && 0 <= m < |classes'[j]|
      ensures !Alike(Platter(disks, classes'[i][0]), Platter(disks, classes'[j][m]))
    {
      assert classes'[i][0] == classes[i][0];
      assert classes'[j][m] == if j == k && m == |classes[k]| then c else classes[j][m];
    }
  }

  lemma NewClass(disks: map<Vol, Disk>, candidates: seq<Vol>, classes: seq<seq<Vol>>, c: Vol)
    requires Grouping(disks, candidates, classes)
    requires forall j :: 0 <= j < |classes| ==> !Alike(Platter(disks, classes[j][0]), Platter(disks, c))
    ensures Grouping(disks, candidates + [c], classes + [[c]])
  {
    var classes' := classes + [[c]];
    forall v
      ensures v in candidates + [c] <==> exists j :: 0 <= j < |classes'| && v in classes'[j]
    {
      if v in candidates {
        var j :| 0 <= j < |classes| && v in classes[j];
        assert v in classes'[j];
      } else if v == c {
        assert classes'[|classes|] == [c];
      }
    }
  }

  /** The index of a largest class, and whether another is as large. */
  method Largest(classes: seq<seq<Vol>>) returns (k: nat, tied: bool)
    requires classes != []
    ensures k < |classes| && forall j :: 0 <= j < |classes| ==> |classes[j]| <= |classes[k]|
    ensures tied <==> exists j :: 0 <= j < |classes| && j != k && |classes[j]| == |classes[k]|
  {
    k, tied := 0, false;
    var i := 1;
    while i < |classes|
      invariant 1 <= i <= |classes| && k < i
      invariant forall j :: 0 <= j < i ==> |classes[j]| <= |classes[k]|
      invariant tied <==> exists j :: 0 <= j < i && j != k && |classes[j]| == |classes[k]|
    {
      if |classes[i]| > |classes[k]| {
        k, tied := i, false;
      } else if |classes[i]| == |classes[k]| {
        tied := true;
      }
      i := i + 1;
    }
  }

  ghost predicate AllAlike(disks: map<Vol, Disk>, candidates: seq<Vol>) {
    forall u, v :: u in candidates && v in candidates ==> Alike(Platter(disks, u), Platter(disks, v))
  }

  /** Two different classes are both as large as any. */
  ghost predicate Tied(classes: seq<seq<Vol>>) {
    exists j, k :: 0 <= j < k < |classes| && LargestAt(classes, j) && LargestAt(classes, k)
  }

  ghost predicate LargestAt(classes: seq<seq<Vol>>, k: int) {
    0 <= k < |classes| && forall j :: 0 <= j < |classes| ==> |classes[j]| <= |classes[k]|
  }

  /** Split the candidates into classes of look-alikes. */
  method Group(disks: map<Vol, Disk>, candidates: seq<Vol>) returns (classes: seq<seq<Vol>>)
    ensures Grouping(disks, candidates, classes)
    ensures AllAlike(disks, candidates) && candidates != [] ==> classes == [candidates]
    ensures candidates == [] <==> classes == []
  {
    classes := [];
    var i := 0;
    while i < |candidates|
      invariant 0 <= i <= |candidates|
      invariant Grouping(disks, candidates[..i], classes)
      invariant i == 0 <==> classes == []
      invariant OneClass(disks, candidates, i, classes)
    {
      classes := PlaceNext(disks, candidates, i, classes);
      i := i + 1;
    }
    assert candidates[..i] == candidates;
  }

  /** Candidates that are all alike are in one class. */
  ghost predicate OneClass(disks: map<Vol, Disk>, candidates: seq<Vol>, i: nat, classes: seq<seq<Vol>>)
    requires i <= |candidates|
  {
    AllAlike(disks, candidates) && i > 0 ==> classes == [candidates[..i]]
  }

  method PlaceNext(disks: map<Vol, Disk>, candidates: seq<Vol>, i: nat, classes: seq<seq<Vol>>) returns (classes': seq<seq<Vol>>)
    requires i < |candidates| && Grouping(disks, candidates[..i], classes) && (i == 0 <==> classes == [])
    requires OneClass(disks, candidates, i, classes)
    ensures Grouping(disks, candidates[..i + 1], classes') && classes' != []
    ensures OneClass(disks, candidates, i + 1, classes')
  {
    assert candidates[..i + 1] == candidates[..i] + [candidates[i]];
    if AllAlike(disks, candidates) && i > 0 {
      assert classes[0][0] == candidates[0] && Alike(Platter(disks, candidates[0]), Platter(disks, candidates[i]));
      assert classes[0 := classes[0] + [candidates[i]]] == [candidates[..i + 1]];
    }
    assert i == 0 ==> [candidates[i]] == candidates[..i + 1];
    classes' := Place(disks, candidates[..i], classes, candidates[i]);
  }

  /**
    Split the candidates into lineages and take the largest. A tie for largest is ambiguous: no
    evidence favours either history, so neither is extended.
   */
  method MajorityLineage(disks: map<Vol, Disk>, candidates: seq<Vol>)
    returns (sources: seq<Vol>, ambiguous: bool, ghost classes: seq<seq<Vol>>)
    ensures Grouping(disks, candidates, classes)
    ensures ambiguous <==> Tied(classes)
    ensures ambiguous ==> sources == []
    ensures !ambiguous && candidates != [] ==> exists k :: LargestAt(classes, k) && sources == classes[k]
    ensures (candidates == [] <==> classes == []) && (sources == [] <==> ambiguous || classes == [])
    ensures AllAlike(disks, candidates) ==> !ambiguous && sources == candidates
  {
    var groups := Group(disks, candidates);
    classes := groups;
    if groups == [] {
      sources, ambiguous := [], false;
      return;
    }
    var k, tied := Largest(groups);
    assert LargestAt(groups, k);
    sources, ambiguous := if tied then [] else groups[k], tied;
    if tied {
      ghost var j :| 0 <= j < |groups| && j != k && |groups[j]| == |groups[k]|;
      assert LargestAt(groups, j);
      assert j < k || k < j;
    } else {
      assert forall j :: LargestAt(groups, j) ==> j == k;
    }
  }

  // ---------------------------------------------------------------------------------------------

  datatype FleetVolume = FleetVolume(id: Vol, isDeleted: bool, isMounted: bool)

  /** A disk with a history of its own: something written, and the first segment present. */
  predicate HasHistory(d: Disk) {
    0 in d && exists s :: s in d && d[s] != []
  }

  predicate Readable(v: FleetVolume, listable: Vol -> bool) {
    v.isMounted && listable(v.id)
  }

  /** A volume still in the fleet that carries a history and can be read. */
  predicate HistoryOn(disks: map<Vol, Disk>, v: FleetVolume, listable: Vol -> bool) {
    !v.isDeleted && Readable(v, listable) && HasHistory(Platter(disks, v.id))
  }

  /** Those volumes, in the order of the fleet. */
  function Found(disks: map<Vol, Disk>, fleet: seq<FleetVolume>, listable: Vol -> bool): seq<Vol> {
    if fleet == [] then []
    else
      var last := fleet[|fleet| - 1];
      Found(disks, fleet[..|fleet| - 1], listable) + (if HistoryOn(disks, last, listable) then [last.id] else [])
  }

  /** A volume still in the fleet could not be looked at. */
  predicate SomeSilent(fleet: seq<FleetVolume>, listable: Vol -> bool) {
    exists i :: 0 <= i < |fleet| && !fleet[i].isDeleted && !Readable(fleet[i], listable)
  }

  lemma {:induction false} FoundAre(disks: map<Vol, Disk>, fleet: seq<FleetVolume>, listable: Vol -> bool)
    ensures forall v :: v in Found(disks, fleet, listable) <==> v in Histories(disks, fleet, listable)
  {
    if fleet != [] {
      var n := |fleet| - 1;
      FoundAre(disks, fleet[..n], listable);
      assert forall v :: v in Histories(disks, fleet, listable) <==>
          v in Histories(disks, fleet[..n], listable) || (v == fleet[n].id && HistoryOn(disks, fleet[n], listable)) by {
        assert forall i :: 0 <= i < n ==> fleet[..n][i] == fleet[i];
      }
    }
  }

  /**
    A disk has a vote exactly when it is in the fleet to stay, mounted and listable, has the first
    segment, and has something written: one whose segments are all empty knows nothing, and one without
    the first is a remnant.
   */
  lemma FoundIff(disks: map<Vol, Disk>, fleet: seq<FleetVolume>, listable: Vol -> bool, v: Vol)
    ensures v in Found(disks, fleet, listable) <==>
              && (exists i :: 0 <= i < |fleet| && fleet[i].id == v && !fleet[i].isDeleted && fleet[i].isMounted && listable(v))
              && 0 in Platter(disks, v) && exists s: nat :: At(Platter(disks, v), s) != []
  {
    FoundAre(disks, fleet, listable);
    var d := Platter(disks, v);
    assert HasHistory(d) <==> 0 in d && exists s: nat :: At(d, s) != [] by {
      if s: nat :| At(d, s) != [] {
        assert s in d && d[s] != [];
      }
      if s :| s in d && d[s] != [] {
        assert At(d, s) != [];
      }
    }
    if i :| 0 <= i < |fleet| && fleet[i].id == v && !fleet[i].isDeleted && fleet[i].isMounted && listable(v) {
      assert HasHistory(d) ==> HistoryOn(disks, fleet[i], listable);
    }
  }

  /** Look at every volume still in the fleet. One that could not be looked at is unknown, not empty. */
  method ColdScan(disks: map<Vol, Disk>, fleet: seq<FleetVolume>, listable: Vol -> bool)
    returns (found: seq<Vol>, blind: bool)
    ensures found == Found(disks, fleet, listable)
    ensures forall v :: v in found <==> v in Histories(disks, fleet, listable)
    ensures blind <==> SomeSilent(fleet, listable)
  {
    found, blind := [], false;
    var i := 0;
    while i < |fleet|
      invariant 0 <= i <= |fleet|
      invariant found == Found(disks, fleet[..i], listable)
      invariant blind <==> exists j :: 0 <= j < i && !fleet[j].isDeleted && !Readable(fleet[j], listable)
    {
      var v := fleet[i];
      assert fleet[..i + 1][..i] == fleet[..i];
      if !v.isDeleted {
        if !Readable(v, listable) {
          blind := true;
        } else if HasHistory(Platter(disks, v.id)) {
          found := found + [v.id];
        }
      }
      i := i + 1;
    }
    assert fleet[..i] == fleet;
    FoundAre(disks, fleet, listable);
  }

  datatype Sources = From(sources: seq<Vol>) | FailClosed

  /** A tie for the largest class, or no history while a disk is silent, is a refusal; otherwise the largest class is the source. */
  ghost predicate Decided(classes: seq<seq<Vol>>, blind: bool, result: Sources) {
    && (result.FailClosed? <==> Tied(classes) || (classes == [] && blind))
    && (result.From? && classes != [] ==> exists k :: LargestAt(classes, k) && result.sources == classes[k])
    && (result.From? && classes == [] ==> result.sources == [])
  }

  /**
    Where a new replica's history comes from: a standing replica if there is one, else whatever the
    platters agree on. No history found while a disk could not be read is a refusal, not a fresh start.
   */
  method SeedSources(disks: map<Vol, Disk>, standing: seq<Vol>, fleet: seq<FleetVolume>, listable: Vol -> bool)
    returns (result: Sources)
    ensures standing != [] ==> result == From([standing[0]])
    ensures standing == [] && result.From? ==>
              forall v :: v in result.sources ==> HasHistory(Platter(disks, v))
    ensures standing == [] && result == From([]) ==>
              forall i :: 0 <= i < |fleet| && !fleet[i].isDeleted ==>
                Readable(fleet[i], listable) && !HasHistory(Platter(disks, fleet[i].id))
    ensures standing == [] ==>
              exists classes :: Grouping(disks, Found(disks, fleet, listable), classes)
                                && Decided(classes, SomeSilent(fleet, listable), result)
    ensures standing == [] && OneLook(disks, fleet, listable) ==>
              result == if Found(disks, fleet, listable) == [] && SomeSilent(fleet, listable) then FailClosed
                        else From(Found(disks, fleet, listable))
  {
    if standing != [] {
      return From([standing[0]]);
    }
    var found, blind := ColdScan(disks, fleet, listable);
    result := FromPlatters(disks, found, blind);
    assert forall i :: 0 <= i < |fleet| && HistoryOn(disks, fleet[i], listable) ==> fleet[i].id in found;
  }

  /** What the platters agree on: the largest class of look-alikes, or a refusal. */
  method FromPlatters(disks: map<Vol, Disk>, found: seq<Vol>, blind: bool) returns (result: Sources)
    ensures exists classes :: Grouping(disks, found, classes) && Decided(classes, blind, result)
    ensures result.From? ==> (forall v :: v in result.sources ==> v in found) && (result.sources == [] ==> found == [] && !blind)
    ensures AllAlike(disks, found) ==> result == if found == [] && blind then FailClosed else From(found)
  {
    var sources, ambiguous, classes := MajorityLineage(disks, found);
    assert forall v :: v in sources ==> v in found;
    result := if ambiguous || (sources == [] && blind) then FailClosed else From(sources);
    assert Decided(classes, blind, result);
  }

  /** The volumes a cold start can read a history from. */
  ghost function Histories(disks: map<Vol, Disk>, fleet: seq<FleetVolume>, listable: Vol -> bool): set<Vol> {
    set i | 0 <= i < |fleet| && HistoryOn(disks, fleet[i], listable) :: fleet[i].id
  }

  /** Every history in the rack looks like every other. */
  ghost predicate OneLook(disks: map<Vol, Disk>, fleet: seq<FleetVolume>, listable: Vol -> bool) {
    forall u, v :: u in Histories(disks, fleet, listable) && v in Histories(disks, fleet, listable) ==>
      Alike(Platter(disks, u), Platter(disks, v))
  }

  /** Every two disks agree on the bytes of the first segment that both have. */
  ghost predicate OneStart(a: State) {
    forall u: Vol, v: Vol :: Seeding.PrefixOrdered(At(Platter(a.disks, u), 0), At(Platter(a.disks, v), 0))
  }

  /** Then all histories look alike: the first segment is the lowest they share. */
  lemma OneLogLooksAlike(a: State, fleet: seq<FleetVolume>, listable: Vol -> bool)
    requires OneStart(a)
    ensures OneLook(a.disks, fleet, listable)
  {
    forall u, v | u in Histories(a.disks, fleet, listable) && v in Histories(a.disks, fleet, listable)
      ensures Alike(Platter(a.disks, u), Platter(a.disks, v))
    {
      var x, y := Platter(a.disks, u), Platter(a.disks, v);
      assert Seeding.PrefixOrdered(At(x, 0), At(y, 0));
      assert AgreeAtStart(x[0], y[0]);
    }
  }

  /** A disk with the whole log is one of the histories, if it can be read. */
  lemma FullCopyIsFound(a: State, log: Log, fleet: seq<FleetVolume>, listable: Vol -> bool, full: Vol)
    requires WellFormed(log) && At(log.bytes, 0) != [] && HoldsAll(Platter(a.disks, full), log.bytes)
    requires exists i :: 0 <= i < |fleet| && fleet[i].id == full && !fleet[i].isDeleted && Readable(fleet[i], listable)
    ensures full in Histories(a.disks, fleet, listable)
  {
    var d := Platter(a.disks, full);
    assert Complete(At(d, 0)) == At(log.bytes, 0);
    assert 0 in d && d[0] != [];
  }

  /**
    In an array that holds one log, a cold start that finds a full copy among its sources and misses
    nothing finds every segment in full, so whatever it adopts carries the whole log.
   */
  lemma FullCopyInTheRack(a: State, log: Log, full: Vol, sources: seq<Vol>, v: Vol, s: nat)
    requires HoldsAll(Platter(a.disks, full), log.bytes) && full in sources
    ensures HeldInFull(a, sources, NOTHING_MISSED, v, log, s)
  {
    var i :| 0 <= i < |sources| && sources[i] == full;
    assert At(Platter(a.disks, sources[i]), s) in Pool(a, sources, NOTHING_MISSED, v, s);
  }
}
