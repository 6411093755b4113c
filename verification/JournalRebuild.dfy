/**
  Rebuilding the replica set: elect, seed, drop what was not chosen, find the active segment in
  the lineage and open it everywhere.
 */
module JournalRebuild {
  import opened Prelude
  import opened Lines
  import opened Segments
  import opened JournalProtocol
  import opened JournalOpen
  import opened JournalReelect
  import opened JournalLineage
  import opened JournalLockstep
  import opened JournalTidy
  import Seeding
  import Election

  /** What the outside decides while a set is being rebuilt: who is there, and what fails. */
  datatype World = World(
    candidates: seq<Election.Candidate>,
    fleet: seq<FleetVolume>,
    listable: Vol -> bool,
    weather: Vol -> (nat -> Seeding.Weather),
    opening: Vol -> Opening,
    lineageReadable: bool,
    segmentsReadable: bool)

  ghost function Unmounted(fleet: seq<FleetVolume>): set<Vol> {
    set i | 0 <= i < |fleet| && !fleet[i].isMounted :: fleet[i].id
  }

  predicate ReportedUnmounted(fleet: seq<FleetVolume>, v: Vol) {
    exists i :: 0 <= i < |fleet| && !fleet[i].isMounted && fleet[i].id == v
  }

  /** Close every replica whose disk the fleet reports as unmounted. */
  method CloseUnmounted(a: State, fleet: seq<FleetVolume>) returns (b: State)
    ensures ThrowEffect(a, b, Unmounted(fleet))
  {
    var replicas: seq<Replica> := [];
    var i := 0;
    while i < |a.replicas|
      invariant 0 <= i <= |a.replicas| && |replicas| == i
      invariant forall j :: 0 <= j < i ==>
                  replicas[j] == if a.replicas[j].vol in Unmounted(fleet) then a.replicas[j].(handle := Closed) else a.replicas[j]
    {
      var r := a.replicas[i];
      replicas := replicas + [if ReportedUnmounted(fleet, r.vol) then r.(handle := Closed) else r];
      i := i + 1;
    }
    b := State(a.disks, replicas, a.segment);
  }

  /** The volumes of the open replicas, in order. */
  method OpenVolumes(replicas: seq<Replica>) returns (vs: seq<Vol>)
    ensures forall v :: v in vs <==> exists r :: r in replicas && r.handle.Open? && r.vol == v
  {
    vs := [];
    var i := 0;
    while i < |replicas|
      invariant 0 <= i <= |replicas|
      invariant forall v :: v in vs <==> exists j :: 0 <= j < i && replicas[j].handle.Open? && replicas[j].vol == v
    {
      if replicas[i].handle.Open? {
        vs := vs + [replicas[i].vol];
      }
      i := i + 1;
    }
  }

  /** Every segment any source lists. */
  method LineageOf(disks: map<Vol, Disk>, sources: seq<Vol>) returns (lineage: set<nat>)
    ensures forall s: nat :: s in lineage <==> ListedNow(disks, sources, s)
  {
    lineage := {};
    var i := 0;
    while i < |sources|
      invariant 0 <= i <= |sources|
      invariant forall s: nat :: s in lineage <==> exists k :: 0 <= k < i && s in Platter(disks, sources[k])
    {
      lineage := lineage + Platter(disks, sources[i]).Keys;
      i := i + 1;
    }
  }

  /** The highest segment in the lineage, and never a lower one than is already active. */
  method Highest(lineage: set<nat>, current: nat) returns (top: nat)
    ensures top >= current && forall s :: s in lineage ==> s <= top
    ensures top == current || top in lineage
  {
    top := current;
    var left := lineage;
    while left != {}
      invariant left <= lineage && top >= current && (top == current || top in lineage)
      invariant forall s :: s in lineage ==> s in left || s <= top
    {
      var s :| s in left;
      top := if s > top then s else top;
      left := left - {s};
    }
  }

  /** `top` is the highest segment the sources list, unless `current` is higher. */
  ghost predicate OnHighest(disks: map<Vol, Disk>, sources: seq<Vol>, current: nat, top: nat) {
    && top >= current
    && (forall s: nat :: ListedNow(disks, sources, s) ==> s <= top)
    && (top == current || ListedNow(disks, sources, top))
  }

  lemma HighestIsUnique(disks: map<Vol, Disk>, sources: seq<Vol>, current: nat, top: nat, top': nat)
    requires OnHighest(disks, sources, current, top) && OnHighest(disks, sources, current, top')
    ensures top == top'
  {
  }

  /** The open replica on a volume, or a new one still to be opened. */
  function ReplicaOn(replicas: seq<Replica>, v: Vol): (r: Replica)
    ensures r.vol == v
    ensures r.handle.Open? ==> r in replicas
    ensures (exists q :: q in replicas && q.vol == v && q.handle.Open?) ==> r.handle.Open?
  {
    if replicas == [] then Replica(v, Closed, 0)
    else if replicas[0].vol == v && replicas[0].handle.Open? then replicas[0]
    else ReplicaOn(replicas[1..], v)
  }

  function Seats(replicas: seq<Replica>, vs: seq<Vol>): (rs: seq<Replica>)
    ensures |rs| == |vs| && forall i :: 0 <= i < |vs| ==> rs[i].vol == vs[i] && (rs[i].handle.Open? ==> rs[i] in replicas)
  {
    seq(|vs|, i requires 0 <= i < |vs| => ReplicaOn(replicas, vs[i]))
  }

  /** The set about to be opened: kept replicas as they were or closed to move on, adopted ones closed. */
  ghost predicate Assembled(a: State, mid: State, unmounted: set<Vol>, sources: seq<Vol>, lineage: set<nat>,
                            kept: seq<Vol>, adopted: seq<Vol>, missed: Oversight) {
    && DistinctVolumes(mid.replicas)
    && mid.segment >= a.segment
    && (forall s :: s in lineage ==> s <= mid.segment)
    && Seedable(a, mid.disks, sources, lineage, missed.unseen)
    && PoolsTraceable(a, sources, missed)
    && (forall v :: v in kept ==> v in Standing(a, unmounted) && Platter(mid.disks, v) == Platter(a.disks, v))
    && (forall v :: v in adopted ==> SeededVolume(a, Platter(mid.disks, v), sources, lineage, missed, v) && v !in Standing(a, unmounted))
    && (forall q :: q in mid.replicas ==> q.vol in kept || q.vol in adopted)
    && (forall q :: q in mid.replicas && q.handle.Open? ==> q in a.replicas && q.vol in kept && mid.segment == a.segment)
  }

  /** A kept replica comes out of the opening with the bytes it had, and in step. */
  lemma KeptInStep(a: State, mid: State, b: State, unmounted: set<Vol>, r: Replica)
    requires Valid(a) && OpenEffect(mid, b) && r in b.replicas && mid.segment >= a.segment
    requires r.vol in Standing(a, unmounted) && Platter(mid.disks, r.vol) == Platter(a.disks, r.vol)
    requires forall q :: q in mid.replicas && q.handle.Open? ==> q in a.replicas && mid.segment == a.segment
    ensures SameBytes(Platter(a.disks, r.vol), Platter(b.disks, r.vol)) && InStep(b, r)
  {
  }

  /** An adopted replica comes out of the opening in step, with every copy it was put together from. */
  lemma AdoptedInStep(a: State, mid: State, b: State, sources: seq<Vol>, lineage: set<nat>, missed: Oversight, r: Replica)
    requires OpenEffect(mid, b) && r in b.replicas
    requires SeededVolume(a, Platter(mid.disks, r.vol), sources, lineage, missed, r.vol)
    requires forall s :: s in lineage ==> s <= mid.segment
    requires !(r in mid.replicas && r.handle.Open?)
    ensures Adopted(a, b, sources, missed, r.vol) && InStep(b, r)
  {
    var d, d' := Platter(mid.disks, r.vol), Platter(b.disks, r.vol);
    assert OpenedReplica(mid, b, r);
    assert OpenedAt(d, d', mid.segment);
    forall s: nat
      ensures AdoptedAt(a, b, sources, missed, r.vol, s)
      ensures s > mid.segment ==> At(d', s) == []
    {
      assert SeededAt(a, d, sources, lineage, missed, r.vol, s);
      OpenedSegment(Pool(a, sources, missed, r.vol, s), At(d, s), At(d', s), s == mid.segment);
    }
  }

  /** Opening a segment cuts its torn tail, and with it only the torn tails of the copies it was put together from. */
  lemma OpenedSegment(copies: set<Bytes>, before: Bytes, after: Bytes, active: bool)
    requires LongestOf(copies, before) && after == if active then Complete(before) else before
    ensures forall x :: x in copies ==> Carried(x, after, active)
    ensures exists x :: x in copies && after <= x
  {
    forall x | x in copies
      ensures Carried(x, after, active)
    {
      CompletePrefix(x, before);
    }
    var y :| y in copies && before <= y;
    CompletePrefix(before, before);
    assert after <= y;
  }

  /** Cutting a torn tail keeps every disk traceable. */
  lemma StillDerived(a: State, mid: State, b: State, sources: seq<Vol>, lineage: set<nat>, unseen: set<(Vol, nat)>)
    requires Seedable(a, mid.disks, sources, lineage, unseen)
    requires forall v: Vol :: OpenedAt(Platter(mid.disks, v), Platter(b.disks, v), mid.segment)
    ensures Derived(a, b, sources) && Retained(a, b, sources, unseen)
  {
    forall v: Vol, s: nat
      ensures At(Platter(b.disks, v), s) <= At(Platter(a.disks, v), s) || WithinSource(a, sources, s, At(Platter(b.disks, v), s))
      ensures Complete(At(Platter(a.disks, v), s)) <= At(Platter(b.disks, v), s)
              || OutgrownBySource(a, sources, s, At(Platter(a.disks, v), s)) || (v, s) in unseen
    {
      SegmentStillDerived(a, mid, b, sources, unseen, v, s);
    }
  }

  lemma SegmentStillDerived(a: State, mid: State, b: State, sources: seq<Vol>, unseen: set<(Vol, nat)>, v: Vol, s: nat)
    requires Traceable(a, mid.disks, sources, unseen, v, s)
    requires OpenedAt(Platter(mid.disks, v), Platter(b.disks, v), mid.segment)
    ensures At(Platter(b.disks, v), s) <= At(Platter(a.disks, v), s) || WithinSource(a, sources, s, At(Platter(b.disks, v), s))
    ensures Complete(At(Platter(a.disks, v), s)) <= At(Platter(b.disks, v), s)
            || OutgrownBySource(a, sources, s, At(Platter(a.disks, v), s)) || (v, s) in unseen
  {
    var before, now, after := At(Platter(a.disks, v), s), At(Platter(mid.disks, v), s), At(Platter(b.disks, v), s);
    CompletePrefix(now, now);
    assert after <= now;
    if !(now <= before) {
      var i :| 0 <= i < |sources| && now <= At(Platter(a.disks, sources[i]), s);
      assert after <= At(Platter(a.disks, sources[i]), s);
    }
    if before <= now {
      CompletePrefix(before, now);
    }
  }

  /** A standing replica, if there is one, is the only source. */
  ghost predicate SourcesStand(a: State, unmounted: set<Vol>, sources: seq<Vol>) {
    Standing(a, unmounted) != {} ==> exists v :: v in Standing(a, unmounted) && sources == [v]
  }

  lemma StandingSourceIsPooled(a: State, unmounted: set<Vol>, sources: seq<Vol>, missed: Oversight, adopted: set<Vol>)
    requires SourcesStand(a, unmounted, sources) && Accounted(a, Standing(a, unmounted), sources, missed, adopted)
    ensures Standing(a, unmounted) != {} ==> FromStanding(a, unmounted, sources, missed)
  {
  }

  /** Opening an assembled set completes a re-election. */
  lemma OpeningCompletesReelection(a: State, mid: State, b: State, unmounted: set<Vol>, sources: seq<Vol>,
                                   lineage: set<nat>, kept: seq<Vol>, adopted: seq<Vol>, missed: Oversight)
    requires Valid(a) && (Standing(a, unmounted) != {} ==> FromStanding(a, unmounted, sources, missed))
    requires Assembled(a, mid, unmounted, sources, lineage, kept, adopted, missed)
    requires OpenEffect(mid, b)
    ensures ReelectEffect(a, b, unmounted, sources, missed)
  {
    StillDerived(a, mid, b, sources, lineage, missed.unseen);
    forall r | r in b.replicas
      ensures r.handle.Open? && InStep(b, r)
      ensures if r.vol in Standing(a, unmounted) then SameBytes(Platter(a.disks, r.vol), Platter(b.disks, r.vol))
              else Adopted(a, b, sources, missed, r.vol)
    {
      ReplicaCompletes(a, mid, b, unmounted, sources, lineage, kept, adopted, missed, r);
    }
  }

  lemma ReplicaCompletes(a: State, mid: State, b: State, unmounted: set<Vol>, sources: seq<Vol>,
                         lineage: set<nat>, kept: seq<Vol>, adopted: seq<Vol>, missed: Oversight, r: Replica)
    requires Valid(a) && Assembled(a, mid, unmounted, sources, lineage, kept, adopted, missed)
    requires OpenEffect(mid, b) && r in b.replicas
    ensures InStep(b, r)
    ensures if r.vol in Standing(a, unmounted) then SameBytes(Platter(a.disks, r.vol), Platter(b.disks, r.vol))
            else Adopted(a, b, sources, missed, r.vol)
  {
    assert r.vol in Elected(b) && r.vol in Elected(mid);
    var q :| q in mid.replicas && q.vol == r.vol;
    if r.vol in kept {
      KeptInStep(a, mid, b, unmounted, r);
    } else {
      AdoptedInStep(a, mid, b, sources, lineage, missed, r);
    }
  }

  /** Leaving the set as it stood, or empty, is a re-election too. */
  lemma StandingStill(a: State, b: State, unmounted: set<Vol>, sources: seq<Vol>, lineage: set<nat>, missed: Oversight)
    requires Valid(a) && (Standing(a, unmounted) != {} ==> FromStanding(a, unmounted, sources, missed)) && b.segment == a.segment
    requires Seedable(a, b.disks, sources, lineage, missed.unseen) && PoolsTraceable(a, sources, missed)
    requires forall v :: v in Standing(a, unmounted) ==> Platter(b.disks, v) == Platter(a.disks, v)
    requires DistinctVolumes(b.replicas)
    requires forall r :: r in b.replicas ==> r in a.replicas && r.handle.Open? && r.vol in Standing(a, unmounted)
    ensures ReelectEffect(a, b, unmounted, sources, missed)
  {
    assert forall v: Vol :: OpenedAt(Platter(b.disks, v), Platter(b.disks, v), b.segment);
    StillDerived(a, b, b, sources, lineage, missed.unseen);
    forall r | r in b.replicas
      ensures InStep(b, r)
    {
      assert InStep(a, r);
    }
  }

  function IdsOf(cs: seq<Election.Candidate>): (vs: seq<Vol>)
    ensures |vs| == |cs| && forall i :: 0 <= i < |cs| ==> vs[i] == cs[i].id
  {
    seq(|cs|, i requires 0 <= i < |cs| => cs[i].id)
  }

  function VolumesOf(rs: seq<Replica>): (vs: seq<Vol>)
    ensures |vs| == |rs| && forall i :: 0 <= i < |rs| ==> vs[i] == rs[i].vol
  {
    seq(|rs|, i requires 0 <= i < |rs| => rs[i].vol)
  }

  /** The open replicas among `replicas`: those kept rather than leave the journal nowhere to live. */
  function OpenOnes(replicas: seq<Replica>): (rs: seq<Replica>)
    ensures forall r :: r in rs <==> r in replicas && r.handle.Open?
    ensures DistinctVolumes(replicas) ==> DistinctVolumes(rs)
  {
    if replicas == [] then []
    else if replicas[0].handle.Open? then [replicas[0]] + OpenOnes(replicas[1..])
    else OpenOnes(replicas[1..])
  }

  /** How a rebuild ended. `Threw` is the only ending that leaves closed replicas elected. */
  datatype Ending = Rebuilt | KeptWhereItWas | NowhereToWrite | Threw

  /** Put the new set together on the active segment; everything moves when the segment moved. */
  method Assemble(a: State, closed: State, ghost unmounted: set<Vol>, disks: map<Vol, Disk>, sources: seq<Vol>,
                  lineage: set<nat>, kept: seq<Vol>, adopted: seq<Vol>, ghost chosen: seq<Vol>, ghost missed: Oversight)
    returns (mid: State)
    requires Valid(a) && ThrowEffect(a, closed, unmounted)
    requires Seated(a, Standing(a, unmounted), chosen, |chosen|, sources, lineage, disks, kept, adopted, missed)
    ensures Assembled(a, mid, unmounted, sources, lineage, kept, adopted, missed)
    ensures forall v :: v in kept + adopted ==> v in Elected(mid)
    ensures mid.segment == a.segment || mid.segment in lineage
  {
    ThrowKeeps(a, closed, unmounted);
    var next := Seats(closed.replicas, kept + adopted);
    var present := LineageOf(disks, sources);
    assert present == lineage;
    var top := Highest(present, a.segment);
    SeatsAreDistinct(closed.replicas, kept, adopted);
    forall q | q in next && q.handle.Open?
      ensures q in a.replicas && q.vol in kept
    {
      OpenIsUntouched(a, closed, unmounted, q);
      assert q.vol in Live(closed);
    }
    mid := State(disks, if top == a.segment then next else AllClosed(next), top);
    forall v | v in kept + adopted
      ensures v in Elected(mid)
    {
      var i :| 0 <= i < |kept + adopted| && (kept + adopted)[i] == v;
      assert mid.replicas[i] in mid.replicas;
    }
  }

  lemma SeatsAreDistinct(replicas: seq<Replica>, kept: seq<Vol>, adopted: seq<Vol>)
    requires Distinct(kept) && Distinct(adopted)
    requires forall v :: v in kept ==> v !in adopted
    ensures DistinctVolumes(Seats(replicas, kept + adopted))
    ensures forall q :: q in Seats(replicas, kept + adopted) ==> q.vol in kept || q.vol in adopted
  {
    assert forall i, j :: 0 <= i < |kept| && 0 <= j < |adopted| ==> kept[i] in kept && adopted[j] in adopted;
  }

  lemma OpenIsUntouched(a: State, closed: State, unmounted: set<Vol>, q: Replica)
    requires ThrowEffect(a, closed, unmounted) && q in closed.replicas && q.handle.Open?
    ensures q in a.replicas
  {
  }

  /** Where the history comes from this time: one standing replica, or what the platters agree on. */
  method FindSources(a: State, closed: State, world: World) returns (sources: Sources, standing: seq<Vol>)
    requires Valid(a) && ThrowEffect(a, closed, Unmounted(world.fleet))
    ensures forall v :: v in standing <==> v in Standing(a, Unmounted(world.fleet))
    ensures sources.From? ==> SourcesStand(a, Unmounted(world.fleet), sources.sources)
    ensures sources.FailClosed? ==> standing == [] && MayFailClosed(a, world)
    ensures standing == [] && sources.From? ==> FromTheMajority(a, world, sources.sources)
    ensures standing == [] && sources == From([]) ==>
              forall i :: 0 <= i < |world.fleet| && !world.fleet[i].isDeleted ==>
                Readable(world.fleet[i], world.listable) && !HasHistory(Platter(a.disks, world.fleet[i].id))
    ensures standing == [] && OneLook(a.disks, world.fleet, world.listable) ==>
              sources == if Found(a.disks, world.fleet, world.listable) == [] && SomeSilent(world.fleet, world.listable) then FailClosed
                         else From(Found(a.disks, world.fleet, world.listable))
  {
    ThrowKeeps(a, closed, Unmounted(world.fleet));
    standing := OpenVolumes(closed.replicas);
    assert forall v :: v in standing <==> v in Live(closed);
    sources := SeedSources(a.disks, standing, world.fleet, world.listable);
    if standing != [] {
      assert standing[0] in Standing(a, Unmounted(world.fleet));
    }
  }

  /** With nothing standing, the sources are a largest class of the look-alikes found, if there is just one. */
  ghost predicate FromTheMajority(a: State, world: World, sources: seq<Vol>) {
    exists classes :: Grouping(a.disks, Found(a.disks, world.fleet, world.listable), classes)
                      && Decided(classes, SomeSilent(world.fleet, world.listable), From(sources))
  }

  /** A cold start on histories with a tie for the largest class, or on none while a disk is silent. */
  ghost predicate MayFailClosed(a: State, world: World) {
    && Standing(a, Unmounted(world.fleet)) == {}
    && exists classes :: Grouping(a.disks, Found(a.disks, world.fleet, world.listable), classes)
                         && Decided(classes, SomeSilent(world.fleet, world.listable), FailClosed)
  }

  /** With nothing standing and every history in the rack alike, exactly those are the sources. */
  ghost predicate Searched(a: State, world: World, sources: seq<Vol>) {
    Standing(a, Unmounted(world.fleet)) == {} && OneLook(a.disks, world.fleet, world.listable) ==>
      sources == Found(a.disks, world.fleet, world.listable)
  }

  /** The rack holds every record of the log on a disk that is mounted, readable and not deleted. */
  ghost predicate FullCopyPresent(a: State, world: World, log: Log) {
    exists full :: HoldsAll(Platter(a.disks, full), log.bytes) && InTheRack(world, full)
  }

  ghost predicate InTheRack(world: World, v: Vol) {
    exists i :: 0 <= i < |world.fleet| && world.fleet[i].id == v && !world.fleet[i].isDeleted && Readable(world.fleet[i], world.listable)
  }

  /** No copy an adopted replica is put together from has a stray tail in a torn segment, except where it is opened. */
  ghost predicate NoStrayTails(a: State, b: State, unmounted: set<Vol>, sources: seq<Vol>, missed: Oversight, log: Log, torn: set<nat>) {
    forall v, s: nat :: v in Live(b) - Standing(a, unmounted) && s in torn && s != b.segment ==> NoStrayTail(a, sources, missed, v, log, s)
  }

  /** A log that has anything has something in its first segment. */
  ghost predicate Rooted(log: Log) {
    At(log.bytes, 0) == [] ==> forall s: nat :: At(log.bytes, s) == []
  }

  /** A cold start that can see a full copy, finds the histories alike and misses nothing has every segment in full. */
  ghost predicate GoodColdStart(a: State, world: World, missed: Oversight, log: Log) {
    missed == NOTHING_MISSED && OneLook(a.disks, world.fleet, world.listable) && FullCopyPresent(a, world, log) && Rooted(log)
  }

  lemma GoodColdStartHoldsAll(a: State, world: World, sources: seq<Vol>, log: Log, v: Vol, s: nat)
    requires InLockstep(a, log) && GoodColdStart(a, world, NOTHING_MISSED, log)
    requires Standing(a, Unmounted(world.fleet)) == {} && Searched(a, world, sources)
    ensures HeldInFull(a, sources, NOTHING_MISSED, v, log, s)
  {
    if At(log.bytes, 0) == [] {
      assert Trails(Platter(a.disks, v), log.bytes);
      assert At(Platter(a.disks, v), s) in Pool(a, sources, NOTHING_MISSED, v, s);
    } else {
      var full :| HoldsAll(Platter(a.disks, full), log.bytes) && InTheRack(world, full);
      FullCopyIsFound(a, log, world.fleet, world.listable, full);
      FoundAre(a.disks, world.fleet, world.listable);
      FullCopyInTheRack(a, log, full, sources, v, s);
    }
  }

  /**
    In an array that holds one log, a rebuild is an orderly step whenever a replica is standing, or a
    full copy can be read, the histories look alike and every look at a target succeeds; so no such
    start forgets a record, and it tears nothing.
   */
  lemma RebuildIsClean(a: State, b: State, world: World, sources: seq<Vol>, missed: Oversight, log: Log, torn: set<nat>)
    requires InLockstep(a, log) && TidyExcept(a, log, torn)
    requires ReelectEffect(a, b, Unmounted(world.fleet), sources, missed) && Searched(a, world, sources)
    requires Standing(a, Unmounted(world.fleet)) != {} || Live(b) == {} || GoodColdStart(a, world, missed, log)
    requires NoStrayTails(a, b, Unmounted(world.fleet), sources, missed, log, torn)
    ensures Orderly(a, Reelect(Unmounted(world.fleet), sources, missed), b, log, torn)
    ensures InLockstep(b, log) && TidyExcept(b, log, torn)
  {
    var e := Reelect(Unmounted(world.fleet), sources, missed);
    if Standing(a, e.unmounted) == {} && Live(b) != {} {
      forall v, s: nat | v in Live(b)
        ensures HeldInFull(a, sources, missed, v, log, s)
      {
        GoodColdStartHoldsAll(a, world, sources, log, v, s);
      }
    }
    StepKeepsTidy(a, e, b, log, torn);
    assert Extend(log, a, e, b) == log && torn + TornBy(a, e) == torn;
  }

  /** Where every disk holds a prefix of the log's first segment, histories look alike. */
  lemma TidyStartsAlike(a: State, log: Log, fleet: seq<FleetVolume>, listable: Vol -> bool)
    requires forall v: Vol :: TidyAt(a, log, v, 0)
    ensures OneLook(a.disks, fleet, listable)
  {
    forall u: Vol, v: Vol
      ensures Seeding.PrefixOrdered(At(Platter(a.disks, u), 0), At(Platter(a.disks, v), 0))
    {
      assert TidyAt(a, log, u, 0) && TidyAt(a, log, v, 0);
    }
    OneLogLooksAlike(a, fleet, listable);
  }

  /** And they still do after a crash that finds them so. */
  lemma CrashStartsAlike(a: State, batch: seq<Bytes>, b: State, log: Log, fleet: seq<FleetVolume>, listable: Vol -> bool)
    requires InLockstep(a, log) && CrashEffect(a, b, batch) && forall v: Vol :: TidyAt(a, log, v, 0)
    ensures OneLook(b.disks, fleet, listable)
  {
    var ceiling := if a.segment == 0 then At(log.bytes, 0) + Join(batch) else At(log.bytes, 0);
    forall v: Vol
      ensures At(Platter(b.disks, v), 0) <= ceiling
    {
      assert TidyAt(a, log, v, 0);
      if v in Live(a) {
        var n :| 0 <= n <= |Join(batch)| && Appended(Platter(a.disks, v), Platter(b.disks, v), a.segment, Join(batch)[..n]);
        assert At(Platter(a.disks, v), 0) == At(log.bytes, 0);
      } else {
        assert SameBytes(Platter(a.disks, v), Platter(b.disks, v));
      }
    }
    OneLogLooksAlike(b, fleet, listable);
  }

  lemma SurvivorHoldsAll(a: State, batch: seq<Bytes>, b: State, log: Log) returns (u: Vol)
    requires InLockstep(a, log) && AreLines(batch) && CrashEffect(a, b, batch) && Live(a) != {}
    ensures u in Live(a) && HoldsAll(Platter(b.disks, u), Extend(log, a, JournalProtocol.Crash(batch), b).bytes)
  {
    u := SomeDiskHasTheSurvivors(a, b, batch, log);
    forall s: nat
      ensures Complete(At(Platter(b.disks, u), s)) == At(Extend(log, a, JournalProtocol.Crash(batch), b).bytes, s)
    {
      if s != a.segment {
        LogAfterCrash(a, b, batch, log, s);
        CrashElsewhere(a, b, batch, u, s);
        assert At(Platter(a.disks, u), s) == At(log.bytes, s);
        BoundaryIsComplete(At(log.bytes, s));
      }
    }
  }

  /** The rack as a process that died in state `a` finds it: disks as in `b`, those being written among them. */
  ghost predicate Recoverable(a: State, b: State, world: World, log: Log) {
    && (forall u :: u in Live(a) ==> InTheRack(world, u))
    && OneLook(b.disks, world.fleet, world.listable)
    && OnHighest(b.disks, Found(b.disks, world.fleet, world.listable), 0, a.segment)
    && Rooted(log)
  }

  /**
    The process dies part-way through a batch. If the disks that were being written can be read when
    it comes back, the histories look alike, the segment being written is the highest of them, and
    every look at a target succeeds, then whatever else fails the rebuilt replicas are byte for byte
    the log with the lines of that batch that survived anywhere, and nothing is torn but that segment.
   */
  lemma RebuildAfterCrash(a: State, batch: seq<Bytes>, b: State, c: State, world: World, sources: seq<Vol>, missed: Oversight, log: Log)
    requires InLockstep(a, log) && TidyExcept(a, log, {a.segment}) && Live(a) != {} && Next(a, JournalProtocol.Crash(batch), b)
    requires Recoverable(a, b, world, Extend(log, a, JournalProtocol.Crash(batch), b))
    requires ReelectEffect(b, c, Unmounted(world.fleet), sources, missed) && Searched(b, world, sources)
    requires Live(c) == {} || (OnHighest(b.disks, sources, b.segment, c.segment) && missed == NOTHING_MISSED)
    ensures InLockstep(c, Extend(log, a, JournalProtocol.Crash(batch), b))
    ensures TidyExcept(c, Extend(log, a, JournalProtocol.Crash(batch), b), {a.segment})
  {
    var log' := Extend(log, a, JournalProtocol.Crash(batch), b);
    CrashLeavesAGoodStart(a, batch, b, world, log);
    ColdRebuildIsClean(b, c, world, sources, missed, log', a.segment);
  }

  lemma NothingElseIsTorn(b: State, c: State, unmounted: set<Vol>, sources: seq<Vol>, missed: Oversight, log: Log, segment: nat)
    requires Live(c) == {} || (OnHighest(b.disks, sources, b.segment, c.segment) && OnHighest(b.disks, sources, b.segment, segment))
    ensures NoStrayTails(b, c, unmounted, sources, missed, log, {segment})
  {
    if Live(c) != {} {
      HighestIsUnique(b.disks, sources, b.segment, segment, c.segment);
    }
  }

  /** A cold start on the highest segment there is, which is the only one torn. */
  lemma ColdRebuildIsClean(b: State, c: State, world: World, sources: seq<Vol>, missed: Oversight, log: Log, segment: nat)
    requires InLockstep(b, log) && TidyExcept(b, log, {segment}) && GoodColdStart(b, world, NOTHING_MISSED, log)
    requires Standing(b, Unmounted(world.fleet)) == {} && OnHighest(b.disks, Found(b.disks, world.fleet, world.listable), b.segment, segment)
    requires ReelectEffect(b, c, Unmounted(world.fleet), sources, missed) && Searched(b, world, sources)
    requires Live(c) == {} || (OnHighest(b.disks, sources, b.segment, c.segment) && missed == NOTHING_MISSED)
    ensures InLockstep(c, log) && TidyExcept(c, log, {segment})
  {
    NothingElseIsTorn(b, c, Unmounted(world.fleet), sources, missed, log, segment);
    RebuildIsClean(b, c, world, sources, missed, log, {segment});
  }

  /** What the process comes back to. */
  lemma CrashLeavesAGoodStart(a: State, batch: seq<Bytes>, b: State, world: World, log: Log)
    requires InLockstep(a, log) && TidyExcept(a, log, {a.segment}) && Live(a) != {} && Next(a, JournalProtocol.Crash(batch), b)
    requires Recoverable(a, b, world, Extend(log, a, JournalProtocol.Crash(batch), b))
    ensures var log' := Extend(log, a, JournalProtocol.Crash(batch), b);
            && InLockstep(b, log') && TidyExcept(b, log', {a.segment})
            && GoodColdStart(b, world, NOTHING_MISSED, log')
    ensures Standing(b, Unmounted(world.fleet)) == {}
  {
    var e := JournalProtocol.Crash(batch);
    StepKeepsTidy(a, e, b, log, {a.segment});
    assert {a.segment} + TornBy(a, e) == {a.segment};
    var u := SurvivorHoldsAll(a, batch, b, log);
    assert FullCopyPresent(b, world, Extend(log, a, e, b));
  }

  // ---------------------------------------------------------------------------------------------
  // Who is in the set that comes out.

  /** Whom a rebuild elected, and whom of those it could not copy the history onto. */
  datatype Plan = Plan(chosen: seq<Election.Candidate>, broken: set<Vol>)

  /** A volume that can be listed, holds nothing outside the sources' list, and took every copy. */
  ghost predicate Seatable(a: State, world: World, sources: seq<Vol>, plan: Plan, v: Vol) {
    && world.listable(v) && v !in plan.broken
    && forall s: nat :: At(Platter(a.disks, v), s) != [] ==> ListedNow(a.disks, sources, s)
  }

  ghost predicate Chosen(plan: Plan, v: Vol) {
    exists c :: c in plan.chosen && c.id == v
  }

  /**
    The set is exactly who was elected, less those that could not be seated and those that would not
    open: nobody else is in it, and nobody else is missing.
   */
  ghost predicate FromTheElected(a: State, b: State, world: World, sources: seq<Vol>, plan: Plan) {
    && (forall v :: v in Elected(b) ==> SeatedIn(a, world, sources, plan, v) && (world.opening(v).Opens? || StaysOpen(a, b, world, v)))
    && (forall v :: SeatedIn(a, world, sources, plan, v) && world.opening(v).Opens? ==> v in Live(b))
  }

  /** A chosen volume that kept its seat or could be given one. */
  ghost predicate SeatedIn(a: State, world: World, sources: seq<Vol>, plan: Plan, v: Vol) {
    Chosen(plan, v) && (v in Standing(a, Unmounted(world.fleet)) || Seatable(a, world, sources, plan, v))
  }

  /** A kept replica that need not be opened, since the segment is the one it is open on. */
  ghost predicate StaysOpen(a: State, b: State, world: World, v: Vol) {
    v in Standing(a, Unmounted(world.fleet)) && b.segment == a.segment
  }

  /** None was seatable. */
  ghost predicate NoneToSeat(a: State, world: World, sources: seq<Vol>, plan: Plan) {
    forall v :: Chosen(plan, v) ==> v !in Standing(a, Unmounted(world.fleet)) && !Seatable(a, world, sources, plan, v)
  }

  /**
    Rebuild the replica set. Whatever fails on the way, the result is a re-election in the sense
    of the protocol, or nothing happened but the closing of unmounted replicas.
   */
  method Rebuild(a: State, world: World, wanted: nat)
    returns (b: State, ending: Ending, sources: seq<Vol>, ghost missed: Oversight, ghost plan: Plan)
    requires Valid(a) && wanted >= 1 && Election.DistinctIds(world.candidates)
    ensures ending.Threw? ==> ThrowEffect(a, b, Unmounted(world.fleet))
    ensures !ending.Threw? ==> ReelectEffect(a, b, Unmounted(world.fleet), sources, missed)
    ensures ending.NowhereToWrite? ==> b.replicas == []
    ensures ending.KeptWhereItWas? ==> Live(b) == Standing(a, Unmounted(world.fleet)) != {}
    ensures !ending.Threw? ==> Searched(a, world, sources)
    ensures ending.Rebuilt? && Standing(a, Unmounted(world.fleet)) == {} && sources == [] ==>
              Histories(a.disks, world.fleet, world.listable) == {}
    ensures ending.Rebuilt? ==> OnHighest(a.disks, sources, a.segment, b.segment)
    ensures AllLooksSucceed(world) ==> missed == NOTHING_MISSED
    ensures Election.IsElection(world.candidates, VolumesOf(a.replicas), wanted, plan.chosen)
    ensures forall v :: v in plan.broken ==> !SureToSeed(a, sources, world.weather, v)
    ensures ending.Rebuilt? ==> FromTheElected(a, b, world, sources, plan)
    ensures ending.Rebuilt? && Standing(a, Unmounted(world.fleet)) == {} ==> FromTheMajority(a, world, sources)
    // The last copy is never retired to nowhere: with none to seat, what stands stays.
    ensures ending.KeptWhereItWas? <==>
              Standing(a, Unmounted(world.fleet)) != {} && world.lineageReadable && NoneToSeat(a, world, sources, plan)
    ensures ending.NowhereToWrite? ==> !world.segmentsReadable || MayFailClosed(a, world)
    ensures !world.segmentsReadable ==> !ending.Rebuilt?
    ensures ending.Threw? ==> !world.lineageReadable
    ensures !world.lineageReadable ==> ending.Threw? || (ending.NowhereToWrite? && MayFailClosed(a, world))
    ensures NothingFails(a, world, sources) ==> ending.Rebuilt? && |Live(b)| == Min(wanted, |world.candidates|)
  {
    ghost var unmounted := Unmounted(world.fleet);
    missed := NOTHING_MISSED;
    var chosen := Election.ChooseReplicas(world.candidates, VolumesOf(a.replicas), wanted);
    plan := Plan(chosen, {});
    var closed := CloseUnmounted(a, world.fleet);
    var found, standing := FindSources(a, closed, world);
    if found.FailClosed? {
      assert Standing(a, unmounted) == {};
      NothingSeatedYet(a, {}, [], [], {});
      b, ending, sources := State(a.disks, [], a.segment), NowhereToWrite, [];
      StandingStill(a, b, unmounted, [], {}, NOTHING_MISSED);
      return;
    }
    sources := found.sources;
    assert standing == [] ==> Standing(a, unmounted) == {};
    assert Standing(a, unmounted) == {} ==> standing == [] by {
      assert standing != [] ==> standing[0] in Standing(a, unmounted);
    }
    if !world.lineageReadable {
      b, ending := closed, Threw;
      return;
    }
    b, ending, missed, plan := Reseat(a, closed, world, chosen, standing, sources);
    FoundAre(a.disks, world.fleet, world.listable);
    if NothingFails(a, world, sources) {
      NothingFailsFillsTheSet(a, b, world, sources, plan, wanted, ending);
    }
  }

  /**
    Nothing stands in the way: the lineage can be read, there are candidates, and each can be listed,
    holds nothing outside the sources' list, is sure to be seeded and opens.
   */
  ghost predicate NothingFails(a: State, world: World, sources: seq<Vol>) {
    && world.lineageReadable && world.segmentsReadable && !MayFailClosed(a, world) && world.candidates != []
    && forall c :: c in world.candidates ==>
         && world.listable(c.id) && world.opening(c.id).Opens? && SureToSeed(a, sources, world.weather, c.id)
         && forall s: nat :: At(Platter(a.disks, c.id), s) != [] ==> ListedNow(a.disks, sources, s)
  }

  /** When nothing fails the set is as large as it can be. */
  lemma NothingFailsFillsTheSet(a: State, b: State, world: World, sources: seq<Vol>, plan: Plan, wanted: nat, ending: Ending)
    requires NothingFails(a, world, sources) && wanted >= 1
    requires Election.IsElection(world.candidates, VolumesOf(a.replicas), wanted, plan.chosen)
    requires forall v :: v in plan.broken ==> !SureToSeed(a, sources, world.weather, v)
    requires ending.Rebuilt? ==> FromTheElected(a, b, world, sources, plan) && NoneClosed(b)
    requires ending.KeptWhereItWas? ==> NoneToSeat(a, world, sources, plan)
    requires !ending.NowhereToWrite? && !ending.Threw?
    ensures ending.Rebuilt? && |Live(b)| == Min(wanted, |world.candidates|)
  {
    forall v | Chosen(plan, v)
      ensures Seatable(a, world, sources, plan, v) && world.opening(v).Opens?
    {
      var c :| c in plan.chosen && c.id == v;
      assert c in world.candidates;
    }
    var c := plan.chosen[0];
    assert Chosen(plan, c.id);
    assert ending.Rebuilt?;
    assert Election.Ids(plan.chosen) == Live(b) by {
      assert forall v :: v in Live(b) ==> v in Elected(b);
    }
    Election.SizeOfIds(plan.chosen);
  }

  ghost predicate AllLooksSucceed(world: World) {
    forall v, k: nat :: Seeding.SeesAll(world.weather(v)(k))
  }

  /** Who was chosen is in the set if it was seated and opens, and nobody else is. */
  lemma SetIsFromTheElected(a: State, mid: State, b: State, world: World, sources: seq<Vol>, lineage: set<nat>, plan: Plan,
                            disks: map<Vol, Disk>, kept: seq<Vol>, adopted: seq<Vol>, missed: Oversight)
    requires var ids, unmounted := IdsOf(plan.chosen), Unmounted(world.fleet);
             && Seated(a, Standing(a, unmounted), ids, |ids|, sources, lineage, disks, kept, adopted, missed)
             && (forall v :: v in ids ==> TurnedAway(a, Standing(a, unmounted), lineage, v, adopted, plan.broken, world.listable(v)))
    requires forall s: nat :: s in lineage <==> ListedNow(a.disks, sources, s)
    requires (forall q :: q in mid.replicas ==> q.vol in kept || q.vol in adopted) && (forall v :: v in kept + adopted ==> v in Elected(mid))
    requires forall q :: q in mid.replicas && q.handle.Open? ==> q.vol in kept && mid.segment == a.segment
    requires OpenEffect(mid, b) && ThoseThatStay(mid, b.replicas, |mid.replicas|, world.opening) && DistinctVolumes(mid.replicas)
    ensures FromTheElected(a, b, world, sources, plan)
  {
    var ids, unmounted := IdsOf(plan.chosen), Unmounted(world.fleet);
    SeatedAreChosen(plan, Standing(a, unmounted), kept, adopted);
    forall v | v in Elected(b)
      ensures SeatedIn(a, world, sources, plan, v) && (world.opening(v).Opens? || StaysOpen(a, b, world, v))
    {
      InTheSetWasOpened(mid, b, world.opening, v);
      SeatedWasSeatable(a, world, sources, lineage, plan, kept, adopted, v);
    }
    forall v | SeatedIn(a, world, sources, plan, v) && world.opening(v).Opens?
      ensures v in Live(b)
    {
      SeatableIsSeated(a, world, sources, lineage, plan, kept, adopted, v);
      OpensIntoTheSet(mid, b, world.opening, v);
    }
  }

  lemma SeatedAreChosen(plan: Plan, standing: set<Vol>, kept: seq<Vol>, adopted: seq<Vol>)
    requires SeatsFilled(standing, IdsOf(plan.chosen), |plan.chosen|, kept, adopted)
    ensures forall v :: v in IdsOf(plan.chosen) <==> Chosen(plan, v)
    ensures forall v :: v in kept || v in adopted ==> Chosen(plan, v)
  {
    var ids := IdsOf(plan.chosen);
    assert ids[..|ids|] == ids;
    forall v
      ensures v in ids <==> Chosen(plan, v)
    {
      if v in ids {
        var i :| 0 <= i < |ids| && ids[i] == v;
        assert plan.chosen[i] in plan.chosen;
      }
      if Chosen(plan, v) {
        var c :| c in plan.chosen && c.id == v;
        var i :| 0 <= i < |plan.chosen| && plan.chosen[i] == c;
        assert ids[i] == v;
      }
    }
  }

  lemma SeatableIsSeated(a: State, world: World, sources: seq<Vol>, lineage: set<nat>, plan: Plan, kept: seq<Vol>, adopted: seq<Vol>, v: Vol)
    requires var ids, standing := IdsOf(plan.chosen), Standing(a, Unmounted(world.fleet));
             && SeatsFilled(standing, ids, |ids|, kept, adopted) && v in ids
             && TurnedAway(a, standing, lineage, v, adopted, plan.broken, world.listable(v))
    requires forall s: nat :: s in lineage <==> ListedNow(a.disks, sources, s)
    requires v in Standing(a, Unmounted(world.fleet)) || Seatable(a, world, sources, plan, v)
    ensures v in kept + adopted
  {
    var ids := IdsOf(plan.chosen);
    assert ids[..|ids|] == ids;
    if v !in Standing(a, Unmounted(world.fleet)) {
      assert !Foreign(Platter(a.disks, v), lineage) by {
        assert forall s :: s in Platter(a.disks, v) && Platter(a.disks, v)[s] != [] ==> At(Platter(a.disks, v), s) != [];
      }
    }
  }

  lemma SeatedWasSeatable(a: State, world: World, sources: seq<Vol>, lineage: set<nat>, plan: Plan, kept: seq<Vol>, adopted: seq<Vol>, v: Vol)
    requires var ids, standing := IdsOf(plan.chosen), Standing(a, Unmounted(world.fleet));
             && SeatsFilled(standing, ids, |ids|, kept, adopted)
             && (forall u :: u in ids ==> TurnedAway(a, standing, lineage, u, adopted, plan.broken, world.listable(u)))
    requires forall s: nat :: s in lineage <==> ListedNow(a.disks, sources, s)
    requires v in kept || v in adopted
    ensures SeatedIn(a, world, sources, plan, v)
  {
    SeatedAreChosen(plan, Standing(a, Unmounted(world.fleet)), kept, adopted);
    var ids := IdsOf(plan.chosen);
    assert ids[..|ids|] == ids;
    if v in adopted {
      assert TurnedAway(a, Standing(a, Unmounted(world.fleet)), lineage, v, adopted, plan.broken, world.listable(v));
      forall s: nat | At(Platter(a.disks, v), s) != []
        ensures ListedNow(a.disks, sources, s)
      {
        assert s in Platter(a.disks, v) && Platter(a.disks, v)[s] != [];
      }
    }
  }

  lemma InTheSetWasOpened(mid: State, b: State, opening: Vol -> Opening, v: Vol)
    requires v in Elected(b) && DistinctVolumes(mid.replicas) && ThoseThatStay(mid, b.replicas, |mid.replicas|, opening)
    ensures exists q :: q in mid.replicas && q.vol == v && (q.handle.Open? || opening(v).Opens?)
  {
    var r :| r in b.replicas && r.vol == v;
    var j :| 0 <= j < |mid.replicas| && mid.replicas[j].vol == v;
    assert Ready(b.replicas, v) && StaysIn(mid.replicas[j], opening);
    assert mid.replicas[j] in mid.replicas;
  }

  lemma OpensIntoTheSet(mid: State, b: State, opening: Vol -> Opening, v: Vol)
    requires OpenEffect(mid, b) && ThoseThatStay(mid, b.replicas, |mid.replicas|, opening)
    requires v in Elected(mid) && opening(v).Opens?
    ensures v in Live(b)
  {
    var j :| 0 <= j < |mid.replicas| && mid.replicas[j].vol == v;
    assert StaysIn(mid.replicas[j], opening);
    assert Ready(b.replicas, v);
    var r :| r in b.replicas && r.vol == v;
    assert OpenedReplica(mid, b, r);
  }

  /** With no seat filled, none was seatable. */
  lemma NoSeatFilled(a: State, world: World, sources: seq<Vol>, lineage: set<nat>, plan: Plan)
    requires var ids, standing := IdsOf(plan.chosen), Standing(a, Unmounted(world.fleet));
             && SeatsFilled(standing, ids, |ids|, [], [])
             && (forall v :: v in ids ==> TurnedAway(a, standing, lineage, v, [], plan.broken, world.listable(v)))
    requires forall s: nat :: s in lineage <==> ListedNow(a.disks, sources, s)
    ensures NoneToSeat(a, world, sources, plan)
  {
    SeatedAreChosen(plan, Standing(a, Unmounted(world.fleet)), [], []);
    forall v | Chosen(plan, v)
      ensures v !in Standing(a, Unmounted(world.fleet)) && !Seatable(a, world, sources, plan, v)
    {
      if v in Standing(a, Unmounted(world.fleet)) || Seatable(a, world, sources, plan, v) {
        SeatableIsSeated(a, world, sources, lineage, plan, [], [], v);
      }
    }
  }

  /** Open the set that was put together. */
  method OpenSet(a: State, mid: State, world: World, ghost disks: map<Vol, Disk>, ghost sources: seq<Vol>, ghost lineage: set<nat>,
                 ghost kept: seq<Vol>, ghost adopted: seq<Vol>, ghost plan: Plan, ghost missed: Oversight)
    returns (b: State)
    requires Valid(a) && (Standing(a, Unmounted(world.fleet)) != {} ==> FromStanding(a, Unmounted(world.fleet), sources, missed))
    requires Assembled(a, mid, Unmounted(world.fleet), sources, lineage, kept, adopted, missed)
    requires (mid.segment == a.segment || mid.segment in lineage) && (forall v :: v in kept + adopted ==> v in Elected(mid))
    requires var ids := IdsOf(plan.chosen);
             && Seated(a, Standing(a, Unmounted(world.fleet)), ids, |ids|, sources, lineage, disks, kept, adopted, missed)
             && (forall v :: v in ids ==> TurnedAway(a, Standing(a, Unmounted(world.fleet)), lineage, v, adopted, plan.broken, world.listable(v)))
    requires forall s: nat :: s in lineage <==> ListedNow(a.disks, sources, s)
    ensures ReelectEffect(a, b, Unmounted(world.fleet), sources, missed)
    ensures FromTheElected(a, b, world, sources, plan) && OnHighest(a.disks, sources, a.segment, b.segment)
  {
    b := OpenAll(mid, world.opening);
    SetIsFromTheElected(a, mid, b, world, sources, lineage, plan, disks, kept, adopted, missed);
    OpeningCompletesReelection(a, mid, b, Unmounted(world.fleet), sources, lineage, kept, adopted, missed);
  }

  /** With a seat filled, its holder was seatable. */
  lemma SomeSeatFilled(a: State, world: World, sources: seq<Vol>, lineage: set<nat>, plan: Plan, kept: seq<Vol>, adopted: seq<Vol>)
    requires var ids, standing := IdsOf(plan.chosen), Standing(a, Unmounted(world.fleet));
             && SeatsFilled(standing, ids, |ids|, kept, adopted)
             && (forall u :: u in ids ==> TurnedAway(a, standing, lineage, u, adopted, plan.broken, world.listable(u)))
    requires forall s: nat :: s in lineage <==> ListedNow(a.disks, sources, s)
    requires kept + adopted != []
    ensures !NoneToSeat(a, world, sources, plan)
  {
    var v := (kept + adopted)[0];
    assert v in kept || v in adopted;
    SeatedWasSeatable(a, world, sources, lineage, plan, kept, adopted, v);
  }

  /** Leave the journal where it is. */
  method StayPut(a: State, closed: State, world: World, disks: map<Vol, Disk>, ghost sources: seq<Vol>, ghost lineage: set<nat>, ghost missed: Oversight)
    returns (b: State)
    requires Valid(a) && ThrowEffect(a, closed, Unmounted(world.fleet))
    requires Standing(a, Unmounted(world.fleet)) != {} ==> FromStanding(a, Unmounted(world.fleet), sources, missed)
    requires Seedable(a, disks, sources, lineage, missed.unseen) && PoolsTraceable(a, sources, missed)
    requires forall v :: v in Standing(a, Unmounted(world.fleet)) ==> Platter(disks, v) == Platter(a.disks, v)
    ensures ReelectEffect(a, b, Unmounted(world.fleet), sources, missed)
    ensures Live(b) == Standing(a, Unmounted(world.fleet))
  {
    ghost var unmounted := Unmounted(world.fleet);
    ThrowKeeps(a, closed, unmounted);
    b := State(disks, OpenOnes(closed.replicas), a.segment);
    assert Live(b) == Live(closed);
    forall q | q in b.replicas
      ensures q in a.replicas && q.vol in Live(closed)
    {
      OpenIsUntouched(a, closed, unmounted, q);
    }
    StandingStill(a, b, unmounted, sources, lineage, missed);
  }

  /** Seed the chosen volumes and open whatever could be seated. */
  method Reseat(a: State, closed: State, world: World, chosen: seq<Election.Candidate>, standing: seq<Vol>, sources: seq<Vol>)
    returns (b: State, ending: Ending, ghost missed: Oversight, ghost plan: Plan)
    requires Valid(a) && ThrowEffect(a, closed, Unmounted(world.fleet)) && Election.DistinctIds(chosen)
    requires forall v :: v in standing <==> v in Standing(a, Unmounted(world.fleet))
    requires SourcesStand(a, Unmounted(world.fleet), sources)
    ensures !ending.Threw? && ReelectEffect(a, b, Unmounted(world.fleet), sources, missed)
    ensures ending.NowhereToWrite? ==> b.replicas == []
    ensures ending.KeptWhereItWas? ==> Live(b) == Standing(a, Unmounted(world.fleet)) != {}
    ensures ending.Rebuilt? ==> OnHighest(a.disks, sources, a.segment, b.segment)
    ensures AllLooksSucceed(world) ==> missed == NOTHING_MISSED
    ensures plan.chosen == chosen && forall v :: v in plan.broken ==> !SureToSeed(a, sources, world.weather, v)
    ensures ending.Rebuilt? ==> FromTheElected(a, b, world, sources, plan)
    // The last copy is never retired to nowhere: with none to seat, what stands stays.
    ensures ending.KeptWhereItWas? <==> Standing(a, Unmounted(world.fleet)) != {} && NoneToSeat(a, world, sources, plan)
    ensures ending.NowhereToWrite? <==> !ending.KeptWhereItWas? && !world.segmentsReadable
  {
    ghost var unmounted := Unmounted(world.fleet);
    ThrowKeeps(a, closed, unmounted);
    var lineage := LineageOf(a.disks, sources);
    var seats := set v | v in standing;
    assert seats == Standing(a, unmounted);
    var disks, kept, adopted;
    ghost var broken;
    disks, kept, adopted, missed, broken := FillSeats(a, seats, IdsOf(chosen), sources, lineage, world.listable, world.weather);
    plan := Plan(chosen, broken);
    StandingSourceIsPooled(a, unmounted, sources, missed, set v | v in adopted);
    if kept + adopted == [] && standing != [] {
      NoSeatFilled(a, world, sources, lineage, plan);
      b := StayPut(a, closed, world, disks, sources, lineage, missed);
      ending := KeptWhereItWas;
      assert standing[0] in Standing(a, unmounted);
      return;
    }
    if kept + adopted != [] {
      SomeSeatFilled(a, world, sources, lineage, plan, kept, adopted);
    }
    if !world.segmentsReadable {
      b, ending := State(disks, [], a.segment), NowhereToWrite;
      StandingStill(a, b, unmounted, sources, lineage, missed);
      return;
    }
    var mid := Assemble(a, closed, unmounted, disks, sources, lineage, kept, adopted, IdsOf(chosen), missed);
    b := OpenSet(a, mid, world, disks, sources, lineage, kept, adopted, plan, missed);
    ending := Rebuilt;
  }
}
