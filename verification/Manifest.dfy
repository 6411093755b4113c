/**
  The bootstrap manifest: one copy per disk, hydrated from whichever disks can be read and
  refreshed on whichever can be written, never moving a disk's snapshot pointer backwards.
 */
module Manifest {
  import opened Prelude

  type Vol = nat

  /** A snapshot pointer as parsed: the date and the count are present only if they make sense. */
  datatype Ref = Ref(objectId: string, completedAt: Option<int>, objects: Option<int>)

  datatype Manifest = Manifest(
    identity: string,
    updatedAt: Option<int>,
    snapshot: Option<Ref>,
    previous: Option<Ref>,
    journalIds: Option<seq<Vol>>)

  /** The manifest file of one disk: none, one that does not parse, or one that does. */
  datatype Slot = Nothing | Garbage | Holds(m: Manifest)

  predicate IsHexDigit(c: char) {
    '0' <= c <= '9' || 'a' <= c <= 'f' || 'A' <= c <= 'F'
  }

  predicate Usable(ref: Option<Ref>) {
    && ref.Some?
    && |ref.value.objectId| == 24 && (forall c :: c in ref.value.objectId ==> IsHexDigit(c))
    && ref.value.completedAt.Some? && ref.value.objects.Some?
  }

  function Time(ref: Option<Ref>): int
    requires Usable(ref)
  {
    ref.value.completedAt.value
  }

  /** Strictly newer; a pointer that cannot be used loses to one that can. */
  predicate IsNewer(a: Option<Ref>, b: Option<Ref>)
    requires Usable(a)
  {
    !Usable(b) || Time(a) > Time(b)
  }

  function Pointer(slot: Slot): Option<Ref> {
    if slot.Holds? then slot.m.snapshot else None
  }

  /** `after` has a usable pointer at least as recent as any `before` had. */
  predicate NotOlder(before: Option<Ref>, after: Option<Ref>) {
    Usable(before) ==> Usable(after) && Time(after) >= Time(before)
  }

  /** What goes onto a disk that already has a manifest: each question answered by whoever knows more recently. */
  function Merge(ours: Manifest, existing: Slot, live: bool, from: Option<int>): Manifest {
    if !existing.Holds? then ours
    else
      var theirs := existing.m;
      var snapshot := if Usable(theirs.snapshot) && IsNewer(theirs.snapshot, ours.snapshot)
                      then ours.(snapshot := theirs.snapshot, previous := if theirs.previous.Some? then theirs.previous else ours.previous)
                      else ours;
      if KeepsJournal(theirs, live, from) then snapshot.(journalIds := theirs.journalIds) else snapshot
  }

  predicate KeepsJournal(theirs: Manifest, live: bool, from: Option<int>) {
    && !live
    && theirs.journalIds.Some? && theirs.journalIds.value != []
    && theirs.updatedAt.Some? && (from.None? || theirs.updatedAt.value > from.value)
  }

  /** Merging loses neither side's pointer to an older one, and says nothing the two did not say. */
  lemma MergeIsTheNewer(ours: Manifest, existing: Slot, live: bool, from: Option<int>)
    ensures var out := Merge(ours, existing, live, from);
            && NotOlder(Pointer(existing), out.snapshot)
            && NotOlder(ours.snapshot, out.snapshot)
            && (out.snapshot == ours.snapshot || out.snapshot == Pointer(existing))
            && out.identity == ours.identity && out.updatedAt == ours.updatedAt
  {
  }

  /**
    A pointer whose id is not 24 hex digits, that is not dated or has no count, is a shape and not a
    snapshot: it is never taken from a disk, and the manifest that names it is not believed about snapshots.
   */
  lemma ShapesAreIgnored(ours: Manifest, theirs: Manifest, live: bool, from: Option<int>, i: nat)
    requires theirs.snapshot.Some? && theirs.snapshot != ours.snapshot
    requires var ref := theirs.snapshot.value;
             || |ref.objectId| != 24 || ref.completedAt.None? || ref.objects.None?
             || (i < |ref.objectId| && !('0' <= ref.objectId[i] <= '9' || 'a' <= ref.objectId[i] <= 'f' || 'A' <= ref.objectId[i] <= 'F'))
    ensures Merge(ours, Holds(theirs), live, from).snapshot == ours.snapshot
    ensures !Eligible(Holds(theirs), None, true)
  {
    var id := theirs.snapshot.value.objectId;
    assert i < |id| ==> id[i] in id;
  }

  /** And one that is all that is taken from a disk we know nothing newer than. */
  lemma SnapshotsAreTaken(ours: Manifest, theirs: Manifest, live: bool, from: Option<int>, ref: Ref)
    requires theirs.snapshot == Some(ref) && ours.snapshot == None
    requires |ref.objectId| == 24 && ref.completedAt.Some? && ref.objects.Some?
    requires forall c :: c in ref.objectId ==> '0' <= c <= '9' || 'a' <= c <= 'f' || 'A' <= c <= 'F'
    ensures Merge(ours, Holds(theirs), live, from).snapshot == theirs.snapshot
    ensures theirs.updatedAt.Some? ==> Eligible(Holds(theirs), Some(theirs.identity), true)
  {
  }

  /**
    Where the journal is said to be after a merge. Once the running journal has spoken it is our word;
    before, it is the disk's exactly when the disk has something to say, dated, and ours is from
    nowhere or from an older manifest.
   */
  lemma JournalLocationIff(ours: Manifest, existing: Slot, live: bool, from: Option<int>)
    ensures var out := Merge(ours, existing, live, from).journalIds;
            && (live || !existing.Holds? ==> out == ours.journalIds)
            && (!live && existing.Holds? && existing.m.journalIds != ours.journalIds ==>
                  (out == existing.m.journalIds <==>
                     && existing.m.journalIds.Some? && |existing.m.journalIds.value| > 0
                     && existing.m.updatedAt.Some? && (from.None? || existing.m.updatedAt.value > from.value)))
            && (out == ours.journalIds || (existing.Holds? && out == existing.m.journalIds))
  {
  }

  /** The manifest the scan may believe: ours, dated, and, if that is the question, naming a usable snapshot. */
  predicate Eligible(slot: Slot, identity: Option<string>, withSnapshot: bool) {
    && slot.Holds?
    && (identity.Some? ==> slot.m.identity == identity.value)
    && slot.m.updatedAt.Some?
    && (withSnapshot ==> Usable(slot.m.snapshot))
  }

  function Rank(m: Manifest, withSnapshot: bool): int
    requires Eligible(Holds(m), None, withSnapshot)
  {
    if withSnapshot then Time(m.snapshot) else m.updatedAt.value
  }

  /** How one write of a manifest file goes. It is a rename, so the old file or the new one is there. */
  datatype Fate = Works | Throws(renamed: bool)

  function SlotOf(platters: map<Vol, Slot>, v: Vol): Slot {
    if v in platters then platters[v] else Nothing
  }

  /** The best manifest of the first `i` targets, and how many of them could not be read. */
  ghost predicate BestOf(platters: map<Vol, Slot>, targets: seq<Vol>, i: nat, readable: Vol -> bool, identity: Option<string>,
                         withSnapshot: bool, best: Option<Manifest>)
    requires i <= |targets|
  {
    && (best.Some? ==> Eligible(Holds(best.value), identity, withSnapshot))
    && (best.Some? ==> exists j :: 0 <= j < i && readable(targets[j]) && SlotOf(platters, targets[j]) == Holds(best.value))
    && forall j :: 0 <= j < i && readable(targets[j]) && Eligible(SlotOf(platters, targets[j]), identity, withSnapshot) ==>
         best.Some? && Eligible(Holds(best.value), None, withSnapshot) && Rank(best.value, withSnapshot) >= Rank(SlotOf(platters, targets[j]).m, withSnapshot)
  }

  /** A target whose manifest is there and could not be made sense of. */
  predicate Silent(platters: map<Vol, Slot>, v: Vol, readable: Vol -> bool) {
    !readable(v) || SlotOf(platters, v).Garbage?
  }

  method NewestOnDisk(platters: map<Vol, Slot>, targets: seq<Vol>, readable: Vol -> bool, identity: Option<string>, withSnapshot: bool)
    returns (best: Option<Manifest>, unreadable: nat)
    ensures BestOf(platters, targets, |targets|, readable, identity, withSnapshot, best)
    ensures unreadable == 0 <==> forall j :: 0 <= j < |targets| ==> readable(targets[j]) && SlotOf(platters, targets[j]) != Garbage
  {
    best, unreadable := None, 0;
    var i := 0;
    while i < |targets|
      invariant 0 <= i <= |targets|
      invariant BestOf(platters, targets, i, readable, identity, withSnapshot, best)
      invariant unreadable == 0 <==> forall j :: 0 <= j < i ==> !Silent(platters, targets[j], readable)
    {
      var v := targets[i];
      if Silent(platters, v, readable) {
        unreadable := unreadable + 1;
      } else if Eligible(SlotOf(platters, v), identity, withSnapshot) {
        var m := SlotOf(platters, v).m;
        if best.None? || Rank(m, withSnapshot) > Rank(best.value, withSnapshot) {
          best := Some(m);
        }
      }
      i := i + 1;
    }
  }

  /** One disk after a pass: rewritten with the merge of what we know and what it had, or as it was. */
  ghost predicate Refreshed(before: Slot, after: Slot, ours: Manifest, live: bool, from: Option<int>, readable: bool, fate: Fate) {
    || (after == before && (!readable || before.Garbage? || fate == Throws(false)))
    || (after == Holds(Merge(ours, before, live, from)) && readable && !before.Garbage? && fate != Throws(false))
  }

  ghost predicate PassDone(was: map<Vol, Slot>, now: map<Vol, Slot>, done: seq<Vol>, ours: Manifest, live: bool, from: Option<int>,
                           readable: Vol -> bool, fate: Vol -> Fate) {
    && (forall v :: v in done ==> Refreshed(SlotOf(was, v), SlotOf(now, v), ours, live, from, readable(v), fate(v)))
    && (forall v :: v !in done ==> SlotOf(now, v) == SlotOf(was, v))
  }

  lemma PassAdvances(was: map<Vol, Slot>, now: map<Vol, Slot>, now': map<Vol, Slot>, done: seq<Vol>, v: Vol,
                     ours: Manifest, live: bool, from: Option<int>, readable: Vol -> bool, fate: Vol -> Fate)
    requires PassDone(was, now, done, ours, live, from, readable, fate) && v !in done
    requires forall u :: u != v ==> SlotOf(now', u) == SlotOf(now, u)
    requires Refreshed(SlotOf(now, v), SlotOf(now', v), ours, live, from, readable(v), fate(v))
    ensures PassDone(was, now', done + [v], ours, live, from, readable, fate)
  {
  }

  /** A pass leaves no disk with an older pointer than it had, and none undated or under another name that was not so before. */
  lemma PassNeverRegresses(was: map<Vol, Slot>, now: map<Vol, Slot>, done: seq<Vol>, ours: Manifest, live: bool, from: Option<int>,
                           readable: Vol -> bool, fate: Vol -> Fate, v: Vol)
    requires PassDone(was, now, done, ours, live, from, readable, fate) && ours.updatedAt.Some?
    ensures NotOlder(Pointer(SlotOf(was, v)), Pointer(SlotOf(now, v)))
    ensures Eligible(SlotOf(was, v), Some(ours.identity), true) ==> Eligible(SlotOf(now, v), Some(ours.identity), true)
  {
  }

  /** The disk's manifest names a usable pointer at least as recent as `mark`. */
  predicate Reaches(slot: Slot, identity: string, mark: int) {
    Eligible(slot, Some(identity), true) && Time(slot.m.snapshot) >= mark
  }

  /** A disk whose pointer a scan would believe. */
  predicate Believed(platters: map<Vol, Slot>, targets: seq<Vol>, readable: Vol -> bool, identity: string, v: Vol) {
    v in targets && readable(v) && Eligible(SlotOf(platters, v), Some(identity), true)
  }

  lemma BestIsNewest(platters: map<Vol, Slot>, targets: seq<Vol>, readable: Vol -> bool, identity: string, best: Option<Manifest>, v: Vol)
    requires BestOf(platters, targets, |targets|, readable, Some(identity), true, best)
    requires Believed(platters, targets, readable, identity, v)
    ensures best.Some? && Usable(best.value.snapshot) && Time(best.value.snapshot) >= Time(Pointer(SlotOf(platters, v)))
  {
    var j :| 0 <= j < |targets| && targets[j] == v;
  }

  /** A scan comes back empty-handed exactly when there is nothing to believe. */
  lemma BestIsBelieved(platters: map<Vol, Slot>, targets: seq<Vol>, readable: Vol -> bool, identity: string, best: Option<Manifest>)
    requires BestOf(platters, targets, |targets|, readable, Some(identity), true, best)
    ensures best.None? ==> forall v :: !Believed(platters, targets, readable, identity, v)
    ensures best.Some? ==> exists v :: Believed(platters, targets, readable, identity, v) && SlotOf(platters, v) == Holds(best.value)
    ensures forall v :: Believed(platters, targets, readable, identity, v) ==>
              best.Some? && Usable(best.value.snapshot) && Time(best.value.snapshot) >= Time(Pointer(SlotOf(platters, v)))
  {
    forall v | Believed(platters, targets, readable, identity, v)
      ensures best.Some? && Usable(best.value.snapshot) && Time(best.value.snapshot) >= Time(Pointer(SlotOf(platters, v)))
    {
      BestIsNewest(platters, targets, readable, identity, best, v);
    }
    if best.Some? {
      var j :| 0 <= j < |targets| && readable(targets[j]) && SlotOf(platters, targets[j]) == Holds(best.value);
      assert Believed(platters, targets, readable, identity, targets[j]);
    }
  }

  ghost predicate AnyBelieved(platters: map<Vol, Slot>, targets: seq<Vol>, readable: Vol -> bool, identity: string) {
    exists v :: Believed(platters, targets, readable, identity, v)
  }

  /** A disk to believe names this, and none names a more recent pointer. */
  ghost predicate IsNewest(platters: map<Vol, Slot>, targets: seq<Vol>, readable: Vol -> bool, identity: string, m: Manifest) {
    && Usable(m.snapshot)
    && (exists v :: Believed(platters, targets, readable, identity, v) && SlotOf(platters, v) == Holds(m))
    && (forall v :: Believed(platters, targets, readable, identity, v) ==> Time(m.snapshot) >= Time(Pointer(SlotOf(platters, v))))
  }

  /** Every disk could be read and made sense of. */
  ghost predicate AllHeard(platters: map<Vol, Slot>, targets: seq<Vol>, readable: Vol -> bool) {
    forall v :: v in targets ==> readable(v) && SlotOf(platters, v) != Garbage
  }

  /** The most recent pointer there is to believe, and whether a disk was silent. */
  method NewestPointer(platters: map<Vol, Slot>, targets: seq<Vol>, readable: Vol -> bool, identity: string)
    returns (newest: Option<Manifest>, silent: bool)
    ensures newest.Some? <==> AnyBelieved(platters, targets, readable, identity)
    ensures newest.Some? ==> IsNewest(platters, targets, readable, identity, newest.value)
    ensures !silent <==> AllHeard(platters, targets, readable)
  {
    var unreadable;
    newest, unreadable := NewestOnDisk(platters, targets, readable, Some(identity), true);
    BestIsBelieved(platters, targets, readable, identity, newest);
    silent := unreadable > 0;
  }

  /** A manifest of ours that can be read, and none was written more recently. */
  ghost predicate IsLatest(platters: map<Vol, Slot>, targets: seq<Vol>, readable: Vol -> bool, identity: string, m: Manifest) {
    && Eligible(Holds(m), Some(identity), false)
    && (exists v :: v in targets && readable(v) && SlotOf(platters, v) == Holds(m))
    && (forall v :: v in targets && readable(v) && Eligible(SlotOf(platters, v), Some(identity), false) ==>
          SlotOf(platters, v).m.updatedAt.value <= m.updatedAt.value)
  }

  /** The manifest written most recently, whatever it says of snapshots. */
  method LatestManifest(platters: map<Vol, Slot>, targets: seq<Vol>, readable: Vol -> bool, identity: string)
    returns (latest: Option<Manifest>, silent: bool)
    ensures !silent <==> AllHeard(platters, targets, readable)
    ensures latest.Some? ==> IsLatest(platters, targets, readable, identity, latest.value)
    ensures AnyBelieved(platters, targets, readable, identity) ==> latest.Some?
  {
    var unreadable;
    latest, unreadable := NewestOnDisk(platters, targets, readable, Some(identity), false);
    silent := unreadable > 0;
    if AnyBelieved(platters, targets, readable, identity) {
      var v :| Believed(platters, targets, readable, identity, v);
      var j :| 0 <= j < |targets| && targets[j] == v;
      assert Eligible(SlotOf(platters, targets[j]), Some(identity), false);
    }
  }

  /** A pointer that says anything is one of these. */
  ghost predicate Known(ref: Option<Ref>, refs: set<Ref>) {
    Usable(ref) ==> ref.value in refs
  }

  ghost predicate AllKnown(platters: map<Vol, Slot>, refs: set<Ref>) {
    forall v :: v in platters ==> Known(Pointer(platters[v]), refs)
  }

  /** A pass puts no pointer on a disk that was not on a disk or in memory before. */
  lemma PassInventsNothing(was: map<Vol, Slot>, now: map<Vol, Slot>, done: seq<Vol>, ours: Manifest, live: bool, from: Option<int>,
                           readable: Vol -> bool, fate: Vol -> Fate, refs: set<Ref>)
    requires PassDone(was, now, done, ours, live, from, readable, fate)
    requires Known(ours.snapshot, refs) && AllKnown(was, refs)
    ensures AllKnown(now, refs)
  {
    forall v | v in now
      ensures Known(Pointer(now[v]), refs)
    {
      assert SlotOf(now, v) == now[v];
      assert Known(Pointer(SlotOf(was, v)), refs);
      assert v in done ==> Refreshed(SlotOf(was, v), SlotOf(now, v), ours, live, from, readable(v), fate(v));
      MergeIsTheNewer(ours, SlotOf(was, v), live, from);
    }
  }

  class BootstrapManifestWriter {
    const identity: string

    // The disks, and what the process remembers.
    var platters: map<Vol, Slot>
    var snapshot: Option<Ref>
    var previousSnapshot: Option<Ref>
    var journalVolumeIds: seq<Vol>
    var journalIsLive: bool
    var journalFrom: Option<int>
    var hydrationIncomplete: bool
    var journalListIncomplete: bool

    // The most recent pointer each disk has ever held since it was put in.
    ghost var marks: map<Vol, int>

    // Every pointer this array was ever given: by the snapshot job or on a disk of its own, and on a disk of another array.
    ghost var own: set<Ref>
    ghost var foreign: set<Ref>

    ghost predicate Valid()
      reads this
    {
      && (forall v :: v in marks ==> Reaches(SlotOf(platters, v), identity, marks[v]))
      && Known(snapshot, own + foreign)
      && AllKnown(platters, own + foreign)
    }

    /** The marks after the platters changed: a disk that now holds a pointer of ours is marked with it. */
    ghost function Marked(): (m: map<Vol, int>)
      reads this
    {
      map v | v in platters && Eligible(platters[v], Some(identity), true) :: Time(platters[v].m.snapshot)
    }

    constructor (identity: string, platters: map<Vol, Slot>)
      ensures Valid() && this.identity == identity && this.platters == platters
      ensures own == (set v | v in platters && Eligible(platters[v], Some(identity), true) :: platters[v].m.snapshot.value)
    {
      this.identity, this.platters := identity, platters;
      own := (set v | v in platters && Eligible(platters[v], Some(identity), true) :: platters[v].m.snapshot.value);
      foreign := (set v | v in platters && Usable(Pointer(platters[v])) :: Pointer(platters[v]).value) - own;
      snapshot, previousSnapshot, journalVolumeIds, journalIsLive, journalFrom := None, None, [], false, None;
      hydrationIncomplete, journalListIncomplete := false, false;
      marks := map[];
      new;
      marks := Marked();
    }

    /** The process restarts: nothing is remembered, the disks are as they were. */
    method Restart()
      requires Valid()
      modifies this
      ensures Valid() && platters == old(platters) && marks == old(marks) && own == old(own) && foreign == old(foreign)
      ensures snapshot == None && previousSnapshot == None && journalVolumeIds == [] && !journalIsLive && journalFrom == None
      ensures !hydrationIncomplete && !journalListIncomplete
    {
      snapshot, previousSnapshot, journalVolumeIds, journalIsLive, journalFrom := None, None, [], false, None;
      hydrationIncomplete, journalListIncomplete := false, false;
    }

    /** A disk is put in, with anything at all on it. */
    method Rack(v: Vol, slot: Slot)
      requires Valid()
      modifies this`platters, this`marks, this`own, this`foreign
      ensures Valid() && platters == old(platters)[v := slot]
      ensures own == old(own) + if Eligible(slot, Some(identity), true) then {Pointer(slot).value} else {}
      ensures foreign == old(foreign) + if Usable(Pointer(slot)) && !Eligible(slot, Some(identity), true) then {Pointer(slot).value} else {}
      ensures forall u :: u != v ==> (u in marks <==> u in old(marks)) && (u in marks ==> marks[u] == old(marks)[u])
    {
      platters := platters[v := slot];
      marks := marks - {v};
      if Eligible(slot, Some(identity), true) {
        marks, own := marks[v := Time(slot.m.snapshot)], own + {Pointer(slot).value};
      } else if Usable(Pointer(slot)) {
        foreign := foreign + {Pointer(slot).value};
      }
    }

    method SetSnapshots(current: Option<Ref>, previous: Option<Ref>)
      requires Valid()
      modifies this`snapshot, this`previousSnapshot, this`own
      ensures Valid() && snapshot == current && previousSnapshot == previous
      ensures own == old(own) + if current.Some? then {current.value} else {}
    {
      snapshot, previousSnapshot := current, previous;
      own := own + if current.Some? then {current.value} else {};
    }

    /** The running journal says where it is. That it is nowhere is not an answer. */
    method SetJournalVolumeIds(ids: seq<Vol>)
      requires Valid()
      modifies this`journalVolumeIds, this`journalIsLive
      ensures Valid()
      ensures ids != [] ==> journalVolumeIds == ids && journalIsLive
      ensures ids == [] ==> journalVolumeIds == old(journalVolumeIds) && journalIsLive == old(journalIsLive)
    {
      if ids != [] {
        journalVolumeIds, journalIsLive := ids, true;
      }
    }

    /**
      Read the pointer back off the platters. Any disk that can be read and was ever written with a
      pointer keeps the result from being older than the newest it ever held. Finding none while a
      disk was silent is remembered as not knowing.
     */
    method HydrateFromDisk(targets: seq<Vol>, readable: Vol -> bool)
      requires Valid()
      modifies this`snapshot, this`previousSnapshot, this`journalVolumeIds, this`journalFrom, this`hydrationIncomplete, this`journalListIncomplete
      ensures Valid()
      ensures forall v :: v in targets && readable(v) && v in marks ==> Usable(snapshot) && Time(snapshot) >= marks[v]
      ensures if AnyBelieved(platters, targets, readable, identity)
              then exists m: Manifest :: IsNewest(platters, targets, readable, identity, m)
                     && snapshot == m.snapshot && previousSnapshot == if Usable(m.previous) then m.previous else None
              else snapshot == old(snapshot) && previousSnapshot == old(previousSnapshot)
      ensures hydrationIncomplete ==
                (old(hydrationIncomplete) || (!AnyBelieved(platters, targets, readable, identity) && !AllHeard(platters, targets, readable)))
      ensures journalListIncomplete ==
                (old(journalListIncomplete) || (AnyBelieved(platters, targets, readable, identity) && !AllHeard(platters, targets, readable)))
      // The journal list is taken over only where there is none, and then from the manifest written last.
      ensures if AnyBelieved(platters, targets, readable, identity) && old(journalVolumeIds) == []
              then exists m: Manifest :: IsLatest(platters, targets, readable, identity, m)
                     && if m.journalIds.Some? then journalVolumeIds == m.journalIds.value && journalFrom == m.updatedAt
                        else journalVolumeIds == [] && journalFrom == old(journalFrom)
              else journalVolumeIds == old(journalVolumeIds) && journalFrom == old(journalFrom)
    {
      var newest, silent := NewestPointer(platters, targets, readable, identity);
      assert forall v :: v in targets && readable(v) && v in marks ==> Believed(platters, targets, readable, identity, v);
      if newest.None? {
        hydrationIncomplete := hydrationIncomplete || silent;
        return;
      }
      HydrateJournal(targets, readable);
      snapshot := newest.value.snapshot;
      previousSnapshot := if Usable(newest.value.previous) then newest.value.previous else None;
    }

    /** Where the journal was, as a starting belief only, from the manifest written last. */
    method HydrateJournal(targets: seq<Vol>, readable: Vol -> bool)
      requires AnyBelieved(platters, targets, readable, identity)
      modifies this`journalVolumeIds, this`journalFrom, this`journalListIncomplete
      ensures journalListIncomplete <==> old(journalListIncomplete) || !AllHeard(platters, targets, readable)
      ensures if old(journalVolumeIds) == []
              then exists m: Manifest :: IsLatest(platters, targets, readable, identity, m)
                     && if m.journalIds.Some? then journalVolumeIds == m.journalIds.value && journalFrom == m.updatedAt
                        else journalVolumeIds == [] && journalFrom == old(journalFrom)
              else journalVolumeIds == old(journalVolumeIds) && journalFrom == old(journalFrom)
    {
      var latest, silent := LatestManifest(platters, targets, readable, identity);
      journalListIncomplete := journalListIncomplete || silent;
      if journalVolumeIds == [] && latest.Some? && latest.value.journalIds.Some? {
        journalVolumeIds, journalFrom := latest.value.journalIds.value, latest.value.updatedAt;
      }
    }

    /** The running journal has not spoken, and the disk names a location in a manifest newer than the one ours is from. */
    predicate SaysMoreRecently(slot: Slot)
      reads this
    {
      && !journalIsLive && slot.Holds?
      && slot.m.journalIds.Some? && slot.m.journalIds.value != [] && slot.m.updatedAt.Some?
      && (journalFrom.Some? ==> slot.m.updatedAt.value > journalFrom.value)
    }

    /** One pass over the writable disks. */
    method WriteOnce(now: int, targets: seq<Vol>, readable: Vol -> bool, fate: Vol -> Fate)
      requires Valid() && forall i, j :: 0 <= i < j < |targets| ==> targets[i] != targets[j]
      modifies this`platters, this`marks
      ensures Valid()
      ensures var ours := Manifest(identity, Some(now), snapshot, previousSnapshot, Some(journalVolumeIds));
              PassDone(old(platters), platters, targets, ours, journalIsLive, journalFrom, readable, fate)
      ensures forall v :: NotOlder(Pointer(SlotOf(old(platters), v)), Pointer(SlotOf(platters, v)))
      ensures forall v :: v in old(marks) ==> v in marks && marks[v] >= old(marks)[v]
      // Where each disk that is rewritten says the journal is.
      ensures forall v :: v in targets && readable(v) && !SlotOf(old(platters), v).Garbage? && fate(v) != Throws(false) ==>
                && SlotOf(platters, v).Holds?
                && SlotOf(platters, v).m.journalIds ==
                     (if SaysMoreRecently(SlotOf(old(platters), v)) then SlotOf(old(platters), v).m.journalIds else Some(journalVolumeIds))
    {
      var ours := Manifest(identity, Some(now), snapshot, previousSnapshot, Some(journalVolumeIds));
      ghost var was := platters;
      var i := 0;
      while i < |targets|
        invariant 0 <= i <= |targets| && marks == old(marks)
        invariant PassDone(was, platters, targets[..i], ours, journalIsLive, journalFrom, readable, fate)
      {
        var v := targets[i];
        assert v !in targets[..i] && targets[..i + 1] == targets[..i] + [v];
        ghost var before := platters;
        var existing := SlotOf(platters, v);
        if readable(v) && !existing.Garbage? && fate(v) != Throws(false) {
          platters := platters[v := Holds(Merge(ours, existing, journalIsLive, journalFrom))];
        }
        PassAdvances(was, before, platters, targets[..i], v, ours, journalIsLive, journalFrom, readable, fate);
        i := i + 1;
      }
      assert targets[..i] == targets;
      forall v | v in targets && readable(v) && !SlotOf(was, v).Garbage? && fate(v) != Throws(false)
        ensures SlotOf(platters, v) == Holds(Merge(ours, SlotOf(was, v), journalIsLive, journalFrom))
      {
        assert Refreshed(SlotOf(was, v), SlotOf(platters, v), ours, journalIsLive, journalFrom, readable(v), fate(v));
      }
      forall v {
        PassNeverRegresses(was, platters, targets, ours, journalIsLive, journalFrom, readable, fate, v);
      }
      PassInventsNothing(was, platters, targets, ours, journalIsLive, journalFrom, readable, fate, own + foreign);
      Remark(was);
    }

    /** Every disk's mark moves up to what it holds now. */
    ghost method Remark(was: map<Vol, Slot>)
      requires forall v :: v in marks ==> Reaches(SlotOf(was, v), identity, marks[v])
      requires forall v :: NotOlder(Pointer(SlotOf(was, v)), Pointer(SlotOf(platters, v)))
      requires forall v :: Eligible(SlotOf(was, v), Some(identity), true) ==> Eligible(SlotOf(platters, v), Some(identity), true)
      requires Known(snapshot, own + foreign) && AllKnown(platters, own + foreign)
      modifies this`marks
      ensures Valid()
      ensures forall v :: v in old(marks) ==> v in marks && marks[v] >= old(marks)[v]
    {
      forall v | v in marks
        ensures v in Marked() && Marked()[v] >= marks[v]
      {
        assert NotOlder(Pointer(SlotOf(was, v)), Pointer(SlotOf(platters, v)));
      }
      marks := Marked();
    }
  }

  /** The running journal says where it is, and the next pass leaves that on every disk it rewrites, whatever was there. */
  method JournalSpeaks(w: BootstrapManifestWriter, ids: seq<Vol>, now: int, targets: seq<Vol>, readable: Vol -> bool, fate: Vol -> Fate)
    requires w.Valid() && ids != []
    requires forall i, j :: 0 <= i < j < |targets| ==> targets[i] != targets[j]
    modifies w
    ensures w.Valid()
    ensures forall v :: v in targets && readable(v) && !SlotOf(old(w.platters), v).Garbage? && fate(v) != Throws(false) ==>
              SlotOf(w.platters, v).Holds? && SlotOf(w.platters, v).m.journalIds == Some(ids)
  {
    w.SetJournalVolumeIds(ids);
    w.WriteOnce(now, targets, readable, fate);
  }

  /**
    The scan ignores another array's manifest, but a pass does not look at whose manifest it is
    merging with: their pointer comes out under our name exactly when it is usable and newer than ours.
   */
  lemma ForeignPointerIsTakenInIff(ours: Manifest, theirs: Manifest, live: bool, from: Option<int>)
    requires theirs.identity != ours.identity && ours.updatedAt.Some? && theirs.snapshot != ours.snapshot
    ensures !Eligible(Holds(theirs), Some(ours.identity), true)
    ensures var out := Holds(Merge(ours, Holds(theirs), live, from));
            && (Pointer(out) == theirs.snapshot <==> Usable(theirs.snapshot) && IsNewer(theirs.snapshot, ours.snapshot))
            && (Pointer(out) == theirs.snapshot ==> Eligible(out, Some(ours.identity), true))
  {
  }

  /** No other disk names a snapshot taken at the same time, so there is no tie to break. */
  ghost predicate TimeIsItsOwn(platters: map<Vol, Slot>, v: Vol, ref: Option<Ref>) {
    Usable(ref) ==> forall u :: u != v && Usable(Pointer(SlotOf(platters, u))) ==> Time(Pointer(SlotOf(platters, u))) != Time(ref)
  }

  lemma RackingLeavesTheOthers(platters: map<Vol, Slot>, v: Vol, slot: Slot, ref: Option<Ref>)
    requires TimeIsItsOwn(platters, v, ref)
    ensures TimeIsItsOwn(platters[v := slot], v, ref)
  {
    if Usable(ref) {
      var after := platters[v := slot];
      forall u | u != v && Usable(Pointer(SlotOf(after, u)))
        ensures Time(Pointer(SlotOf(after, u))) != Time(ref)
      {
        assert SlotOf(after, u) == SlotOf(platters, u);
      }
    }
  }

  /** A scan of these disks would believe no other disk's pointer over one of this time. */
  ghost predicate NoneIsNewer(platters: map<Vol, Slot>, targets: seq<Vol>, readable: Vol -> bool, identity: string, v: Vol, time: int) {
    forall u :: u != v && Believed(platters, targets, readable, identity, u) ==> Time(Pointer(SlotOf(platters, u))) < time
  }

  /** After the pass the disk has the merge, and whatever else has a pointer of that time has it from memory. */
  lemma AfterThePass(was: map<Vol, Slot>, now: map<Vol, Slot>, targets: seq<Vol>, ours: Manifest, live: bool, from: Option<int>,
                     readable: Vol -> bool, fate: Vol -> Fate, v: Vol, theirs: Manifest, u: Vol)
    requires PassDone(was, now, targets, ours, live, from, readable, fate)
    requires v in targets && readable(v) && fate(v) != Throws(false) && SlotOf(was, v) == Holds(theirs)
    requires TimeIsItsOwn(was, v, theirs.snapshot)
    ensures SlotOf(now, v) == Holds(Merge(ours, Holds(theirs), live, from))
    ensures u != v && Usable(theirs.snapshot) && Usable(Pointer(SlotOf(now, u))) && Time(Pointer(SlotOf(now, u))) == Time(theirs.snapshot) ==>
              Pointer(SlotOf(now, u)) == ours.snapshot
  {
    assert Refreshed(SlotOf(was, v), SlotOf(now, v), ours, live, from, readable(v), fate(v));
    MergeIsTheNewer(ours, SlotOf(was, u), live, from);
    assert u in targets ==> Refreshed(SlotOf(was, u), SlotOf(now, u), ours, live, from, readable(u), fate(u));
  }

  /**
    A disk of another array is put in, a pass over any disks reaches it, the process restarts and
    reads any disks, this one among them, with anything failing on the others. Their snapshot is then
    the one we would restore from exactly when it was usable and newer than what we knew, and no other
    disk that is read names a newer one.
   */
  method ForeignDiskIsRacked(w: BootstrapManifestWriter, v: Vol, theirs: Manifest, now: int,
                             targets: seq<Vol>, readable: Vol -> bool, fate: Vol -> Fate, later: seq<Vol>, readableLater: Vol -> bool)
    requires w.Valid() && theirs.identity != w.identity && theirs.snapshot != w.snapshot
    requires TimeIsItsOwn(w.platters, v, theirs.snapshot)
    requires (forall i, j :: 0 <= i < j < |targets| ==> targets[i] != targets[j])
    requires v in targets && readable(v) && fate(v) != Throws(false)
    requires v in later && readableLater(v)
    modifies w
    ensures w.Valid() && w.own == old(w.own)
    ensures Usable(w.snapshot) && w.snapshot == theirs.snapshot
       <==> && Usable(theirs.snapshot) && IsNewer(theirs.snapshot, old(w.snapshot))
            && NoneIsNewer(w.platters, later, readableLater, w.identity, v, Time(theirs.snapshot))
  {
    RackingLeavesTheOthers(w.platters, v, Holds(theirs), theirs.snapshot);
    w.Rack(v, Holds(theirs));
    ghost var was, live, from := w.platters, w.journalIsLive, w.journalFrom;
    ghost var ours := Manifest(w.identity, Some(now), w.snapshot, w.previousSnapshot, Some(w.journalVolumeIds));
    w.WriteOnce(now, targets, readable, fate);
    w.Restart();
    w.HydrateFromDisk(later, readableLater);
    TheirsIsRead(was, w.platters, targets, ours, live, from, readable, fate, v, theirs, later, readableLater, w.snapshot);
  }

  /** What a scan after such a pass comes back with. */
  lemma TheirsIsRead(was: map<Vol, Slot>, now: map<Vol, Slot>, targets: seq<Vol>, ours: Manifest, live: bool, from: Option<int>,
                     readable: Vol -> bool, fate: Vol -> Fate, v: Vol, theirs: Manifest, later: seq<Vol>, readableLater: Vol -> bool,
                     snapshot: Option<Ref>)
    requires PassDone(was, now, targets, ours, live, from, readable, fate) && ours.updatedAt.Some?
    requires v in targets && readable(v) && fate(v) != Throws(false) && SlotOf(was, v) == Holds(theirs)
    requires TimeIsItsOwn(was, v, theirs.snapshot) && theirs.identity != ours.identity && theirs.snapshot != ours.snapshot
    requires v in later && readableLater(v)
    requires if AnyBelieved(now, later, readableLater, ours.identity)
             then exists m: Manifest :: IsNewest(now, later, readableLater, ours.identity, m) && snapshot == m.snapshot
             else snapshot == None
    ensures Usable(snapshot) && snapshot == theirs.snapshot
       <==> && Usable(theirs.snapshot) && IsNewer(theirs.snapshot, ours.snapshot)
            && NoneIsNewer(now, later, readableLater, ours.identity, v, Time(theirs.snapshot))
  {
    ForeignPointerIsTakenInIff(ours, theirs, live, from);
    AfterThePass(was, now, targets, ours, live, from, readable, fate, v, theirs, v);
    if Usable(snapshot) && snapshot == theirs.snapshot {
      var u :| Believed(now, later, readableLater, ours.identity, u) && Pointer(SlotOf(now, u)) == snapshot;
      AfterThePass(was, now, targets, ours, live, from, readable, fate, v, theirs, u);
      assert u == v;
      forall x | x != v && Believed(now, later, readableLater, ours.identity, x)
        ensures Time(Pointer(SlotOf(now, x))) < Time(theirs.snapshot)
      {
        AfterThePass(was, now, targets, ours, live, from, readable, fate, v, theirs, x);
      }
    }
    if Usable(theirs.snapshot) && IsNewer(theirs.snapshot, ours.snapshot)
       && NoneIsNewer(now, later, readableLater, ours.identity, v, Time(theirs.snapshot)) {
      assert Believed(now, later, readableLater, ours.identity, v);
    }
  }

  const OURS := Ref("0123456789abcdef01234567", Some(1), Some(10))
  const THEIRS := Ref("fedcba9876543210fedcba98", Some(2), Some(20))

  lemma TheirsIsUsable()
    ensures Usable(Some(THEIRS))
  {
  }

  /** Such a pointer. */
  method ForeignPointerBecomesOurs() returns (w: BootstrapManifestWriter)
    ensures fresh(w) && w.Valid() && w.identity == "ours"
    ensures w.snapshot == Some(THEIRS) && w.own == {OURS}
  {
    w := new BootstrapManifestWriter("ours", map[]);
    w.SetSnapshots(Some(OURS), None);
    TheirsIsUsable();
    var all := (v: Vol) => true;
    ForeignDiskIsRacked(w, 1, Manifest("theirs", Some(3), Some(THEIRS), None, None), 4, [1], all, (v: Vol) => Works, [1], all);
    assert forall u :: Believed(w.platters, [1], all, w.identity, u) ==> u == 1;
  }
}
