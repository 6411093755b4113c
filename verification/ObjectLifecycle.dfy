/**
  One object's life on the platters, in the journal and in the database: committing it, deleting
  it, failing at any point of either, and rebuilding the database from the disks. An event is what
  happens between two awaits; a crash can follow any of them.
 */
module ObjectLifecycle {
  import opened Prelude

  datatype Op = Put | Del

  /** How far a handle has come. Up to `PutIn` it is creating the object; `DelIn` and `RowOut` are inside delete(). */
  datatype Phase = Writing | SlicesIn | PutIn | Rest | DelIn | RowOut

  /** The two flags delete() goes by, and whether the handle still has its writer. */
  datatype Handle = Handle(phase: Phase, isPersisted: bool, journaledPut: bool, writing: bool)

  /**
    `total` slices are written and any `needed` of them are enough to read the object back.
    `deleted` records that some delete reported success.
   */
  datatype World = World(
    total: nat,
    needed: nat,
    slices: set<nat>,
    journal: seq<Op>,
    row: bool,
    handles: map<nat, Handle>,
    deleted: bool)

  predicate Enough(w: World) {
    |w.slices| >= w.needed
  }

  function UpTo(n: nat): (s: set<nat>)
    ensures |s| == n && forall i: nat :: i in s <==> i < n
  {
    if n == 0 then {} else UpTo(n - 1) + {n - 1}
  }

  function AllSlices(w: World): set<nat> {
    UpTo(w.total)
  }

  /** The handle an upload is made through; every other handle is loaded from the row. */
  const CREATOR: nat := 0

  function Fresh(total: nat, needed: nat): World {
    World(total, needed, {}, [], false, map[CREATOR := Handle(Writing, false, false, true)], false)
  }

  // ---------------------------------------------------------------------------------------------
  // Replaying the journal over the platters.

  /** The namespace entry of the object after a prefix of the journal: present, remembered as deleted, or unknown. */
  datatype Entry = Unknown | Named | Remembered

  function Replay(journal: seq<Op>): Entry {
    if journal == [] then Unknown
    else
      var before := Replay(journal[..|journal| - 1]);
      match journal[|journal| - 1]
      case Put => Named
      case Del => if before.Named? then Remembered else before
  }

  /** A remembered deletion is honoured only if no slice is left; a name is kept only if its slices can be read. */
  predicate Restored(w: World) {
    var named := Replay(w.journal).Named? || (Replay(w.journal).Remembered? && w.slices != {});
    named && Enough(w)
  }

  lemma {:induction false} ReplayRemembersAnyPut(journal: seq<Op>)
    ensures Replay(journal).Unknown? <==> Put !in journal
  {
    if journal != [] {
      var front, last := journal[..|journal| - 1], journal[|journal| - 1];
      ReplayRemembersAnyPut(front);
      assert journal == front + [last];
    }
  }

  /** The two replay rules together: the disks decide, and the journal only has to have named the object once. */
  lemma ReplayMeans(w: World)
    requires w.needed >= 1
    ensures Restored(w) <==> Put in w.journal && Enough(w)
  {
    ReplayRemembersAnyPut(w.journal);
    assert Enough(w) ==> w.slices != {};
  }

  // ---------------------------------------------------------------------------------------------

  datatype Event =
    | CommitSlices(h: nat, ok: bool, some: set<nat>)
    | JournalPut(h: nat, ok: bool, landed: bool)
    | Insert(h: nat, ok: bool, applied: bool)
    | Load(h: nat)
    | JournalDel(h: nat, ok: bool, landed: bool)
    | SkipDel(h: nat)
    | DeleteRow(h: nat, ok: bool, applied: bool, compensated: bool)
    | SkipRow(h: nat)
    | Unlink(h: nat, ok: bool, left: set<nat>)
    | Crash
    | Rebuild

  predicate At(w: World, h: nat, phase: Phase) {
    h in w.handles && w.handles[h].phase == phase
  }

  /** A delete may be called on a handle at rest, or on a creating one whose commit threw or was never called. */
  predicate MayDelete(w: World, h: nat) {
    h in w.handles && !w.handles[h].phase.DelIn? && !w.handles[h].phase.RowOut?
  }

  predicate Enabled(w: World, e: Event) {
    match e
    case CommitSlices(h, ok, some) => At(w, h, Writing) && some <= AllSlices(w)
    case JournalPut(h, _, _) => At(w, h, SlicesIn)
    case Insert(h, ok, applied) => At(w, h, PutIn) && (ok ==> applied)
    case Load(h) => w.row && h !in w.handles && h != CREATOR
    case JournalDel(h, ok, landed) => MayDelete(w, h) && (w.handles[h].isPersisted || w.handles[h].journaledPut) && (ok ==> landed)
    case SkipDel(h) => MayDelete(w, h) && !w.handles[h].isPersisted && !w.handles[h].journaledPut
    case DeleteRow(h, ok, applied, _) => At(w, h, DelIn) && w.handles[h].isPersisted && (ok ==> applied)
    case SkipRow(h) => At(w, h, DelIn) && !w.handles[h].isPersisted
    case Unlink(h, ok, left) => At(w, h, RowOut) && left <= w.slices && (!w.handles[h].writing ==> ok)
    case Crash => true
    case Rebuild => w.handles == map[]
  }

  function Set(w: World, h: nat, handle: Handle): World {
    w.(handles := w.handles[h := handle])
  }

  function After(w: World, e: Event): World
    requires Enabled(w, e)
  {
    match e
    case CommitSlices(h, ok, some) =>
      if ok then Set(w, h, w.handles[h].(phase := SlicesIn)).(slices := AllSlices(w))
      else Set(w, h, w.handles[h].(phase := Rest)).(slices := some)
    case JournalPut(h, ok, landed) =>
      if ok then Set(w, h, w.handles[h].(phase := PutIn, journaledPut := true)).(journal := w.journal + [Put])
      else Set(w, h, w.handles[h].(phase := Rest)).(journal := if landed then w.journal + [Put] else w.journal)
    case Insert(h, ok, applied) =>
      Set(w, h, w.handles[h].(phase := Rest, isPersisted := ok, writing := !ok)).(row := w.row || applied)
    case Load(h) => Set(w, h, Handle(Rest, true, false, false))
    case JournalDel(h, ok, landed) =>
      Set(w, h, w.handles[h].(phase := if ok then DelIn else Rest)).(journal := if landed then w.journal + [Del] else w.journal)
    case SkipDel(h) => Set(w, h, w.handles[h].(phase := DelIn))
    case DeleteRow(h, ok, applied, compensated) =>
      Set(w, h, w.handles[h].(phase := if ok then RowOut else Rest))
        .(row := w.row && !applied, journal := if !ok && compensated then w.journal + [Put] else w.journal)
    case SkipRow(h) => Set(w, h, w.handles[h].(phase := RowOut))
    case Unlink(h, ok, left) =>
      if ok then w.(slices := left, handles := w.handles - {h}, deleted := true)
      else Set(w, h, w.handles[h].(phase := Rest)).(slices := left)
    case Crash => w.(handles := map[])
    case Rebuild => w.(row := Restored(w))
  }

  /** An insert that reported failure did not happen. */
  predicate Honest(e: Event) {
    e.Insert? && !e.ok ==> !e.applied
  }

  /** A delete that reports success leaves too few slices to read the object back. */
  predicate Thorough(w: World, e: Event) {
    e.Unlink? && e.ok ==> |e.left| < w.needed
  }

  predicate Creating(k: Handle) {
    k.phase.Writing? || k.phase.SlicesIn? || k.phase.PutIn?
  }

  /** What one handle knows. */
  predicate HandleIsRight(w: World, h: nat, k: Handle) {
    && (Creating(k) ==> h == CREATOR && !w.row && !k.isPersisted && !w.deleted && k.writing)
    && (k.phase.SlicesIn? || k.phase.PutIn? ==> w.slices == AllSlices(w))
    && (k.phase.PutIn? ==> Put in w.journal)
    && (!k.isPersisted ==> h == CREATOR && !w.row)
    && (k.phase.RowOut? ==> !w.row)
  }

  /** While the object is being created nobody else has hold of it. */
  predicate CreatorIsAlone(w: World) {
    CREATOR in w.handles && !w.handles[CREATOR].isPersisted ==> w.handles.Keys == {CREATOR}
  }

  /** A row implies its slices, and that the journal and the disks would bring it back. */
  predicate NoPhantom(w: World) {
    w.row ==> Enough(w) && Put in w.journal
  }

  predicate Sound(w: World) {
    && 1 <= w.needed <= w.total
    && NoPhantom(w)
    && CreatorIsAlone(w)
    && forall h :: h in w.handles ==> HandleIsRight(w, h, w.handles[h])
  }

  /** Handles other than `h` see a change to `h` only through what it did to the row, the slices and the journal. */
  lemma OthersUnmoved(w: World, v: World, h: nat)
    requires Sound(w) && h in w.handles
    requires v.total == w.total && v.needed == w.needed && v.deleted == w.deleted
    requires forall x :: x in v.handles && x != h ==> x in w.handles && v.handles[x] == w.handles[x]
    requires v.row ==> w.row
    requires Put in w.journal ==> Put in v.journal
    requires v.slices == w.slices || w.handles.Keys == {h}
    ensures forall x :: x in v.handles && x != h ==> HandleIsRight(v, x, v.handles[x])
  {
  }

  lemma CreatorStep(w: World, e: Event)
    requires Sound(w) && Enabled(w, e) && Honest(e) && (e.CommitSlices? || e.JournalPut? || e.Insert?)
    ensures Sound(After(w, e))
  {
    var k := w.handles[e.h];
    assert HandleIsRight(w, e.h, k);
    assert w.handles.Keys == {CREATOR};
  }

  lemma DeleteStep(w: World, e: Event)
    requires Sound(w) && Enabled(w, e) && (e.JournalDel? || e.SkipDel? || e.DeleteRow? || e.SkipRow?)
    ensures Sound(After(w, e))
  {
    var v := After(w, e);
    assert HandleIsRight(w, e.h, w.handles[e.h]);
    OthersUnmoved(w, v, e.h);
  }

  lemma UnlinkStep(w: World, e: Event)
    requires Sound(w) && Enabled(w, e) && e.Unlink?
    ensures Sound(After(w, e))
  {
  }

  /** Every step keeps rows backed by slices and names, whatever fails, as long as a failed insert did not happen. */
  lemma StepIsSound(w: World, e: Event)
    requires Sound(w) && Enabled(w, e) && Honest(e)
    ensures Sound(After(w, e))
  {
    if e.CommitSlices? || e.JournalPut? || e.Insert? {
      CreatorStep(w, e);
    } else if e.Unlink? {
      UnlinkStep(w, e);
    } else if e.Load? {
      assert forall x :: x in w.handles ==> HandleIsRight(w, x, w.handles[x]);
    } else if e.Crash? {
    } else if e.Rebuild? {
      ReplayMeans(w);
    } else {
      DeleteStep(w, e);
    }
  }

  /** A run, newest event outermost, with the state each event led to. */
  datatype Run =
    | Start(state: World)
    | Then(before: Run, event: Event, state: World)

  ghost predicate Possible(run: Run) {
    run.Then? ==> Possible(run.before) && Enabled(run.before.state, run.event) && run.state == After(run.before.state, run.event)
  }

  function First(run: Run): World {
    if run.Start? then run.state else First(run.before)
  }

  ghost predicate AllHonest(run: Run) {
    run.Then? ==> AllHonest(run.before) && Honest(run.event)
  }

  ghost predicate AllThorough(run: Run) {
    run.Then? ==> AllThorough(run.before) && Thorough(run.before.state, run.event)
  }

  /**
    At every point of every sequence of commits, deletes, failures, crashes and rebuilds: a row has
    its slices, and a rebuild from the journal and the platters would bring it back.
   */
  lemma {:induction false} NoPhantomsEver(run: Run)
    requires Possible(run) && Sound(First(run)) && AllHonest(run)
    ensures Sound(run.state)
    ensures run.state.row ==> Enough(run.state) && Restored(run.state)
  {
    if run.Then? {
      NoPhantomsEver(run.before);
      StepIsSound(run.before.state, run.event);
    }
    ReplayMeans(run.state);
  }

  /** Nothing of a deleted object comes back. */
  predicate Gone(w: World) {
    w.deleted ==> !w.row && !Enough(w)
  }

  lemma StepStaysGone(w: World, e: Event)
    requires Sound(w) && Gone(w) && Enabled(w, e) && Honest(e) && Thorough(w, e)
    ensures Gone(After(w, e))
  {
    if e.Unlink? {
      assert HandleIsRight(w, e.h, w.handles[e.h]);
      SubsetSize(e.left, w.slices);
    } else if e.Rebuild? {
      ReplayMeans(w);
    } else if e.CommitSlices? || e.JournalPut? || e.Insert? {
      assert HandleIsRight(w, e.h, w.handles[e.h]);
    }
  }

  /** A delete that reported success is never undone by a rebuild, as long as reporting success meant the slices went. */
  lemma {:induction false} DeletedStaysDeleted(run: Run)
    requires Possible(run) && Sound(First(run)) && Gone(First(run)) && AllHonest(run) && AllThorough(run)
    ensures Gone(run.state)
    ensures run.state.deleted ==> !Restored(run.state)
  {
    if run.Then? {
      DeletedStaysDeleted(run.before);
      NoPhantomsEver(run.before);
      StepStaysGone(run.before.state, run.event);
    }
  }

  /** ... and exactly then: the destroyer reports success whatever the unlinking came to. */
  lemma SuccessfulDeleteComesBackIff(w: World, e: Event)
    requires Sound(w) && Enabled(w, e) && e.Unlink? && e.ok && Put in w.journal
    ensures Restored(After(w, e)) <==> !Thorough(w, e)
  {
    ReplayMeans(After(w, e));
  }

  function Do(run: Run, e: Event): (next: Run)
    requires Possible(run) && Enabled(run.state, e)
    ensures Possible(next) && First(next) == First(run) && next == Then(run, e, After(run.state, e))
  {
    Then(run, e, After(run.state, e))
  }

  lemma Stored(total: nat, needed: nat) returns (run: Run)
    requires 1 <= needed <= total
    ensures Possible(run) && First(run) == Fresh(total, needed)
    ensures run.state == Fresh(total, needed).(slices := UpTo(total), journal := [Put], handles := map[CREATOR := Handle(PutIn, false, true, true)])
  {
    run := Do(Do(Start(Fresh(total, needed)), CommitSlices(CREATOR, true, {})), JournalPut(CREATOR, true, true));
  }

  /** A successful delete that unlinked nothing is undone by the next rebuild, whatever the geometry. */
  lemma UnlinkErrorsAreSwallowed(total: nat, needed: nat) returns (run: Run)
    requires 1 <= needed <= total
    ensures Possible(run) && First(run) == Fresh(total, needed)
    ensures run.state.deleted && run.state.row
  {
    var put := Stored(total, needed);
    var stored := Do(put, Insert(CREATOR, true, true));
    var out := Do(Do(stored, JournalDel(CREATOR, true, true)), DeleteRow(CREATOR, true, true, false));
    run := BackFromTheDead(out);
  }

  lemma BackFromTheDead(out: Run) returns (run: Run)
    requires Possible(out) && 1 <= out.state.needed && Enough(out.state) && Put in out.state.journal
    requires out.state.handles.Keys == {CREATOR} && At(out.state, CREATOR, RowOut)
    ensures Possible(run) && First(run) == First(out) && run.state.deleted && run.state.row
  {
    var told := Do(out, Unlink(CREATOR, true, out.state.slices));
    assert told.state.handles == map[];
    ReplayMeans(told.state);
    run := Do(told, Rebuild);
  }

  /** The state after an insert that reported failure has been cleaned up: journal, no row to delete, unlink. */
  function CleanedUp(w: World, applied: bool): World
    requires At(w, CREATOR, PutIn) && !w.handles[CREATOR].isPersisted && w.handles[CREATOR].journaledPut
  {
    var failed := After(w, Insert(CREATOR, false, applied));
    var del := After(failed, JournalDel(CREATOR, true, true));
    After(After(del, SkipRow(CREATOR)), Unlink(CREATOR, true, {}))
  }

  /** The cleanup leaves a row without slices exactly when the insert that reported failure took effect. */
  lemma FailedInsertLeavesAPhantomIff(w: World, applied: bool)
    requires Sound(w) && At(w, CREATOR, PutIn) && w.handles[CREATOR].journaledPut
    ensures !w.handles[CREATOR].isPersisted
    ensures CleanedUp(w, applied).row <==> applied
    ensures CleanedUp(w, applied).slices == {} && CleanedUp(w, applied).deleted
    ensures NoPhantom(CleanedUp(w, applied)) <==> !applied
  {
  }

  /** An insert that took effect and reported failure ends, after the cleanup, as a row with no slices. */
  lemma DishonestInsertMakesAPhantom(total: nat, needed: nat) returns (run: Run)
    requires 1 <= needed <= total
    ensures Possible(run) && First(run) == Fresh(total, needed)
    ensures run.state.row && run.state.slices == {} && run.state.deleted
  {
    var put := Stored(total, needed);
    var failed := Do(put, Insert(CREATOR, false, true));
    var out := Do(Do(failed, JournalDel(CREATOR, true, true)), SkipRow(CREATOR));
    run := Do(out, Unlink(CREATOR, true, {}));
  }
}
