/**
  The handle an upload is made through: commit() and delete() as they run, each await with its
  possible failure, every stretch between two awaits an event of the object's life.
 */
module FileObject {
  import opened ObjectLifecycle

  /** How an awaited write goes: it works, or it throws with or without having taken effect. */
  datatype Fate = Works | Throws(landed: bool)

  predicate Lands(f: Fate) {
    f.Works? || f.landed
  }

  lemma MapOfOne(handles: map<nat, Handle>, k: Handle)
    requires handles.Keys == {CREATOR}
    ensures handles[CREATOR := k] == map[CREATOR := k]
  {
  }

  class FileObject {
    const total: nat
    const needed: nat

    // The platters, the journal and the database.
    var slices: set<nat>
    var journal: seq<Op>
    var row: bool

    var writing: bool
    var isPersisted: bool
    var journaledPut: bool
    var phase: Phase

    ghost var deleted: bool
    ghost var run: Run

    ghost function Now(): World
      reads this
    {
      World(total, needed, slices, journal, row,
            if deleted then map[] else map[CREATOR := Handle(phase, isPersisted, journaledPut, writing)], deleted)
    }

    /** The fields are where the recorded run leads, and that run was honest. */
    ghost predicate Valid()
      reads this
    {
      && 1 <= needed <= total
      && Possible(run) && AllHonest(run) && First(run) == Fresh(total, needed)
      && run.state == Now()
    }

    /** A handle with its slices being written. */
    constructor (total: nat, needed: nat)
      requires 1 <= needed <= total
      ensures Valid() && fresh(this) && this.total == total && this.needed == needed
      ensures phase.Writing? && !deleted
    {
      this.total, this.needed := total, needed;
      slices, journal, row := {}, [], false;
      writing, isPersisted, journaledPut, phase := true, false, false, Writing;
      deleted, run := false, Start(Fresh(total, needed));
    }

    /** Record what has just happened. */
    ghost method Take(e: Event)
      requires 1 <= needed <= total && Possible(run) && AllHonest(run) && First(run) == Fresh(total, needed)
      requires Enabled(run.state, e) && Honest(e) && After(run.state, e) == Now()
      modifies this`run
      ensures Valid() && run == Then(old(run), e, Now())
    {
      run := Then(run, e, Now());
    }

    method WriteSlices(works: bool, written: set<nat>)
      requires Valid() && phase.Writing? && !deleted && written <= UpTo(total)
      modifies this`slices, this`phase, this`run
      ensures Valid() && slices == (if works then UpTo(total) else written) && phase == (if works then SlicesIn else Rest)
    {
      slices := if works then UpTo(total) else written;
      phase := if works then SlicesIn else Rest;
      MapOfOne(run.state.handles, Handle(phase, isPersisted, journaledPut, writing));
      Take(CommitSlices(CREATOR, works, written));
    }

    method RecordPut(put: Fate)
      requires Valid() && phase.SlicesIn? && !deleted
      modifies this`journal, this`phase, this`journaledPut, this`run
      ensures Valid() && phase == (if put.Works? then PutIn else Rest)
      ensures journal == old(journal) + (if Lands(put) then [Put] else [])
      ensures journaledPut == (old(journaledPut) || put.Works?)
    {
      if Lands(put) {
        journal := journal + [Put];
      }
      phase, journaledPut := if put.Works? then PutIn else Rest, journaledPut || put.Works?;
      MapOfOne(run.state.handles, Handle(phase, isPersisted, journaledPut, writing));
      Take(JournalPut(CREATOR, put.Works?, Lands(put)));
    }

    method InsertRow(works: bool)
      requires Valid() && phase.PutIn? && !deleted && !row
      modifies this`row, this`isPersisted, this`writing, this`phase, this`run
      ensures Valid() && phase.Rest? && row == works && isPersisted == works && writing == !works
    {
      row, isPersisted, phase, writing := works, works, Rest, !works;
      MapOfOne(run.state.handles, Handle(phase, isPersisted, journaledPut, writing));
      Take(Insert(CREATOR, works, works));
    }

    /**
      Slices, then journal, then row. Success leaves all three in place; a failure leaves no row,
      whatever else it leaves.
     */
    method Commit(written: set<nat>, slicesWork: bool, put: Fate, insertWorks: bool) returns (ok: bool)
      requires Valid() && phase.Writing? && !deleted && written <= UpTo(total)
      modifies this
      ensures Valid() && !deleted
      ensures ok <==> slicesWork && put.Works? && insertWorks
      ensures row == ok && isPersisted == ok
      ensures slices == if slicesWork then UpTo(total) else written
      ensures ok ==> journal == old(journal) + [Put]
      ensures !ok ==> journal == old(journal) + (if slicesWork && put != Throws(false) then [Put] else [])
      ensures journaledPut <==> old(journaledPut) || (slicesWork && put.Works?)
    {
      ok := false;
      NothingYet();
      WriteSlices(slicesWork, written);
      if !slicesWork {
        return;
      }
      RecordPut(put);
      if !put.Works? {
        return;
      }
      InsertRow(insertWorks);
      ok := insertWorks;
    }

    /** Name it gone, unless it was never named. */
    method RecordDel(del: Fate)
      requires Valid() && !deleted && !phase.DelIn? && !phase.RowOut?
      modifies this`journal, this`phase, this`run
      ensures Valid()
      ensures isPersisted || journaledPut ==>
                phase == (if del.Works? then DelIn else Rest) && journal == old(journal) + (if Lands(del) then [Del] else [])
      ensures !isPersisted && !journaledPut ==> phase.DelIn? && journal == old(journal)
    {
      if isPersisted || journaledPut {
        if Lands(del) {
          journal := journal + [Del];
        }
        phase := if del.Works? then DelIn else Rest;
        MapOfOne(run.state.handles, Handle(phase, isPersisted, journaledPut, writing));
        Take(JournalDel(CREATOR, del.Works?, Lands(del)));
      } else {
        phase := DelIn;
        MapOfOne(run.state.handles, Handle(phase, isPersisted, journaledPut, writing));
        Take(SkipDel(CREATOR));
      }
    }

    /** Take the row out; if that fails, put the name back. */
    method TakeRowOut(deleteRow: Fate, compensated: bool)
      requires Valid() && !deleted && phase.DelIn? && (row ==> isPersisted)
      modifies this`row, this`journal, this`phase, this`run
      ensures Valid() && phase == (if !isPersisted || deleteRow.Works? then RowOut else Rest)
      ensures row == (old(row) && !(isPersisted && Lands(deleteRow)))
      ensures journal == old(journal) + (if isPersisted && !deleteRow.Works? && compensated then [Put] else [])
    {
      if isPersisted {
        row := row && !Lands(deleteRow);
        phase := if deleteRow.Works? then RowOut else Rest;
        if !deleteRow.Works? && compensated {
          journal := journal + [Put];
        }
        MapOfOne(run.state.handles, Handle(phase, isPersisted, journaledPut, writing));
        Take(DeleteRow(CREATOR, deleteRow.Works?, Lands(deleteRow), compensated));
      } else {
        phase := RowOut;
        MapOfOne(run.state.handles, Handle(phase, isPersisted, journaledPut, writing));
        Take(SkipRow(CREATOR));
      }
    }

    method UnlinkSlices(left: set<nat>, abortWorks: bool) returns (ok: bool)
      requires Valid() && !deleted && phase.RowOut? && left <= slices
      modifies this`slices, this`phase, this`deleted, this`isPersisted, this`journaledPut, this`run
      ensures Valid() && ok == deleted == (!writing || abortWorks) && slices == left
      ensures isPersisted == (old(isPersisted) && !ok) && journaledPut == (old(journaledPut) && !ok)
    {
      ok := !writing || abortWorks;
      slices := left;
      deleted, phase := ok, Rest;
      if ok {
        isPersisted, journaledPut := false, false;
      }
      Take(Unlink(CREATOR, ok, left));
    }

    /**
      Journal, then row, then slices. Success leaves no row; a failure leaves every slice of a row
      that is still there, and the journal's word on it does not cost the object its name.
     */
    method Delete(del: Fate, deleteRow: Fate, compensated: bool, left: set<nat>, abortWorks: bool) returns (ok: bool)
      requires Valid() && !deleted && !phase.DelIn? && !phase.RowOut? && left <= slices
      modifies this
      ensures Valid() && ok == deleted
      // Stage by stage: which of the three is reached, and what each leaves.
      ensures var named := old(isPersisted) || old(journaledPut);
              var rowsTurn := !named || del.Works?;
              var slicesTurn := rowsTurn && (!old(isPersisted) || deleteRow.Works?);
              && (ok <==> slicesTurn && (!old(writing) || abortWorks))
              && slices == (if slicesTurn then left else old(slices))
              && row == (old(row) && !(rowsTurn && old(isPersisted) && deleteRow != Throws(false)))
              && journal == old(journal) + (if named && del != Throws(false) then [Del] else [])
                                         + (if rowsTurn && old(isPersisted) && !deleteRow.Works? && compensated then [Put] else [])
      ensures isPersisted == (old(isPersisted) && !ok) && journaledPut == (old(journaledPut) && !ok) && writing == old(writing)
      ensures ok ==> !row
      ensures row ==> slices == old(slices) && Restored(Now())
      ensures ok ==> (Restored(Now()) <==> Put in journal && |left| >= needed)
    {
      NothingYet();
      ok := RunDelete(del, deleteRow, compensated, left, abortWorks);
      NoPhantomsEver(run);
      ReplayMeans(run.state);
    }

    /** The three stages; each is reached only if the one before it did not throw. */
    method RunDelete(del: Fate, deleteRow: Fate, compensated: bool, left: set<nat>, abortWorks: bool) returns (ok: bool)
      requires Valid() && !deleted && !phase.DelIn? && !phase.RowOut? && left <= slices && (row ==> isPersisted)
      modifies this`slices, this`journal, this`row, this`phase, this`deleted, this`isPersisted, this`journaledPut, this`run
      ensures Valid() && ok == deleted
      ensures isPersisted == (old(isPersisted) && !ok) && journaledPut == (old(journaledPut) && !ok)
      ensures var named := old(isPersisted) || old(journaledPut);
              var rowsTurn := !named || del.Works?;
              var slicesTurn := rowsTurn && (!old(isPersisted) || deleteRow.Works?);
              && (ok <==> slicesTurn && (!writing || abortWorks))
              && slices == (if slicesTurn then left else old(slices))
              && row == (old(row) && !(rowsTurn && old(isPersisted) && Lands(deleteRow)))
              && journal == old(journal) + (if named && Lands(del) then [Del] else [])
                                         + (if rowsTurn && old(isPersisted) && !deleteRow.Works? && compensated then [Put] else [])
    {
      ok := false;
      RecordDel(del);
      if phase.DelIn? {
        TakeRowOut(deleteRow, compensated);
        if phase.RowOut? {
          ok := UnlinkSlices(left, abortWorks);
        }
      }
    }

    /** An honest run has no row that its creator does not know of, and none before the insert. */
    lemma NothingYet()
      requires Valid() && !deleted
      ensures row ==> isPersisted
      ensures phase.Writing? ==> !row && !isPersisted
    {
      NoPhantomsEver(run);
      assert HandleIsRight(run.state, CREATOR, run.state.handles[CREATOR]);
    }
  }
}
