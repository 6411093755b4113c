/**
  The fleet recovery passphrase: encrypted provisions, first encryptions racing each other,
  rotations, retirements and crashes, as one transition system over keyslots, the recorded
  passphrase and its sealed copy. Every event is one stretch of code between two awaits.
 */
module PassphraseProtocol {
  import opened Prelude

  type Passphrase = string
  type Id = nat
  type Slots = multiset<Passphrase>

  const MIN_LENGTH: nat := 12

  /** Whether the fleet has a row for the disk, and whether that row is deleted. */
  datatype Row = NoRow | Active | Retired

  /** A disk and its LUKS header: the keyfile's slot, and the passphrases in the others. */
  datatype Disk = Disk(row: Row, attached: bool, plated: bool, encrypted: bool, keyfile: bool, slots: Slots)

  datatype Phase = Entered | Proved | Scanned | Accepted | Formatted | Keyed | Tested | Plated

  /** An encrypted provision in flight: the disk it is building and the passphrase it was given. */
  datatype Provision = Provision(target: Id, passphrase: Passphrase, phase: Phase)

  datatype Stage = Adding | Recorded | Removing

  datatype Rotation =
    | Idle
    | Running(next: Passphrase, current: Option<Passphrase>, ours: set<Id>, added: set<Id>, stage: Stage)

  /** `record` stands for the one passphrase the recorded hash accepts, `seal` for what the sealed copy opens to. */
  datatype Array = Array(
    disks: map<Id, Disk>,
    record: Option<Passphrase>,
    seal: Option<Passphrase>,
    rotation: Rotation,
    provisions: map<nat, Provision>)

  const BARE := Disk(NoRow, false, false, false, false, multiset{})

  function At(a: Array, d: Id): Disk {
    if d in a.disks then a.disks[d] else BARE
  }

  /** In service and encrypted: what a recovery will have to open. */
  predicate InService(k: Disk) {
    k.row.Active? && k.encrypted
  }

  predicate Opens(k: Disk, p: Passphrase) {
    p in k.slots
  }

  /** The scan: attached LUKS disks with our nameplate. */
  function Ours(a: Array): set<Id> {
    set d | d in a.disks && a.disks[d].attached && a.disks[d].encrypted && a.disks[d].plated
  }

  /** No attached container without a nameplate, and no volume whose disk is away. */
  predicate NothingUnaskable(a: Array) {
    forall d :: d in a.disks ==>
      && (a.disks[d].attached && a.disks[d].encrypted ==> a.disks[d].plated)
      && (a.disks[d].row.Active? ==> a.disks[d].attached)
  }

  /** The passphrase the seal gives out: one that was checked against the record, or none. */
  function Unsealed(record: Option<Passphrase>, seal: Option<Passphrase>): Option<Passphrase> {
    if seal.Some? && seal == record then seal else None
  }

  datatype Event =
    | Attach(d: Id, attached: bool)
    | Retire(d: Id)
    | Restore(d: Id)
    | Enter(e: nat, d: Id, p: Passphrase)
    | Prove(e: nat)
    | Check(e: nat, resealed: bool)
    | Claim(e: nat, resealed: bool)
    | Format(e: nat)
    | AddKey(e: nat, lands: bool)
    | Test(e: nat)
    | Plate(e: nat)
    | Finish(e: nat)
    | Abort(e: nat)
    | Begin(next: Passphrase, current: Option<Passphrase>)
    | AddSlot(d: Id)
    | Confirm(d: Id)
    | RecordNext
    | Reseal(done: bool)
    | Remove(d: Id)
    | EndRotation
    | Crash
    | RestoreDatabase(record: Option<Passphrase>, seal: Option<Passphrase>)

  predicate AtPhase(a: Array, e: nat, phase: Phase) {
    e in a.provisions && a.provisions[e].phase == phase
  }

  predicate Rotating(a: Array, stage: Stage) {
    a.rotation.Running? && a.rotation.stage == stage
  }

  /** A disk no volume row refers to and no other provision is building. */
  predicate Free(a: Array, d: Id) {
    At(a, d).row.NoRow? && forall e :: e in a.provisions ==> a.provisions[e].target != d
  }

  predicate Enabled(a: Array, e: Event) {
    match e
    case Attach(d, _) => true
    case Retire(d) => a.rotation.Idle? && At(a, d).row.Active?
    case Restore(d) => a.rotation.Idle? && At(a, d).row.Retired? && At(a, d).attached
    case Enter(e, d, _) => a.rotation.Idle? && e !in a.provisions && Free(a, d)
    case Prove(e) =>
      && AtPhase(a, e, Entered) && NothingUnaskable(a)
      && (Ours(a) == {} || exists d :: d in Ours(a) && Opens(At(a, d), a.provisions[e].passphrase))
    case Check(e, _) => AtPhase(a, e, Proved) && |a.provisions[e].passphrase| >= MIN_LENGTH
      && (a.record.Some? ==> a.record.value == a.provisions[e].passphrase)
      && (a.record.None? ==> NothingUnaskable(a) && Ours(a) == {})
    case Claim(e, _) => AtPhase(a, e, Scanned) && (a.record.Some? ==> a.record.value == a.provisions[e].passphrase)
    case Format(e) => AtPhase(a, e, Accepted)
    case AddKey(e, _) => AtPhase(a, e, Formatted)
    case Test(e) => AtPhase(a, e, Keyed) && Opens(At(a, a.provisions[e].target), a.provisions[e].passphrase)
    case Plate(e) => AtPhase(a, e, Tested)
    case Finish(e) => AtPhase(a, e, Plated)
    case Abort(e) => e in a.provisions
    case Begin(next, current) =>
      && a.rotation.Idle? && a.provisions == map[] && |next| >= MIN_LENGTH
      && current != Some(next) && (a.record.Some? ==> current == a.record)
      && NothingUnaskable(a)
    case AddSlot(d) => Rotating(a, Adding) && d in a.rotation.ours - a.rotation.added
    case Confirm(d) => Rotating(a, Adding) && d in a.rotation.ours && Opens(At(a, d), a.rotation.next)
    case RecordNext => Rotating(a, Adding) && a.rotation.added == a.rotation.ours
    case Reseal(_) => Rotating(a, Recorded)
    case Remove(d) => Rotating(a, Removing) && d in a.rotation.ours && a.rotation.current.Some?
    case EndRotation => a.rotation.Running?
    case Crash => true
    case RestoreDatabase(_, _) => true
  }

  function Sealed(a: Array, p: Passphrase, done: bool): Array {
    if done then a.(seal := Some(p)) else a
  }

  function Move(a: Array, e: nat, phase: Phase): Array
    requires e in a.provisions
  {
    a.(provisions := a.provisions[e := a.provisions[e].(phase := phase)])
  }

  function After(a: Array, e: Event): Array
    requires Enabled(a, e)
  {
    match e
    case Attach(d, attached) => a.(disks := a.disks[d := At(a, d).(attached := attached)])
    case Retire(d) => a.(disks := a.disks[d := At(a, d).(row := Retired)])
    case Restore(d) => a.(disks := a.disks[d := At(a, d).(row := Active)])
    case Enter(e, d, p) => a.(provisions := a.provisions[e := Provision(d, p, Entered)])
    case Prove(e) => Move(a, e, Proved)
    case Check(e, resealed) =>
      if a.record.Some? then
        Sealed(Move(a, e, Accepted), a.record.value, resealed && Unsealed(a.record, a.seal).None?)
      else Move(a, e, Scanned)
    case Claim(e, resealed) =>
      var p := a.provisions[e].passphrase;
      Sealed(Move(a, e, Accepted), p, resealed).(record := Some(p))
    case Format(e) =>
      var d := a.provisions[e].target;
      Move(a, e, Formatted).(disks := a.disks[d := At(a, d).(plated := false, encrypted := true, keyfile := true, slots := multiset{})])
    case AddKey(e, lands) =>
      var d := a.provisions[e].target;
      Move(a, e, Keyed).(disks := a.disks[d := At(a, d).(slots := if lands then At(a, d).slots + multiset{a.provisions[e].passphrase} else At(a, d).slots)])
    case Test(e) => Move(a, e, Tested)
    case Plate(e) =>
      var d := a.provisions[e].target;
      Move(a, e, Plated).(disks := a.disks[d := At(a, d).(plated := true)])
    case Finish(e) =>
      var d := a.provisions[e].target;
      a.(disks := a.disks[d := At(a, d).(row := Active)], provisions := a.provisions - {e})
    case Abort(e) => a.(provisions := a.provisions - {e})
    case Begin(next, current) => a.(rotation := Running(next, current, Ours(a), {}, Adding))
    case AddSlot(d) => a.(disks := a.disks[d := At(a, d).(slots := At(a, d).slots + multiset{a.rotation.next})])
    case Confirm(d) => a.(rotation := a.rotation.(added := a.rotation.added + {d}))
    case RecordNext => a.(record := Some(a.rotation.next), rotation := a.rotation.(stage := Recorded))
    case Reseal(done) => Sealed(a, a.rotation.next, done).(rotation := a.rotation.(stage := Removing))
    case Remove(d) => a.(disks := a.disks[d := At(a, d).(slots := At(a, d).slots - multiset{a.rotation.current.value})])
    case EndRotation => a.(rotation := Idle)
    case Crash => a.(rotation := Idle, provisions := map[])
    case RestoreDatabase(record, seal) => a.(record := record, seal := seal, rotation := Idle, provisions := map[])
  }

  // ---------------------------------------------------------------------------------------------

  /** The passphrase in the safe opens this disk, and so does the keyfile. */
  predicate Recoverable(k: Disk, record: Option<Passphrase>) {
    InService(k) ==> k.keyfile && k.plated && record.Some? && Opens(k, record.value)
  }

  /** The recorded passphrase opens every finished encrypted disk. */
  predicate FleetOpens(a: Array) {
    forall d :: d in a.disks ==> Recoverable(a.disks[d], a.record)
  }

  predicate Later(phase: Phase) {
    phase.Accepted? || phase.Formatted? || phase.Keyed? || phase.Tested? || phase.Plated?
  }

  /** What a provision has made true so far. */
  predicate OnTrack(a: Array, q: Provision) {
    var k := At(a, q.target);
    && k.row.NoRow?
    && (Later(q.phase) ==> a.record == Some(q.passphrase))
    && (q.phase.Formatted? || q.phase.Keyed? || q.phase.Tested? || q.phase.Plated? ==> k.encrypted && k.keyfile)
    && (q.phase.Tested? || q.phase.Plated? ==> Opens(k, q.passphrase))
    && (q.phase.Plated? ==> k.plated)
  }

  predicate ProvisionsOnTrack(a: Array) {
    && (forall e :: e in a.provisions ==> OnTrack(a, a.provisions[e]))
    && (forall e, f :: e in a.provisions && f in a.provisions && a.provisions[e].target == a.provisions[f].target ==> e == f)
  }

  /** What a rotation has made true of one disk so far. */
  predicate Rotated(r: Rotation, d: Id, k: Disk)
    requires r.Running?
  {
    && (InService(k) ==> d in r.ours)
    && (d in r.added ==> d in r.ours && Opens(k, r.next))
  }

  predicate RotationOnTrack(a: Array) {
    a.rotation.Running? ==>
      && a.provisions == map[]
      && a.rotation.current != Some(a.rotation.next)
      && (forall d :: d in a.disks ==> Rotated(a.rotation, d, a.disks[d]))
      && (forall d :: d in a.rotation.ours ==> d in a.disks)
      && a.rotation.added <= a.rotation.ours
      && (a.rotation.stage.Adding? && a.record.Some? ==> a.rotation.current == a.record)
      && (!a.rotation.stage.Adding? ==> a.record == Some(a.rotation.next) && a.rotation.added == a.rotation.ours)
  }

  predicate Sound(a: Array) {
    FleetOpens(a) && ProvisionsOnTrack(a) && RotationOnTrack(a)
  }

  /** The only two things that can go behind the protocol's back, and exactly when they do not matter. */
  predicate Harmless(a: Array, e: Event) {
    && (e.Restore? ==> Recoverable(At(a, e.d).(row := Active), a.record))
    && (e.RestoreDatabase? ==> forall d :: d in a.disks ==> Recoverable(a.disks[d], e.record))
  }

  /** One disk changed and nothing else did. */
  lemma OneDiskChanged(a: Array, b: Array, d: Id, k: Disk)
    requires FleetOpens(a) && b.disks == a.disks[d := k] && b.record == a.record
    ensures FleetOpens(b) <==> Recoverable(k, b.record)
  {
    if Recoverable(k, b.record) {
      forall x | x in b.disks
        ensures Recoverable(b.disks[x], b.record)
      {
      }
    } else {
      assert b.disks[d] == k;
    }
  }

  /** Provisions not building `d` do not notice a change of it. */
  lemma ProvisionsElsewhere(a: Array, b: Array, d: Id)
    requires ProvisionsOnTrack(a) && b.provisions == a.provisions && b.record == a.record
    requires forall x :: x != d ==> At(b, x) == At(a, x)
    requires forall e :: e in a.provisions && a.provisions[e].target == d ==> OnTrack(b, a.provisions[e])
    ensures ProvisionsOnTrack(b)
  {
    forall e | e in b.provisions
      ensures OnTrack(b, b.provisions[e])
    {
      assert OnTrack(a, a.provisions[e]);
    }
  }

  lemma DiskEvent(a: Array, e: Event)
    requires Sound(a) && Enabled(a, e) && (e.Attach? || e.Retire? || e.Restore?)
    ensures FleetOpens(After(a, e)) <==> Harmless(a, e)
    ensures ProvisionsOnTrack(After(a, e)) && RotationOnTrack(After(a, e))
  {
    var b := After(a, e);
    assert Recoverable(At(a, e.d), a.record) by {
      assert !InService(BARE);
    }
    OneDiskChanged(a, b, e.d, b.disks[e.d]);
    ProvisionsElsewhere(a, b, e.d);
    if a.rotation.Running? {
      forall d | d in b.disks
        ensures Rotated(b.rotation, d, b.disks[d])
      {
        assert d in a.disks ==> Rotated(a.rotation, d, a.disks[d]);
        assert d !in a.disks ==> d !in a.rotation.ours;
      }
    }
  }

  /** A provision that only moves on, with the disks as they were. */
  lemma ProvisionMoves(a: Array, b: Array, e: nat)
    requires Sound(a) && e in a.provisions && e in b.provisions
    requires b.disks == a.disks && b.rotation == a.rotation
    requires b.provisions == a.provisions[e := b.provisions[e]] && b.provisions[e].target == a.provisions[e].target
    requires b.record == a.record || (a.record.None? && b.record.Some?)
    requires OnTrack(b, b.provisions[e])
    ensures Sound(b)
  {
    forall f | f in b.provisions
      ensures OnTrack(b, b.provisions[f])
    {
      assert OnTrack(a, a.provisions[f]);
    }
    forall d | d in b.disks
      ensures Recoverable(b.disks[d], b.record)
    {
      assert Recoverable(a.disks[d], a.record);
    }
    assert a.rotation.Idle?;
  }

  /** A provision that changes the disk it is building. */
  lemma ProvisionWrites(a: Array, b: Array, e: nat)
    requires Sound(a) && e in a.provisions && e in b.provisions
    requires var d := a.provisions[e].target; d in b.disks && b.disks == a.disks[d := b.disks[d]] && b.disks[d].row.NoRow?
    requires b.rotation == a.rotation && b.record == a.record
    requires b.provisions == a.provisions[e := b.provisions[e]] && b.provisions[e].target == a.provisions[e].target
    requires OnTrack(b, b.provisions[e])
    ensures Sound(b)
  {
    var d := a.provisions[e].target;
    OneDiskChanged(a, b, d, b.disks[d]);
    forall f | f in b.provisions
      ensures OnTrack(b, b.provisions[f])
    {
      assert OnTrack(a, a.provisions[f]);
      assert f != e ==> a.provisions[f].target != d;
    }
    assert a.rotation.Idle?;
  }

  lemma ProvisionEvent(a: Array, e: Event)
    requires Sound(a) && Enabled(a, e)
    requires e.Prove? || e.Check? || e.Claim? || e.Test? || e.Format? || e.AddKey? || e.Plate?
    ensures Sound(After(a, e))
  {
    var b := After(a, e);
    assert OnTrack(a, a.provisions[e.e]);
    if e.Format? || e.AddKey? || e.Plate? {
      ProvisionWrites(a, b, e.e);
    } else {
      ProvisionMoves(a, b, e.e);
    }
  }

  lemma ProvisionEnds(a: Array, e: Event)
    requires Sound(a) && Enabled(a, e) && (e.Finish? || e.Abort? || e.Enter?)
    ensures Sound(After(a, e))
  {
    var b := After(a, e);
    if e.Finish? {
      var q := a.provisions[e.e];
      assert OnTrack(a, q);
      OneDiskChanged(a, b, q.target, b.disks[q.target]);
    }
    forall f | f in b.provisions
      ensures OnTrack(b, b.provisions[f])
    {
      assert f in a.provisions ==> OnTrack(a, a.provisions[f]);
    }
  }

  lemma RotationBegins(a: Array, e: Event)
    requires Sound(a) && Enabled(a, e) && e.Begin?
    ensures Sound(After(a, e))
  {
    var b := After(a, e);
    forall d | d in b.disks
      ensures Rotated(b.rotation, d, b.disks[d])
    {
      assert Recoverable(a.disks[d], a.record);
    }
  }

  /** A rotation that adds to or removes from the slots of one disk. */
  lemma RotationWrites(a: Array, e: Event)
    requires Sound(a) && Enabled(a, e) && (e.AddSlot? || e.Remove?)
    ensures Sound(After(a, e))
  {
    var b := After(a, e);
    assert e.d in a.disks && Recoverable(a.disks[e.d], a.record) && Rotated(a.rotation, e.d, a.disks[e.d]);
    OneDiskChanged(a, b, e.d, b.disks[e.d]);
    forall d | d in b.disks
      ensures Rotated(b.rotation, d, b.disks[d])
    {
      assert Rotated(a.rotation, d, a.disks[d]);
    }
  }

  lemma RotationMoves(a: Array, e: Event)
    requires Sound(a) && Enabled(a, e) && (e.Confirm? || e.RecordNext? || e.Reseal? || e.EndRotation?)
    ensures Sound(After(a, e))
  {
    var b := After(a, e);
    forall d | d in b.disks
      ensures Recoverable(b.disks[d], b.record)
      ensures b.rotation.Running? ==> Rotated(b.rotation, d, b.disks[d])
    {
      assert Recoverable(a.disks[d], a.record) && Rotated(a.rotation, d, a.disks[d]);
    }
  }

  lemma ProcessEnds(a: Array, e: Event)
    requires Sound(a) && (e.Crash? || e.RestoreDatabase?)
    ensures FleetOpens(After(a, e)) <==> Harmless(a, e)
    ensures Harmless(a, e) ==> Sound(After(a, e))
  {
  }

  /**
    One step. Whatever it is, the recorded passphrase goes on opening every finished encrypted
    disk, except for two kinds of event, and for those exactly when they are harmless.
   */
  lemma StepKeepsFleetOpen(a: Array, e: Event)
    requires Sound(a) && Enabled(a, e)
    ensures FleetOpens(After(a, e)) <==> Harmless(a, e)
    ensures Harmless(a, e) ==> Sound(After(a, e))
  {
    if e.Attach? || e.Retire? || e.Restore? {
      DiskEvent(a, e);
    } else if e.Crash? || e.RestoreDatabase? {
      ProcessEnds(a, e);
    } else if e.Enter? || e.Finish? || e.Abort? {
      ProvisionEnds(a, e);
    } else if e.Begin? {
      RotationBegins(a, e);
    } else if e.AddSlot? || e.Remove? {
      RotationWrites(a, e);
    } else if e.Confirm? || e.RecordNext? || e.Reseal? || e.EndRotation? {
      RotationMoves(a, e);
    } else {
      ProvisionEvent(a, e);
    }
  }

  /** A run, newest event outermost, with the state each event led to. */
  datatype Run =
    | Start(state: Array)
    | Then(before: Run, event: Event, state: Array)

  ghost predicate Possible(run: Run) {
    run.Then? ==> Possible(run.before) && Enabled(run.before.state, run.event) && run.state == After(run.before.state, run.event)
  }

  function First(run: Run): Array {
    if run.Start? then run.state else First(run.before)
  }

  ghost predicate AllHarmless(run: Run) {
    run.Then? ==> AllHarmless(run.before) && Harmless(run.before.state, run.event)
  }

  /**
    No interleaving of encrypted provisions, racing first encryptions, rotations, retirements and
    crashes reaches a state where the recorded passphrase does not open a finished encrypted disk.
   */
  lemma {:induction false} RecordedPassphraseOpensEveryDisk(run: Run)
    requires Possible(run) && Sound(First(run)) && AllHarmless(run)
    ensures Sound(run.state)
  {
    if run.Then? {
      RecordedPassphraseOpensEveryDisk(run.before);
      StepKeepsFleetOpen(run.before.state, run.event);
    }
  }

  /** In every such run, a passphrase the seal gives out opens every disk in service. */
  lemma UnsealedOpensEveryDisk(run: Run, d: Id)
    requires Possible(run) && Sound(First(run)) && AllHarmless(run)
    requires Unsealed(run.state.record, run.state.seal).Some? && d in run.state.disks && InService(run.state.disks[d])
    ensures Opens(run.state.disks[d], Unsealed(run.state.record, run.state.seal).value)
  {
    RecordedPassphraseOpensEveryDisk(run);
    assert Recoverable(run.state.disks[d], run.state.record);
  }

  // ---------------------------------------------------------------------------------------------
  // When bringing a retired disk back is harmless, told by what happened while it was away.

  /** What a rotation in progress has made true of one disk. */
  predicate RotationKnows(a: Array, d: Id) {
    a.rotation.Running? ==>
      && a.provisions == map[]
      && a.rotation.current != Some(a.rotation.next)
      && (d in a.rotation.added ==> Opens(At(a, d), a.rotation.next))
      && (a.rotation.stage.Adding? && a.record.Some? ==> a.rotation.current == a.record)
      && (!a.rotation.stage.Adding? ==> a.record == Some(a.rotation.next) && a.rotation.added == a.rotation.ours)
  }

  /** An encrypted disk the fleet has a row for, deleted or not, that no provision is building. */
  predicate Enrolled(a: Array, d: Id) {
    && d in a.disks && !a.disks[d].row.NoRow? && a.disks[d].encrypted && a.disks[d].keyfile && a.disks[d].plated
    && (forall e :: e in a.provisions ==> a.provisions[e].target != d)
    && RotationKnows(a, d)
  }

  /** An event of some provision. */
  predicate OfProvision(e: Event) {
    e.Enter? || e.Finish? || e.Abort? || e.Prove? || e.Check? || e.Claim? || e.Test? || e.Format? || e.AddKey? || e.Plate?
  }

  lemma StaysEnrolled(a: Array, e: Event, d: Id)
    requires Enrolled(a, d) && Enabled(a, e)
    ensures Enrolled(After(a, e), d)
  {
    var b := After(a, e);
    if OfProvision(e) {
      ProvisionElsewhere(a, e, d);
    }
  }

  /** A provision never touches an enrolled disk. */
  lemma ProvisionElsewhere(a: Array, e: Event, d: Id)
    requires Enrolled(a, d) && Enabled(a, e)
    requires OfProvision(e)
    ensures d in After(a, e).disks && After(a, e).disks[d] == a.disks[d]
    ensures forall f :: f in After(a, e).provisions ==> After(a, e).provisions[f].target != d
    ensures After(a, e).rotation == a.rotation
    ensures a.record.Some? ==> After(a, e).record == a.record
  {
  }

  ghost predicate NoDatabaseRestored(run: Run) {
    run.Then? ==> NoDatabaseRestored(run.before) && !run.event.RestoreDatabase?
  }

  /**
    The last passphrase recorded reached the disk: the rotation that recorded it had the disk in its
    scan, or the disk carried it already. With no rotation recorded since the start, the record then.
   */
  ghost predicate LastRecordReached(run: Run, d: Id) {
    match run
    case Start(state) => state.record.Some? && Opens(At(state, d), state.record.value)
    case Then(before, event, state) =>
      if event.RecordNext? && before.state.rotation.Running? then
        d in before.state.rotation.ours || Opens(At(before.state, d), before.state.rotation.next)
      else LastRecordReached(before, d)
  }

  /** One step leaves a disk the record opens opened by it, and any other not, unless it records another passphrase. */
  lemma RecordFollowsDisk(a: Array, e: Event, d: Id)
    requires Enrolled(a, d) && Enabled(a, e) && !e.RestoreDatabase? && a.record.Some?
    ensures After(a, e).record.Some?
    ensures e.RecordNext? ==>
              (Opens(At(After(a, e), d), After(a, e).record.value) <==> (d in a.rotation.ours || Opens(At(a, d), a.rotation.next)))
    ensures !e.RecordNext? ==> (Opens(At(After(a, e), d), After(a, e).record.value) <==> Opens(At(a, d), a.record.value))
  {
    if OfProvision(e) {
      ProvisionElsewhere(a, e, d);
    }
  }

  /**
    After any run in which no database was restored, the record opens an enrolled disk exactly when
    the last passphrase recorded reached it; so that is exactly when restoring it is harmless.
   */
  lemma {:induction false} RestoreIsHarmlessIff(run: Run, d: Id)
    requires Possible(run) && NoDatabaseRestored(run) && Enrolled(First(run), d) && First(run).record.Some?
    ensures Enrolled(run.state, d) && run.state.record.Some?
    ensures Opens(At(run.state, d), run.state.record.value) <==> LastRecordReached(run, d)
    ensures Harmless(run.state, Restore(d)) <==> LastRecordReached(run, d)
  {
    if run.Then? {
      RestoreIsHarmlessIff(run.before, d);
      StaysEnrolled(run.before.state, run.event, d);
      RecordFollowsDisk(run.before.state, run.event, d);
    }
  }

  // ---------------------------------------------------------------------------------------------
  // When restoring the database is harmless.

  /** The events that write keyslots, and what each does to the number of those on `d` that carry `p`. */
  ghost function Slotted(a: Array, e: Event, d: Id, p: Passphrase, n: nat): nat
    requires Enabled(a, e)
  {
    match e
    case Format(e) => if a.provisions[e].target == d then 0 else n
    case AddKey(e, lands) => if lands && a.provisions[e].target == d && a.provisions[e].passphrase == p then n + 1 else n
    case AddSlot(x) => if x == d && a.rotation.next == p then n + 1 else n
    case Remove(x) => if x == d && a.rotation.current == Some(p) && n > 0 then n - 1 else n
    case _ => n
  }

  /** How often a disk carries `p`, told by the slots it had and those written and removed since. */
  ghost function Tally(run: Run, d: Id, p: Passphrase): nat
    requires Possible(run)
  {
    match run
    case Start(state) => At(state, d).slots[p]
    case Then(before, event, _) => Slotted(before.state, event, d, p, Tally(before, d, p))
  }

  lemma {:induction false} TallyIsSlots(run: Run, d: Id, p: Passphrase)
    requires Possible(run)
    ensures At(run.state, d).slots[p] == Tally(run, d, p)
  {
    if run.Then? {
      TallyIsSlots(run.before, d, p);
      SlotsFollowEvents(run.before.state, run.event, d, p);
    }
  }

  lemma SlotsFollowEvents(a: Array, e: Event, d: Id, p: Passphrase)
    requires Enabled(a, e)
    ensures At(After(a, e), d).slots[p] == Slotted(a, e, d, p, At(a, d).slots[p])
  {
    if e.Format? || e.AddKey? || e.AddSlot? || e.Remove? {
      WrittenSlots(a, e, d, p);
    } else {
      UnwrittenSlots(a, e, d);
    }
  }

  lemma WrittenSlots(a: Array, e: Event, d: Id, p: Passphrase)
    requires Enabled(a, e) && (e.Format? || e.AddKey? || e.AddSlot? || e.Remove?)
    ensures At(After(a, e), d).slots[p] == Slotted(a, e, d, p, At(a, d).slots[p])
  {
  }

  lemma UnwrittenSlots(a: Array, e: Event, d: Id)
    requires Enabled(a, e) && !(e.Format? || e.AddKey? || e.AddSlot? || e.Remove?)
    ensures At(After(a, e), d).slots == At(a, d).slots
  {
  }

  /** What a provision has made true of its target, whatever became of the passphrase. */
  predicate Building(a: Array, q: Provision) {
    var k := At(a, q.target);
    && k.row.NoRow?
    && (q.phase.Formatted? || q.phase.Keyed? || q.phase.Tested? || q.phase.Plated? ==> k.encrypted && k.keyfile)
    && (q.phase.Plated? ==> k.plated)
  }

  /** An encrypted disk with a row has its keyfile slot and its nameplate, and nothing is being built on it. */
  predicate Registered(a: Array) {
    && (forall d :: d in a.disks && !a.disks[d].row.NoRow? && a.disks[d].encrypted ==> a.disks[d].keyfile && a.disks[d].plated)
    && (forall e :: e in a.provisions ==> Building(a, a.provisions[e]))
    && (forall e, f :: e in a.provisions && f in a.provisions && a.provisions[e].target == a.provisions[f].target ==> e == f)
  }

  /** One provision moved on, perhaps writing the disk it is building. */
  lemma ProvisionChanges(a: Array, b: Array, e: nat)
    requires Registered(a) && e in a.provisions && e in b.provisions
    requires b.provisions == a.provisions[e := b.provisions[e]] && b.provisions[e].target == a.provisions[e].target
    requires forall x :: x != a.provisions[e].target ==> At(b, x) == At(a, x)
    requires Building(b, b.provisions[e])
    ensures Registered(b)
  {
    DisksStayRegistered(a, b, b.provisions[e].target);
    forall f | f in b.provisions
      ensures Building(b, b.provisions[f])
    {
      assert f != e ==> Building(a, a.provisions[f]) && a.provisions[f].target != a.provisions[e].target;
    }
  }

  lemma DisksStayRegistered(a: Array, b: Array, target: Id)
    requires Registered(a) && forall x :: x != target ==> At(b, x) == At(a, x)
    requires At(b, target).row.NoRow? || (At(b, target).keyfile && At(b, target).plated)
    ensures forall d :: d in b.disks && !b.disks[d].row.NoRow? && b.disks[d].encrypted ==> b.disks[d].keyfile && b.disks[d].plated
  {
    forall d | d in b.disks && !b.disks[d].row.NoRow? && b.disks[d].encrypted
      ensures b.disks[d].keyfile && b.disks[d].plated
    {
      assert b.disks[d] == At(b, d);
      if d != target {
        assert At(a, d) == At(b, d);
        assert d in a.disks;
      }
    }
  }

  lemma MovingStaysRegistered(a: Array, e: Event)
    requires Registered(a) && Enabled(a, e)
    requires e.Prove? || e.Check? || e.Claim? || e.Test?
    ensures Registered(After(a, e))
  {
    assert Building(a, a.provisions[e.e]);
    ProvisionChanges(a, After(a, e), e.e);
  }

  lemma WritingStaysRegistered(a: Array, e: Event)
    requires Registered(a) && Enabled(a, e)
    requires e.Format? || e.AddKey? || e.Plate?
    ensures Registered(After(a, e))
  {
    assert Building(a, a.provisions[e.e]);
    ProvisionChanges(a, After(a, e), e.e);
  }

  /** A provision that begins, or is over: its disk has a row now, or it was given up. */
  lemma EnteringStaysRegistered(a: Array, e: Event)
    requires Registered(a) && Enabled(a, e)
    requires e.Enter? || e.Abort?
    ensures Registered(After(a, e))
  {
    var b := After(a, e);
    forall f | f in b.provisions
      ensures Building(b, b.provisions[f])
    {
      assert f in a.provisions && !(e.Enter? && f == e.e) ==> Building(a, a.provisions[f]);
    }
  }

  lemma FinishingStaysRegistered(a: Array, e: Event)
    requires Registered(a) && Enabled(a, e) && e.Finish?
    ensures Registered(After(a, e))
  {
    var b, target := After(a, e), a.provisions[e.e].target;
    assert Building(a, a.provisions[e.e]);
    DisksStayRegistered(a, b, target);
    forall f | f in b.provisions
      ensures Building(b, b.provisions[f])
    {
      assert Building(a, a.provisions[f]) && a.provisions[f].target != target;
    }
  }

  /** An event that changes one disk that is not being built. */
  predicate OfOneDisk(e: Event) {
    e.Attach? || e.Retire? || e.Restore? || e.AddSlot? || e.Remove?
  }

  /** It leaves encryption, keyfile and nameplate as they were, and whether the disk has a row. */
  lemma OneDiskStaysRegistered(a: Array, e: Event)
    requires Registered(a) && Enabled(a, e) && OfOneDisk(e)
    ensures Registered(After(a, e))
  {
    var b := After(a, e);
    assert SameStanding(At(a, e.d), At(b, e.d));
    assert b.provisions == a.provisions && forall x :: x != e.d ==> At(b, x) == At(a, x);
    SameStandingStaysRegistered(a, b);
  }

  /** What is left changes no disk. */
  lemma ElsewhereStaysRegistered(a: Array, e: Event)
    requires Registered(a) && Enabled(a, e) && !OfProvision(e) && !OfOneDisk(e)
    ensures Registered(After(a, e))
  {
    var b := After(a, e);
    assert b.disks == a.disks;
    SameStandingStaysRegistered(a, b);
  }

  predicate SameStanding(k: Disk, l: Disk) {
    k.row.NoRow? == l.row.NoRow? && k.encrypted == l.encrypted && k.keyfile == l.keyfile && k.plated == l.plated
  }

  lemma SameStandingStaysRegistered(a: Array, b: Array)
    requires Registered(a) && (b.provisions == a.provisions || b.provisions == map[])
    requires forall d :: SameStanding(At(a, d), At(b, d))
    ensures Registered(b)
  {
    forall d | d in b.disks && !b.disks[d].row.NoRow? && b.disks[d].encrypted
      ensures b.disks[d].keyfile && b.disks[d].plated
    {
      assert SameStanding(At(a, d), At(b, d));
      assert d in a.disks;
    }
    forall f | f in b.provisions
      ensures Building(b, b.provisions[f])
    {
      assert Building(a, a.provisions[f]) && SameStanding(At(a, a.provisions[f].target), At(b, a.provisions[f].target));
    }
  }

  lemma StaysRegistered(a: Array, e: Event)
    requires Registered(a) && Enabled(a, e)
    ensures Registered(After(a, e))
  {
    if OfOneDisk(e) {
      OneDiskStaysRegistered(a, e);
    } else if !OfProvision(e) {
      ElsewhereStaysRegistered(a, e);
    } else if e.Enter? || e.Abort? {
      EnteringStaysRegistered(a, e);
    } else if e.Finish? {
      FinishingStaysRegistered(a, e);
    } else if e.Format? || e.AddKey? || e.Plate? {
      WritingStaysRegistered(a, e);
    } else {
      MovingStaysRegistered(a, e);
    }
  }

  /** From any state that is registered, so does every run. */
  lemma {:induction false} RunStaysRegistered(run: Run)
    requires Possible(run) && Registered(First(run))
    ensures Registered(run.state)
  {
    if run.Then? {
      RunStaysRegistered(run.before);
      StaysRegistered(run.before.state, run.event);
    }
  }

  /**
    Going back to any record, after any run, is harmless exactly when it names a passphrase that every
    disk in service, those encrypted since included, has kept a slot for through all the slots written
    and removed.
   */
  lemma RestoreDatabaseIsHarmlessIff(run: Run, record: Option<Passphrase>, seal: Option<Passphrase>)
    requires Possible(run) && Registered(First(run))
    ensures Harmless(run.state, RestoreDatabase(record, seal)) <==>
              forall d :: d in run.state.disks && InService(run.state.disks[d]) ==> record.Some? && Tally(run, d, record.value) > 0
  {
    RunStaysRegistered(run);
    forall d | d in run.state.disks && InService(run.state.disks[d])
      ensures Recoverable(run.state.disks[d], record) <==> record.Some? && Tally(run, d, record.value) > 0
    {
      if record.Some? {
        TallyIsSlots(run, d, record.value);
      }
    }
  }

  // ---------------------------------------------------------------------------------------------
  // A disk that was away and retired while the passphrase changed comes back with the old one.
  // ---------------------------------------------------------------------------------------------

  const OLD: Passphrase := "correct horse"
  const NEW: Passphrase := "battery staple"

  function Healthy(attached: bool, row: Row, p: Passphrase): Disk {
    Disk(row, attached, true, true, true, multiset{p})
  }

  const BOTH_IN_SERVICE :=
    Array(map[0 := Healthy(true, Active, OLD), 1 := Healthy(true, Active, OLD)], Some(OLD), None, Idle, map[])
  const ONE_AWAY :=
    Array(map[0 := Healthy(true, Active, OLD), 1 := Healthy(false, Retired, OLD)], Some(OLD), None, Idle, map[])
  const ROTATED :=
    Array(map[0 := Healthy(true, Active, OLD).(slots := multiset{OLD, NEW}), 1 := Healthy(false, Retired, OLD)], Some(NEW), None, Idle, map[])

  function Do(run: Run, e: Event): (next: Run)
    requires Possible(run) && Enabled(run.state, e)
    ensures Possible(next) && First(next) == First(run)
    ensures NoDatabaseRestored(run) && !e.RestoreDatabase? ==> NoDatabaseRestored(next)
    ensures next == Then(run, e, After(run.state, e))
  {
    Then(run, e, After(run.state, e))
  }

  lemma DiskLeaves(run: Run) returns (next: Run)
    requires Possible(run) && run.state == BOTH_IN_SERVICE
    ensures Possible(next) && First(next) == First(run) && (NoDatabaseRestored(run) ==> NoDatabaseRestored(next)) && next.state == ONE_AWAY
  {
    next := Do(Do(run, Retire(1)), Attach(1, false));
    assert next.state.disks == ONE_AWAY.disks;
  }

  const BEGUN := ONE_AWAY.(rotation := Running(NEW, Some(OLD), {0}, {}, Adding))
  const ADDED := ROTATED.(record := Some(OLD), rotation := Running(NEW, Some(OLD), {0}, {}, Adding))
  const CONFIRMED := ROTATED.(record := Some(OLD), rotation := Running(NEW, Some(OLD), {0}, {0}, Adding))

  lemma RotationIsBegun(run: Run) returns (next: Run)
    requires Possible(run) && run.state == ONE_AWAY
    ensures Possible(next) && First(next) == First(run) && (NoDatabaseRestored(run) ==> NoDatabaseRestored(next)) && next.state == BEGUN
  {
    next := Do(run, Begin(NEW, Some(OLD)));
    assert Ours(ONE_AWAY) == {0};
  }

  lemma NewPassphraseIsAdded(run: Run) returns (next: Run)
    requires Possible(run) && run.state == BEGUN
    ensures Possible(next) && First(next) == First(run) && (NoDatabaseRestored(run) ==> NoDatabaseRestored(next)) && next.state == ADDED
  {
    next := Do(run, AddSlot(0));
    assert next.state.disks[0].slots == multiset{OLD, NEW};
    assert next.state.disks == ROTATED.disks;
  }

  lemma NewPassphraseIsConfirmed(run: Run) returns (next: Run)
    requires Possible(run) && run.state == ADDED
    ensures Possible(next) && First(next) == First(run) && (NoDatabaseRestored(run) ==> NoDatabaseRestored(next)) && next.state == CONFIRMED
  {
    next := Do(run, Confirm(0));
    assert next.state.rotation.added == {0};
  }

  lemma RotationPassesBy(run: Run) returns (next: Run)
    requires Possible(run) && run.state == ONE_AWAY
    ensures Possible(next) && First(next) == First(run) && (NoDatabaseRestored(run) ==> NoDatabaseRestored(next)) && next.state == ROTATED
  {
    var begun := RotationIsBegun(run);
    var added := NewPassphraseIsAdded(begun);
    var confirmed := NewPassphraseIsConfirmed(added);
    next := Do(Do(confirmed, RecordNext), EndRotation);
  }

  /** Bringing a retired disk back only logs a warning, so it can be in service on a passphrase nobody recorded. */
  lemma RestoredDiskMissedTheRotation() returns (run: Run)
    ensures Possible(run) && First(run) == BOTH_IN_SERVICE && Sound(First(run))
    ensures !FleetOpens(run.state)
    ensures run.event == Restore(1) && !Harmless(run.before.state, run.event)
    ensures Enrolled(First(run), 1) && NoDatabaseRestored(run) && !LastRecordReached(run.before, 1)
  {
    var away := DiskLeaves(Start(BOTH_IN_SERVICE));
    var rotated := RotationPassesBy(away);
    run := Do(Do(rotated, Attach(1, true)), Restore(1));
    assert !Opens(run.state.disks[1], NEW);
    assert InService(run.state.disks[1]);
    RestoreIsHarmlessIff(run.before, 1);
  }
}
