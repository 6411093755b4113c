/**
  Encrypting one more disk: the passphrase has to open a disk already encrypted before it is
  checked against the record, and the new header has to prove it took it.
 */
module PassphraseProof {
  import opened Prelude
  import opened PassphraseRotation
  import PassphraseProtocol

  datatype Verdict = OpensIt | Rejected | Unreadable

  function Ask(h: Header, p: Passphrase, readable: bool): Verdict {
    if !readable then Unreadable else if p in h.slots then OpensIt else Rejected
  }

  /** The first disk that answers opens with `p`. */
  ghost predicate FirstAnswerIsYes(headers: map<Id, Header>, ours: seq<Id>, p: Passphrase, readable: Id -> bool) {
    exists i :: && 0 <= i < |ours| && ours[i] in headers && readable(ours[i]) && p in headers[ours[i]].slots
                && forall j :: 0 <= j < i ==> !readable(ours[j])
  }

  ghost predicate Proven(headers: map<Id, Header>, scan: Scan, onRecord: bool, p: Passphrase, readable: Id -> bool) {
    && scan.unknown == [] && scan.absent == []
    && (if scan.ours == [] then !onRecord else FirstAnswerIsYes(headers, scan.ours, p, readable))
  }

  /** Ask the platters, one disk at a time, until one answers. */
  method AssertOpensTheFleet(headers: map<Id, Header>, scan: Scan, onRecord: bool, p: Passphrase, readable: Id -> bool)
    returns (proven: bool)
    requires forall d :: d in scan.ours ==> d in headers
    ensures proven <==> Proven(headers, scan, onRecord, p, readable)
  {
    if scan.unknown != [] || scan.absent != [] {
      return false;
    }
    if scan.ours == [] {
      return !onRecord;
    }
    var i := 0;
    while i < |scan.ours|
      invariant 0 <= i <= |scan.ours|
      invariant forall j :: 0 <= j < i ==> !readable(scan.ours[j])
    {
      var verdict := Ask(headers[scan.ours[i]], p, readable(scan.ours[i]));
      if verdict.OpensIt? {
        return true;
      }
      if verdict.Rejected? {
        assert readable(scan.ours[i]);
        return false;
      }
      i := i + 1;
    }
    proven := false;
  }

  /** Every disk of ours opens with the same passphrases. */
  ghost predicate Uniform(headers: map<Id, Header>, ours: seq<Id>) {
    forall d, e, p :: d in ours && e in ours && d in headers && e in headers && p in headers[d].slots ==> p in headers[e].slots
  }

  /** One disk speaks for all of them exactly because they are alike. */
  lemma OneDiskSpeaksForAll(headers: map<Id, Header>, ours: seq<Id>, p: Passphrase, readable: Id -> bool)
    requires Uniform(headers, ours) && FirstAnswerIsYes(headers, ours, p, readable)
    ensures forall d :: d in ours && d in headers ==> p in headers[d].slots
  {
  }

  /** ... and when they are not, the proof accepts a passphrase that leaves a disk out. */
  lemma OneDiskCanBeOutOfStep(p: Passphrase, q: Passphrase)
    requires p != q
    ensures var headers := map[0 := Header(true, multiset{p}), 1 := Header(true, multiset{q})];
            && Proven(headers, Scan([0, 1], [], []), true, p, _ => true)
            && !Uniform(headers, [0, 1]) && p !in headers[1].slots
  {
    var headers := map[0 := Header(true, multiset{p}), 1 := Header(true, multiset{q})];
    var ours: seq<Id> := [0, 1];
    assert ours[0] in headers && p in headers[ours[0]].slots && p !in headers[ours[1]].slots;
  }

  /** What an encryption is up against, besides the disks. */
  datatype Circumstances = Circumstances(
    given: Option<Passphrase>,
    keyfile: bool,
    onRecord: bool,
    uniqueIndex: bool,
    readable: Id -> bool,
    seals: bool,
    formats: Fault,
    adds: Fault,
    tests: Fault)

  /** The passphrase an encryption would use: the one given, or what the seal gives out; none without the keyfile. */
  function Offered(record: Option<Passphrase>, seal: Option<Passphrase>, c: Circumstances): Option<Passphrase> {
    if !c.keyfile then None else if c.given.Some? then c.given else PassphraseProtocol.Unsealed(record, seal)
  }

  /** It may be used: the platters and the record both accept it, or it is the first. */
  ghost predicate Usable(headers: map<Id, Header>, record: Option<Passphrase>, scan: Scan, c: Circumstances, p: Passphrase) {
    && Proven(headers, scan, c.onRecord, p, c.readable) && |p| >= MIN_LENGTH
    && (record == Some(p) || (record.None? && scan == Scan([], [], []) && c.uniqueIndex))
  }

  /** An array without its keyfile encrypts nothing, and one whose record cannot be used needs the passphrase given. */
  lemma OfferedIff(record: Option<Passphrase>, seal: Option<Passphrase>, c: Circumstances)
    ensures Offered(record, seal, c).Some? <==> c.keyfile && (c.given.Some? || (seal.Some? && seal == record))
    ensures Offered(record, seal, c).Some? ==> Offered(record, seal, c) == if c.given.Some? then c.given else record
  {
  }

  class Vault {
    var headers: map<Id, Header>
    var record: Option<Passphrase>
    var seal: Option<Passphrase>

    // The run of the transition system that every step so far belongs to.
    ghost var run: PassphraseProtocol.Run

    ghost predicate Valid()
      reads this
    {
      PassphraseProtocol.Possible(run) && Matches(headers, record, seal, run.state)
    }

    /** Provision `e` is building `target` with passphrase `p`, and has come this far. */
    ghost predicate InFlight(e: nat, target: Id, p: Passphrase, phase: PassphraseProtocol.Phase)
      reads this
    {
      e in run.state.provisions && run.state.provisions[e] == PassphraseProtocol.Provision(target, p, phase)
    }

    constructor (headers: map<Id, Header>, record: Option<Passphrase>, seal: Option<Passphrase>, ghost mirror: PassphraseProtocol.Array)
      requires Matches(headers, record, seal, mirror)
      ensures Valid() && this.headers == headers && this.record == record && this.seal == seal
      ensures run == PassphraseProtocol.Start(mirror)
    {
      this.headers, this.record, this.seal := headers, record, seal;
      run := PassphraseProtocol.Start(mirror);
    }

    /** Note the step of the transition system that has just been taken. */
    ghost method Take(e: PassphraseProtocol.Event)
      requires PassphraseProtocol.Possible(run) && PassphraseProtocol.Enabled(run.state, e)
      requires Matches(headers, record, seal, PassphraseProtocol.After(run.state, e))
      modifies this`run
      ensures Valid() && run == PassphraseProtocol.Then(old(run), e, PassphraseProtocol.After(old(run.state), e))
      ensures PassphraseProtocol.First(run) == old(PassphraseProtocol.First(run))
    {
      run := PassphraseProtocol.Then(run, e, PassphraseProtocol.After(run.state, e));
    }

    /** Check a passphrase against the record; with nothing recorded and nothing encrypted, it becomes the record. */
    method AssertFleetPassphrase(p: Passphrase, scan: Scan, c: Circumstances, ghost e: nat, ghost target: Id) returns (accepted: bool)
      requires Valid() && InFlight(e, target, p, PassphraseProtocol.Proved) && TrueScan(scan, run.state)
      modifies this`record, this`seal, this`run
      ensures Valid() && PassphraseProtocol.First(run) == old(PassphraseProtocol.First(run))
      ensures if accepted then InFlight(e, target, p, PassphraseProtocol.Accepted) else run == old(run)
      ensures accepted ==> record == Some(p) && |p| >= MIN_LENGTH
      ensures accepted && old(record).None? ==> scan == Scan([], [], [])
      ensures !accepted ==> record == old(record) && seal == old(seal)
      ensures accepted <==> |p| >= MIN_LENGTH && (old(record) == Some(p)
                              || (old(record).None? && scan == Scan([], [], []) && c.uniqueIndex))
      ensures accepted && c.seals && c.keyfile ==> PassphraseProtocol.Unsealed(record, seal) == Some(p)
    {
      accepted := false;
      if |p| < MIN_LENGTH || (record.Some? && record != Some(p)) {
        return;
      }
      if record.None? {
        if scan.unknown != [] || scan.ours != [] || scan.absent != [] || !c.uniqueIndex {
          return;
        }
        RecordFirst(p, c.seals && c.keyfile, e, target);
      } else {
        SealAgain(p, c.seals && c.keyfile, e, target);
      }
      accepted := true;
    }

    /** The first encryption: its passphrase becomes the fleet's, and is sealed. */
    method RecordFirst(p: Passphrase, seals: bool, ghost e: nat, ghost target: Id)
      requires Valid() && InFlight(e, target, p, PassphraseProtocol.Proved) && record.None? && |p| >= MIN_LENGTH
      requires PassphraseProtocol.NothingUnaskable(run.state) && PassphraseProtocol.Ours(run.state) == {}
      modifies this`record, this`seal, this`run
      ensures Valid() && PassphraseProtocol.First(run) == old(PassphraseProtocol.First(run))
      ensures InFlight(e, target, p, PassphraseProtocol.Accepted)
      ensures record == Some(p) && seal == if seals then Some(p) else old(seal)
    {
      Take(PassphraseProtocol.Check(e, false));
      record := Some(p);
      if seals && PassphraseProtocol.Unsealed(record, seal).None? {
        seal := Some(p);
      }
      Take(PassphraseProtocol.Claim(e, seals));
    }

    /** A later one: what is on record is sealed again if the seal is of no use. */
    method SealAgain(p: Passphrase, seals: bool, ghost e: nat, ghost target: Id)
      requires Valid() && InFlight(e, target, p, PassphraseProtocol.Proved) && record == Some(p) && |p| >= MIN_LENGTH
      modifies this`seal, this`run
      ensures Valid() && PassphraseProtocol.First(run) == old(PassphraseProtocol.First(run))
      ensures InFlight(e, target, p, PassphraseProtocol.Accepted)
      ensures seals ==> seal == Some(p)
    {
      if seals && PassphraseProtocol.Unsealed(record, seal).None? {
        seal := Some(p);
      }
      Take(PassphraseProtocol.Check(e, seals));
    }

    /** Everything that must hold before the disk is touched. */
    method AssertEncryptionIsPossible(scan: Scan, c: Circumstances, ghost e: nat, ghost target: Id) returns (known: Option<Passphrase>)
      requires forall d :: d in scan.ours ==> d in headers
      requires Valid() && MayEnter(e, target) && TrueScan(scan, run.state)
      modifies this`record, this`seal, this`run
      ensures Valid() && PassphraseProtocol.First(run) == old(PassphraseProtocol.First(run))
      ensures if known.Some? then InFlight(e, target, known.value, PassphraseProtocol.Accepted) else e !in run.state.provisions
      ensures known.Some? ==> record == known && Proven(headers, scan, c.onRecord, known.value, c.readable)
      ensures known.None? ==> record == old(record) && seal == old(seal)
      ensures var offer := Offered(old(record), old(seal), c);
              known == if offer.Some? && Usable(headers, old(record), scan, c, offer.value) then offer else None
    {
      known := Offered(record, seal, c);
      if known.None? {
        return;
      }
      Begin(scan, known.value, e, target);
      var proven := AssertOpensTheFleet(headers, scan, c.onRecord, known.value, c.readable);
      var accepted := false;
      if proven {
        NoteProof(scan, c, known.value, e, target);
        accepted := AssertFleetPassphrase(known.value, scan, c, e, target);
      }
      if !accepted {
        known := None;
        GiveUp(e);
      }
    }

    ghost method GiveUp(e: nat)
      requires Valid() && e in run.state.provisions
      modifies this`run
      ensures Valid() && PassphraseProtocol.First(run) == old(PassphraseProtocol.First(run)) && e !in run.state.provisions
    {
      Take(PassphraseProtocol.Abort(e));
    }

    ghost method Begin(scan: Scan, p: Passphrase, e: nat, target: Id)
      requires Valid() && MayEnter(e, target) && TrueScan(scan, run.state)
      modifies this`run
      ensures Valid() && PassphraseProtocol.First(run) == old(PassphraseProtocol.First(run))
      ensures InFlight(e, target, p, PassphraseProtocol.Entered) && TrueScan(scan, run.state)
    {
      Take(PassphraseProtocol.Enter(e, target, p));
    }

    ghost predicate MayEnter(e: nat, target: Id)
      reads this
    {
      run.state.rotation.Idle? && e !in run.state.provisions && PassphraseProtocol.Free(run.state, target)
    }

    ghost method NoteProof(scan: Scan, c: Circumstances, p: Passphrase, e: nat, target: Id)
      requires Valid() && InFlight(e, target, p, PassphraseProtocol.Entered) && TrueScan(scan, run.state)
      requires Proven(headers, scan, c.onRecord, p, c.readable)
      modifies this`run
      ensures Valid() && PassphraseProtocol.First(run) == old(PassphraseProtocol.First(run))
      ensures InFlight(e, target, p, PassphraseProtocol.Proved) && TrueScan(scan, run.state)
      ensures run.state.disks == old(run.state.disks)
    {
      if scan.ours != [] {
        var i :| 0 <= i < |scan.ours| && scan.ours[i] in headers && p in headers[scan.ours[i]].slots;
        assert scan.ours[i] in PassphraseProtocol.Ours(run.state);
        assert PassphraseProtocol.Opens(PassphraseProtocol.At(run.state, scan.ours[i]), p);
      }
      Take(PassphraseProtocol.Prove(e));
    }

    /** Write a new header, add the passphrase, and put the disk into service only if the header proves it opens. */
    method EncryptPartition(target: Id, p: Passphrase, c: Circumstances, ghost e: nat) returns (ok: bool)
      requires Valid() && InFlight(e, target, p, PassphraseProtocol.Accepted)
      modifies this`headers, this`run
      ensures Valid() && PassphraseProtocol.First(run) == old(PassphraseProtocol.First(run))
      ensures if ok then InFlight(e, target, p, PassphraseProtocol.Tested) else e !in run.state.provisions
      ensures forall d :: d in old(headers) && d != target ==> d in headers && headers[d] == old(headers)[d]
      ensures ok <==> c.formats.Fine? && c.adds.Fine? && c.tests.Fine?
      ensures if !Lands(c.formats) then headers == old(headers)
              else headers == old(headers)[target := Header(true, if c.formats.Fine? && Lands(c.adds) then multiset{p} else multiset{})]
    {
      ok := WriteHeader(target, p, c.formats, e);
      if ok {
        ok := KeyHeader(target, p, c.adds, c.tests, e);
      } else {
        GiveUp(e);
      }
    }

    /** Add the passphrase to a fresh header, and prove that it opens. */
    method KeyHeader(target: Id, p: Passphrase, adds: Fault, tests: Fault, ghost e: nat) returns (ok: bool)
      requires Valid() && InFlight(e, target, p, PassphraseProtocol.Formatted)
      requires target in headers && headers[target] == Header(true, multiset{})
      modifies this`headers, this`run
      ensures Valid() && PassphraseProtocol.First(run) == old(PassphraseProtocol.First(run))
      ensures if ok then InFlight(e, target, p, PassphraseProtocol.Tested) else e !in run.state.provisions
      ensures ok <==> adds.Fine? && tests.Fine?
      ensures headers == if Lands(adds) then old(headers)[target := Header(true, multiset{p})] else old(headers)
    {
      ok := AddPassphrase(target, p, adds, e);
      assert headers[target].slots == if Lands(adds) then multiset{p} else multiset{};
      assert Lands(adds) ==> headers[target] == Header(true, multiset{p});
      if ok {
        ok := tests.Fine? && p in headers[target].slots;
      }
      NoteTest(ok, target, p, e);
    }

    /** The new header opened, or the provision is given up. */
    ghost method NoteTest(ok: bool, target: Id, p: Passphrase, e: nat)
      requires Valid() && e in run.state.provisions
      requires ok ==> InFlight(e, target, p, PassphraseProtocol.Keyed) && target in headers && p in headers[target].slots
      modifies this`run
      ensures Valid() && PassphraseProtocol.First(run) == old(PassphraseProtocol.First(run))
      ensures if ok then InFlight(e, target, p, PassphraseProtocol.Tested) else e !in run.state.provisions
    {
      Take(if ok then PassphraseProtocol.Test(e) else PassphraseProtocol.Abort(e));
    }

    method WriteHeader(target: Id, p: Passphrase, fault: Fault, ghost e: nat) returns (ok: bool)
      requires Valid() && InFlight(e, target, p, PassphraseProtocol.Accepted)
      modifies this`headers, this`run
      ensures Valid() && PassphraseProtocol.First(run) == old(PassphraseProtocol.First(run))
      ensures e in run.state.provisions && (ok ==> InFlight(e, target, p, PassphraseProtocol.Formatted))
      ensures headers == if Lands(fault) then old(headers)[target := Header(true, multiset{})] else old(headers)
      ensures ok <==> fault.Fine?
    {
      if Lands(fault) {
        headers := headers[target := Header(true, multiset{})];
        Take(PassphraseProtocol.Format(e));
      }
      ok := fault.Fine?;
    }

    method AddPassphrase(target: Id, p: Passphrase, fault: Fault, ghost e: nat) returns (ok: bool)
      requires Valid() && InFlight(e, target, p, PassphraseProtocol.Formatted) && target in headers
      modifies this`headers, this`run
      ensures Valid() && PassphraseProtocol.First(run) == old(PassphraseProtocol.First(run))
      ensures e in run.state.provisions && (ok ==> InFlight(e, target, p, PassphraseProtocol.Keyed))
      ensures headers == if Lands(fault) then old(headers)[target := old(headers)[target].(slots := old(headers)[target].slots + multiset{p})] else old(headers)
      ensures ok <==> fault.Fine? || fault.Lies?
    {
      if Lands(fault) {
        headers := headers[target := headers[target].(slots := headers[target].slots + multiset{p})];
      }
      Take(PassphraseProtocol.AddKey(e, Lands(fault)));
      ok := fault.Fine? || fault.Lies?;
    }

    /**
      One encryption from start to end, whatever the database says: it may have been rolled back to
      any earlier record and seal. If the disks agree with each other, success leaves a recorded
      passphrase that opens every one of them and the new disk; failure touches none of them. Every
      step of it is a step of the transition system, up to the proof that the new header opens.
     */
    method Encrypt(target: Id, scan: Scan, c: Circumstances, ghost e: nat) returns (ok: bool)
      requires target !in scan.ours && forall d :: d in scan.ours ==> d in headers
      requires Valid() && MayEnter(e, target) && TrueScan(scan, run.state)
      modifies this
      ensures Valid() && PassphraseProtocol.First(run) == old(PassphraseProtocol.First(run))
      ensures if ok then record.Some? && InFlight(e, target, record.value, PassphraseProtocol.Tested) else e !in run.state.provisions
      ensures ok <==> (&& Offered(old(record), old(seal), c).Some?
                       && Usable(old(headers), old(record), scan, c, Offered(old(record), old(seal), c).value)
                       && c.formats.Fine? && c.adds.Fine? && c.tests.Fine?)
      ensures ok ==> headers == old(headers)[target := Header(true, multiset{record.value})]
      ensures ok && Uniform(old(headers), scan.ours) ==> RecordOpens(headers, record, scan.ours + [target]) && target in headers
      ensures forall d :: d in old(headers) && d != target ==> d in headers && headers[d] == old(headers)[d]
      ensures ok ==> record.Some? && Proven(old(headers), scan, c.onRecord, record.value, c.readable)
    {
      var known := AssertEncryptionIsPossible(scan, c, e, target);
      if known.None? {
        return false;
      }
      ghost var was := headers;
      ok := EncryptPartition(target, known.value, c, e);
      if ok && Uniform(was, scan.ours) && scan.ours != [] {
        OneDiskSpeaksForAll(was, scan.ours, known.value, c.readable);
      }
    }
  }
}
