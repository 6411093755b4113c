/**
  Changing the fleet recovery passphrase on a set of disks: add the new one everywhere, record it,
  seal it, retire the old one. Any call out of the process may fail, before or after it took effect,
  and the process may die at any of them.
 */
module PassphraseRotation {
  import opened Prelude
  import Protocol = PassphraseProtocol

  type Passphrase = Protocol.Passphrase
  type Id = Protocol.Id
  type Slots = Protocol.Slots

  const MIN_LENGTH := Protocol.MIN_LENGTH

  /**
    How one call out of the process goes. `Fails`: it reports failure (a test: that the disk could
    not be read), having taken effect or not. `Lies`: it reports success and did nothing. `Dies`:
    the process does, or an exception ends the rotation, after the call took effect or not.
   */
  datatype Fault = Fine | Fails(landed: bool) | Lies | Dies(landed: bool)

  predicate Lands(f: Fault) {
    f.Fine? || (f.Fails? && f.landed) || (f.Dies? && f.landed)
  }

  lemma LandsIff(f: Fault)
    ensures Lands(f) <==> f == Fine || f == Fails(true) || f == Dies(true)
  {
  }

  /** The calls a rotation makes: per disk, and to the database. */
  datatype Call = FirstTest(d: Id) | Add(d: Id) | SecondTest(d: Id) | WriteRecord | WriteSeal | RemoveOld(d: Id) | LastTest(d: Id)

  type Weather = Call -> Fault

  datatype Header = Header(keyfile: bool, slots: Slots)

  /** What one enumeration of the block devices found. */
  datatype Scan = Scan(ours: seq<Id>, unknown: seq<string>, absent: seq<nat>)

  datatype Outcome = Refused | Stopped | Finished

  // The disk's slots once the new passphrase is on it, and once the old one has been retired too.
  function With(s: Slots, next: Passphrase): Slots {
    if next in s then s else s + multiset{next}
  }

  function Retired(s: Slots, next: Passphrase, current: Option<Passphrase>, removed: bool): Slots {
    match current
    case None => With(s, next)
    case Some(c) => if removed then With(s, next) - multiset{c} else With(s, next)
  }

  predicate Refuses(record: Option<Passphrase>, next: Passphrase, current: Option<Passphrase>, scan: Scan) {
    || |next| < MIN_LENGTH
    || current == Some(next)
    || (record.Some? && current != record)
    || scan.unknown != []
    || scan.absent != []
  }

  /** Twelve characters, the current passphrase if one is recorded, and every disk in the rack and known are enough, and needed. */
  lemma AcceptedIff(record: Option<Passphrase>, next: Passphrase, current: Option<Passphrase>, scan: Scan)
    ensures !Refuses(record, next, current, scan) <==>
              && |next| >= 12 && current != Some(next) && (record.None? || current == record)
              && scan.unknown == [] && scan.absent == []
  {
  }

  /** The recorded passphrase opens every one of these disks. */
  ghost predicate RecordOpens(headers: map<Id, Header>, record: Option<Passphrase>, ours: seq<Id>) {
    record.Some? && forall d :: d in ours && d in headers ==> record.value in headers[d].slots
  }

  /** A disk part-way: as it was, or with the new passphrase added; twice only if it could not say it had it. */
  ghost predicate PartWay(was: Header, now: Header, next: Passphrase, answered: bool) {
    || now == was
    || (now == was.(slots := was.slots + multiset{next}) && (next in was.slots ==> !answered))
  }

  ghost predicate Answered(weather: Weather, d: Id) {
    weather(FirstTest(d)).Fine?
  }

  /** All disks part-way, those not in `ours` untouched. */
  ghost predicate AllPartWay(was: map<Id, Header>, now: map<Id, Header>, ours: seq<Id>, next: Passphrase, weather: Weather) {
    && now.Keys == was.Keys
    && (forall d :: d in was && d !in ours ==> now[d] == was[d])
    && (forall d {:trigger PartWayAt(was, now, next, weather, d)} :: d in was ==> PartWayAt(was, now, next, weather, d))
  }

  ghost predicate PartWayAt(was: map<Id, Header>, now: map<Id, Header>, next: Passphrase, weather: Weather, d: Id)
    requires d in was && d in now
  {
    PartWay(was[d], now[d], next, Answered(weather, d))
  }

  /** With the old passphrase retired once, or not yet. */
  ghost predicate Retiring(was: Header, now: Header, current: Passphrase) {
    now == was || now == was.(slots := was.slots - multiset{current})
  }

  ghost predicate AllRetiring(was: map<Id, Header>, now: map<Id, Header>, ours: seq<Id>, current: Passphrase) {
    && now.Keys == was.Keys
    && (forall d :: d in was && d !in ours ==> now[d] == was[d])
    && (forall d {:trigger RetiringAt(was, now, current, d)} :: d in was ==> RetiringAt(was, now, current, d))
  }

  ghost predicate RetiringAt(was: map<Id, Header>, now: map<Id, Header>, current: Passphrase, d: Id)
    requires d in was && d in now
  {
    Retiring(was[d], now[d], current)
  }

  /** Each disk has lost one slot of the old passphrase exactly if its own removal landed. */
  ghost predicate AllRetired(was: map<Id, Header>, now: map<Id, Header>, ours: seq<Id>, current: Passphrase, weather: Weather) {
    forall d {:trigger RetiredAt(was, now, current, weather, d)} :: d in ours && d in was && d in now ==> RetiredAt(was, now, current, weather, d)
  }

  ghost predicate RetiredAt(was: map<Id, Header>, now: map<Id, Header>, current: Passphrase, weather: Weather, d: Id)
    requires d in was && d in now
  {
    now[d] == if Lands(weather(RemoveOld(d))) then was[d].(slots := was[d].slots - multiset{current}) else was[d]
  }

  /** The keyfile's slot is untouched, and a disk that had a passphrase has one. */
  ghost predicate StillOpenable(was: Header, now: Header) {
    now.keyfile == was.keyfile && (|was.slots| > 0 ==> |now.slots| > 0)
  }

  ghost predicate AllOpenable(was: map<Id, Header>, now: map<Id, Header>) {
    forall d :: d in was ==> d in now && StillOpenable(was[d], now[d])
  }

  lemma OpenableThroughout(was: map<Id, Header>, mid: map<Id, Header>, now: map<Id, Header>)
    requires AllOpenable(was, mid) && AllOpenable(mid, now)
    ensures AllOpenable(was, now)
  {
  }

  lemma PartWayIsOpenable(was: map<Id, Header>, now: map<Id, Header>, ours: seq<Id>, next: Passphrase, weather: Weather)
    requires AllPartWay(was, now, ours, next, weather)
    ensures AllOpenable(was, now)
  {
    forall d | d in was
      ensures StillOpenable(was[d], now[d])
    {
      assert PartWayAt(was, now, next, weather, d);
    }
  }

  lemma RetiringIsOpenable(was: map<Id, Header>, now: map<Id, Header>, ours: seq<Id>, next: Passphrase, current: Passphrase)
    requires AllRetiring(was, now, ours, current) && OnAll(was, ours, next) && next != current
    ensures AllOpenable(was, now)
  {
    forall d | d in was
      ensures StillOpenable(was[d], now[d])
    {
      assert RetiringAt(was, now, current, d);
      if d in ours {
        assert now[d].slots[next] > 0;
      }
    }
  }

  ghost predicate OnAll(headers: map<Id, Header>, ours: seq<Id>, p: Passphrase) {
    forall d :: d in ours ==> d in headers && p in headers[d].slots
  }

  /**
    Where a rotation ends that got as far as its last pass: every scanned disk with its old slots, plus
    the new passphrase if it lacked it, less one of the old exactly if its own removal landed.
   */
  ghost function EndState(headers: map<Id, Header>, ours: seq<Id>, next: Passphrase, current: Option<Passphrase>, weather: Weather): map<Id, Header> {
    map d | d in headers ::
      if d in ours then headers[d].(slots := Retired(headers[d].slots, next, current, Lands(weather(RemoveOld(d))))) else headers[d]
  }

  ghost function Added(headers: map<Id, Header>, ours: seq<Id>, next: Passphrase): map<Id, Header> {
    map d | d in headers ::
      if d in ours then headers[d].(slots := With(headers[d].slots, next)) else headers[d]
  }

  /** Everything up to the removals goes well. */
  ghost predicate AddsGoWell(weather: Weather) {
    forall c: Call :: c.RemoveOld? || c.LastTest? || weather(c) == Fine
  }

  /** No removal ends the rotation, and every disk proves afterwards that it opens. */
  ghost predicate RemovalsGoOn(weather: Weather) {
    forall d :: !weather(RemoveOld(d)).Dies? && weather(LastTest(d)).Fine?
  }

  /** The next disk has had its turn at the new passphrase. */
  lemma NextAdded(was: map<Id, Header>, now: map<Id, Header>, now': map<Id, Header>, done: seq<Id>, d: Id,
                  next: Passphrase, weather: Weather)
    requires AllPartWay(was, now, done, next, weather) && d !in done && d in was
    requires now'.Keys == now.Keys && forall x :: x in now && x != d ==> now'[x] == now[x]
    requires PartWay(now[d], now'[d], next, Answered(weather, d))
    ensures AllPartWay(was, now', done + [d], next, weather)
    ensures OnAll(now, done, next) && next in now'[d].slots ==> OnAll(now', done + [d], next)
  {
    forall x | x in was
      ensures PartWayAt(was, now', next, weather, x)
    {
      assert PartWayAt(was, now, next, weather, x);
    }
  }

  lemma NextRetiring(was: map<Id, Header>, now: map<Id, Header>, now': map<Id, Header>, done: seq<Id>, d: Id, current: Passphrase)
    requires AllRetiring(was, now, done, current) && d !in done && d in was
    requires now'.Keys == now.Keys && forall x :: x in now && x != d ==> now'[x] == now[x]
    requires Retiring(now[d], now'[d], current)
    ensures AllRetiring(was, now', done + [d], current)
  {
    forall x | x in was
      ensures RetiringAt(was, now', current, x)
    {
      assert RetiringAt(was, now, current, x);
    }
  }

  lemma NextRetired(was: map<Id, Header>, now: map<Id, Header>, now': map<Id, Header>, done: seq<Id>, d: Id, current: Passphrase, weather: Weather)
    requires AllRetiring(was, now, done, current) && d !in done && d in was
    requires now'.Keys == now.Keys && forall x :: x in now && x != d ==> now'[x] == now[x]
    requires AllRetired(was, now, done, current, weather) && now[d] == was[d] && RetiredAt(now, now', current, weather, d)
    ensures AllRetired(was, now', done + [d], current, weather)
  {
    forall x | x in done && x in was
      ensures RetiredAt(was, now', current, weather, x)
    {
      assert RetiredAt(was, now, current, weather, x);
    }
  }

  /** When every disk answered, none has the new passphrase more often than it needs to. */
  lemma AnsweredAddsOnce(was: map<Id, Header>, now: map<Id, Header>, ours: seq<Id>, next: Passphrase, weather: Weather)
    requires AllPartWay(was, now, ours, next, weather) && OnAll(now, ours, next)
    requires forall d :: d in ours ==> Answered(weather, d)
    ensures now == Added(was, ours, next)
  {
    forall d | d in was
      ensures now[d] == Added(was, ours, next)[d]
    {
      assert PartWayAt(was, now, next, weather, d);
      assert d in ours ==> Answered(weather, d) && next in now[d].slots;
    }
  }

  lemma RetiringKeepsNext(was: map<Id, Header>, now: map<Id, Header>, ours: seq<Id>, next: Passphrase, current: Passphrase)
    requires AllRetiring(was, now, ours, current) && OnAll(was, ours, next) && next != current
    ensures OnAll(now, ours, next)
  {
    forall d | d in ours
      ensures next in now[d].slots
    {
      assert RetiringAt(was, now, current, d);
    }
  }

  lemma PartWayKeepsSlots(was: map<Id, Header>, now: map<Id, Header>, ours: seq<Id>, next: Passphrase, weather: Weather, p: Passphrase)
    requires AllPartWay(was, now, ours, next, weather)
    ensures forall d :: d in was && p in was[d].slots ==> d in now && p in now[d].slots
  {
    forall d | d in was && p in was[d].slots
      ensures d in now && p in now[d].slots
    {
      assert PartWayAt(was, now, next, weather, d);
    }
  }

  lemma AddingKeepsOpen(was: map<Id, Header>, now: map<Id, Header>, ours: seq<Id>, next: Passphrase, weather: Weather, record: Option<Passphrase>)
    requires AllPartWay(was, now, ours, next, weather) && RecordOpens(was, record, ours)
    ensures RecordOpens(now, record, ours)
  {
    forall d | d in ours && d in now
      ensures record.value in now[d].slots
    {
      assert PartWayAt(was, now, next, weather, d);
    }
  }

  /** Adding everywhere and then retiring wherever it takes is where such a rotation ends. */
  lemma AddedThenRetired(was: map<Id, Header>, now: map<Id, Header>, ours: seq<Id>, next: Passphrase, current: Option<Passphrase>, weather: Weather)
    requires if current.Some?
             then AllRetired(Added(was, ours, next), now, ours, current.value, weather) && AllRetiring(Added(was, ours, next), now, ours, current.value)
             else now == Added(was, ours, next)
    ensures now == EndState(was, ours, next, current, weather)
  {
    if current.Some? {
      forall d | d in was
        ensures now[d] == EndState(was, ours, next, current, weather)[d]
      {
        assert d in ours ==> RetiredAt(Added(was, ours, next), now, current.value, weather, d);
      }
    }
  }

  lemma AddedAndRetired(was: map<Id, Header>, mid: map<Id, Header>, now: map<Id, Header>, ours: seq<Id>, next: Passphrase,
                        current: Option<Passphrase>, weather: Weather)
    requires AddsGoWell(weather) && AllPartWay(was, mid, ours, next, weather) && OnAll(mid, ours, next)
    requires if current.Some? then AllRetired(mid, now, ours, current.value, weather) && AllRetiring(mid, now, ours, current.value) else now == mid
    ensures now == EndState(was, ours, next, current, weather)
  {
    AnsweredAddsOnce(was, mid, ours, next, weather);
    AddedThenRetired(was, now, ours, next, current, weather);
  }

  /**
    A rotation cut before its record was written can be run again, with the same arguments and the
    same disks: it ends where the first would have, if every disk answered the first question.
   */
  lemma RerunReachesTheSameEnd(was: map<Id, Header>, cut: map<Id, Header>, ours: seq<Id>, next: Passphrase,
                               current: Option<Passphrase>, weather: Weather, again: Weather)
    requires AllPartWay(was, cut, ours, next, weather) && forall d :: d in ours ==> Answered(weather, d)
    ensures EndState(cut, ours, next, current, again) == EndState(was, ours, next, current, again)
  {
    var rerun, once := EndState(cut, ours, next, current, again), EndState(was, ours, next, current, again);
    assert rerun.Keys == once.Keys;
    forall d | d in was
      ensures rerun[d] == once[d]
    {
      assert PartWayAt(was, cut, next, weather, d);
      if d in ours {
        HeaderReachesTheSameEnd(was[d], cut[d], next, current, Lands(again(RemoveOld(d))));
      }
    }
  }

  lemma HeaderReachesTheSameEnd(was: Header, cut: Header, next: Passphrase, current: Option<Passphrase>, removed: bool)
    requires PartWay(was, cut, next, true)
    ensures cut.(slots := Retired(cut.slots, next, current, removed)) == was.(slots := Retired(was.slots, next, current, removed))
  {
    assert With(cut.slots, next) == With(was.slots, next);
  }

  /** A disk takes the new passphrase a second time exactly when it had it, could not be read, and the write landed. */
  lemma DuplicateIff(was: Header, next: Passphrase, first: Fault, add: Fault)
    ensures AfterAdding(was, next, first, add).slots[next] > With(was.slots, next)[next]
       <==> (next in was.slots && !first.Fine? && !first.Dies? && Lands(add))
  {
  }

  // ---------------------------------------------------------------------------------------------
  // What a rotation does, call by call.

  /** The disk proves that it took the new passphrase: it has it and says so, or it is written and then opens. */
  predicate Takes(was: Header, next: Passphrase, first: Fault, add: Fault, second: Fault) {
    || (first.Fine? && next in was.slots)
    || (&& !first.Dies? && (add.Fine? || add.Lies?) && second.Fine?
        && (next in was.slots || add.Fine?))
  }

  /** Each of the first `i` disks took it. */
  ghost predicate AllTook(was: map<Id, Header>, ours: seq<Id>, i: nat, next: Passphrase, weather: Weather)
    requires i <= |ours|
  {
    forall j {:trigger TookAt(was, ours, j, next, weather)} :: 0 <= j < i ==> TookAt(was, ours, j, next, weather)
  }

  ghost predicate TookAt(was: map<Id, Header>, ours: seq<Id>, j: nat, next: Passphrase, weather: Weather)
    requires j < |ours|
  {
    ours[j] in was && Takes(was[ours[j]], next, weather(FirstTest(ours[j])), weather(Add(ours[j])), weather(SecondTest(ours[j])))
  }

  /** Each of the first `i` disks let the last pass go on. */
  ghost predicate AllWentOn(ours: seq<Id>, i: nat, weather: Weather)
    requires i <= |ours|
  {
    forall j {:trigger WentOnAt(ours, j, weather)} :: 0 <= j < i ==> WentOnAt(ours, j, weather)
  }

  ghost predicate WentOnAt(ours: seq<Id>, j: nat, weather: Weather)
    requires j < |ours|
  {
    !weather(RemoveOld(ours[j])).Dies? && weather(LastTest(ours[j])).Fine?
  }

  /** The first pass writes every disk up to the first that does not take it, and no further. */
  ghost predicate FirstPass(was: map<Id, Header>, now: map<Id, Header>, ours: seq<Id>, next: Passphrase, weather: Weather) {
    && now.Keys == was.Keys
    && (forall d :: d in was && d !in ours ==> now[d] == was[d])
    && (forall i {:trigger AddedAt(was, now, ours, i, next, weather)} :: 0 <= i < |ours| ==> AddedAt(was, now, ours, i, next, weather))
  }

  ghost predicate AddedAt(was: map<Id, Header>, now: map<Id, Header>, ours: seq<Id>, i: nat, next: Passphrase, weather: Weather)
    requires i < |ours|
  {
    var d := ours[i];
    && d in was && d in now
    && now[d] == if AllTook(was, ours, i, next, weather) then AfterAdding(was[d], next, weather(FirstTest(d)), weather(Add(d))) else was[d]
  }

  /** The last pass retires the old passphrase from every disk up to the first that will not go on, where it takes. */
  ghost predicate LastPass(was: map<Id, Header>, now: map<Id, Header>, ours: seq<Id>, current: Passphrase, weather: Weather) {
    && now.Keys == was.Keys
    && (forall d :: d in was && d !in ours ==> now[d] == was[d])
    && (forall i {:trigger RemovedAt(was, now, ours, i, current, weather)} :: 0 <= i < |ours| ==> RemovedAt(was, now, ours, i, current, weather))
  }

  ghost predicate RemovedAt(was: map<Id, Header>, now: map<Id, Header>, ours: seq<Id>, i: nat, current: Passphrase, weather: Weather)
    requires i < |ours|
  {
    var d := ours[i];
    && d in was && d in now
    && now[d] == if AllWentOn(ours, i, weather) && Lands(weather(RemoveOld(d))) then was[d].(slots := was[d].slots - multiset{current}) else was[d]
  }

  /**
    A whole rotation that was accepted: the first pass; the record, if every disk took the new
    passphrase; the seal, if the record was written; the last pass, if the seal did not end it and an
    old passphrase was given.
   */
  ghost predicate Rotated(was: map<Id, Header>, mid: map<Id, Header>, now: map<Id, Header>, record: Option<Passphrase>, record': Option<Passphrase>,
                          seal: Option<Passphrase>, seal': Option<Passphrase>, next: Passphrase, current: Option<Passphrase>,
                          ours: seq<Id>, weather: Weather, finished: bool) {
    var took := AllTook(was, ours, |ours|, next, weather);
    var sealing := took && weather(WriteRecord).Fine?;
    var retiring := sealing && !weather(WriteSeal).Dies?;
    && FirstPass(was, mid, ours, next, weather)
    && record' == (if took && Lands(weather(WriteRecord)) then Some(next) else record)
    && seal' == (if sealing && Lands(weather(WriteSeal)) then Some(next) else seal)
    && (if retiring && current.Some? then LastPass(mid, now, ours, current.value, weather) else now == mid)
    && (finished <==> retiring && (current.Some? ==> AllWentOn(ours, |ours|, weather)))
  }

  lemma WellTaken(was: map<Id, Header>, ours: seq<Id>, next: Passphrase, weather: Weather)
    requires AddsGoWell(weather) && forall d :: d in ours ==> d in was
    ensures AllTook(was, ours, |ours|, next, weather)
    ensures RemovalsGoOn(weather) ==> AllWentOn(ours, |ours|, weather)
  {
    forall j | 0 <= j < |ours|
      ensures TookAt(was, ours, j, next, weather)
      ensures RemovalsGoOn(weather) ==> WentOnAt(ours, j, weather)
    {
    }
  }

  /** The first `n` disks are as their turn in the first pass left them. */
  ghost predicate AllWritten(was: map<Id, Header>, now: map<Id, Header>, ours: seq<Id>, n: nat, next: Passphrase, weather: Weather)
    requires n <= |ours|
  {
    forall j {:trigger WrittenAt(was, now, ours, j, next, weather)} :: 0 <= j < n ==> WrittenAt(was, now, ours, j, next, weather)
  }

  ghost predicate WrittenAt(was: map<Id, Header>, now: map<Id, Header>, ours: seq<Id>, j: nat, next: Passphrase, weather: Weather)
    requires j < |ours|
  {
    var d := ours[j];
    d in was && d in now && now[d] == AfterAdding(was[d], next, weather(FirstTest(d)), weather(Add(d)))
  }

  lemma OneMoreWritten(was: map<Id, Header>, now: map<Id, Header>, now': map<Id, Header>, ours: seq<Id>, n: nat, next: Passphrase, weather: Weather)
    requires n < |ours| && Distinct(ours) && AllWritten(was, now, ours, n, next, weather)
    requires now'.Keys == now.Keys && forall x :: x in now && x != ours[n] ==> now'[x] == now[x]
    requires WrittenAt(was, now', ours, n, next, weather)
    ensures AllWritten(was, now', ours, n + 1, next, weather)
  {
    forall j | 0 <= j <= n
      ensures WrittenAt(was, now', ours, j, next, weather)
    {
      assert j < n ==> WrittenAt(was, now, ours, j, next, weather);
    }
  }

  /** The first pass, stopped after disk `i` or run to its end. */
  lemma FirstPassEnds(was: map<Id, Header>, now: map<Id, Header>, ours: seq<Id>, n: nat, next: Passphrase, weather: Weather)
    requires n <= |ours| && Distinct(ours) && now.Keys == was.Keys && forall d :: d in ours ==> d in was
    requires forall d :: d in was && d !in ours[..n] ==> now[d] == was[d]
    requires AllWritten(was, now, ours, n, next, weather)
    requires AllTook(was, ours, n, next, weather)
             || (n > 0 && AllTook(was, ours, n - 1, next, weather) && !TookAt(was, ours, n - 1, next, weather))
    requires n == |ours| || !AllTook(was, ours, n, next, weather)
    ensures FirstPass(was, now, ours, next, weather)
    ensures AllTook(was, ours, |ours|, next, weather) <==> AllTook(was, ours, n, next, weather)
  {
    forall i | 0 <= i < |ours|
      ensures AddedAt(was, now, ours, i, next, weather)
    {
      if i < n {
        assert WrittenAt(was, now, ours, i, next, weather);
        assert AllTook(was, ours, i, next, weather) by {
          forall j | 0 <= j < i
            ensures TookAt(was, ours, j, next, weather)
          {
          }
        }
      } else {
        assert !AllTook(was, ours, i, next, weather) by {
          assert !TookAt(was, ours, n - 1, next, weather);
        }
        assert ours[i] !in ours[..n];
      }
    }
  }

  /** Stopped by disk `i`. */
  lemma FirstPassStops(was: map<Id, Header>, now: map<Id, Header>, ours: seq<Id>, i: nat, done: seq<Id>, next: Passphrase, weather: Weather)
    requires i < |ours| && Distinct(ours) && done == ours[..i + 1] && forall d :: d in ours ==> d in was
    requires AllPartWay(was, now, done, next, weather) && AllWritten(was, now, ours, i + 1, next, weather)
    requires AllTook(was, ours, i, next, weather) && !TookAt(was, ours, i, next, weather)
    ensures FirstPass(was, now, ours, next, weather) && !AllTook(was, ours, |ours|, next, weather)
  {
    FirstPassEnds(was, now, ours, i + 1, next, weather);
  }

  lemma LastPassStops(was: map<Id, Header>, now: map<Id, Header>, ours: seq<Id>, i: nat, done: seq<Id>, current: Passphrase, weather: Weather)
    requires i < |ours| && Distinct(ours) && done == ours[..i + 1] && forall d :: d in ours ==> d in was
    requires AllRetiring(was, now, done, current) && AllRetired(was, now, done, current, weather)
    requires AllWentOn(ours, i, weather) && !WentOnAt(ours, i, weather)
    ensures LastPass(was, now, ours, current, weather) && !AllWentOn(ours, |ours|, weather)
  {
    LastPassEnds(was, now, ours, i + 1, current, weather);
  }

  lemma LastPassEnds(was: map<Id, Header>, now: map<Id, Header>, ours: seq<Id>, n: nat, current: Passphrase, weather: Weather)
    requires n <= |ours| && Distinct(ours) && now.Keys == was.Keys && forall d :: d in ours ==> d in was
    requires forall d :: d in was && d !in ours[..n] ==> now[d] == was[d]
    requires AllRetired(was, now, ours[..n], current, weather)
    requires AllWentOn(ours, n, weather) || (n > 0 && AllWentOn(ours, n - 1, weather) && !WentOnAt(ours, n - 1, weather))
    requires n == |ours| || !AllWentOn(ours, n, weather)
    ensures LastPass(was, now, ours, current, weather)
    ensures AllWentOn(ours, |ours|, weather) <==> AllWentOn(ours, n, weather)
  {
    forall i | 0 <= i < |ours|
      ensures RemovedAt(was, now, ours, i, current, weather)
    {
      if i < n {
        assert AllWentOn(ours, i, weather) by {
          forall j | 0 <= j < i
            ensures WentOnAt(ours, j, weather)
          {
          }
        }
        assert ours[i] in ours[..n] && RetiredAt(was, now, current, weather, ours[i]);
      } else {
        assert !AllWentOn(ours, i, weather) by {
          assert !WentOnAt(ours, n - 1, weather);
        }
        assert ours[i] !in ours[..n];
      }
    }
  }

  lemma FirstPassIsPartWay(was: map<Id, Header>, mid: map<Id, Header>, ours: seq<Id>, next: Passphrase, weather: Weather)
    requires FirstPass(was, mid, ours, next, weather)
    ensures AllPartWay(was, mid, ours, next, weather)
    ensures AllTook(was, ours, |ours|, next, weather) ==> OnAll(mid, ours, next)
  {
    forall d | d in was
      ensures PartWayAt(was, mid, next, weather, d)
    {
      if d in ours {
        var i :| 0 <= i < |ours| && ours[i] == d;
        assert AddedAt(was, mid, ours, i, next, weather);
      }
    }
    if AllTook(was, ours, |ours|, next, weather) {
      forall d | d in ours
        ensures d in mid && next in mid[d].slots
      {
        var i :| 0 <= i < |ours| && ours[i] == d;
        TookIsOn(was, mid, ours, i, next, weather);
      }
    }
  }

  lemma TookIsOn(was: map<Id, Header>, mid: map<Id, Header>, ours: seq<Id>, i: nat, next: Passphrase, weather: Weather)
    requires FirstPass(was, mid, ours, next, weather) && i < |ours| && AllTook(was, ours, |ours|, next, weather)
    ensures ours[i] in mid && next in mid[ours[i]].slots
  {
    assert AddedAt(was, mid, ours, i, next, weather) && TookAt(was, ours, i, next, weather);
    assert AllTook(was, ours, i, next, weather) by {
      forall j | 0 <= j < i
        ensures TookAt(was, ours, j, next, weather)
      {
      }
    }
  }

  lemma LastPassIsRetiring(mid: map<Id, Header>, now: map<Id, Header>, ours: seq<Id>, current: Passphrase, weather: Weather)
    requires LastPass(mid, now, ours, current, weather)
    ensures AllRetiring(mid, now, ours, current)
    ensures AllWentOn(ours, |ours|, weather) ==> AllRetired(mid, now, ours, current, weather)
    ensures (forall d :: d in ours ==> !Lands(weather(RemoveOld(d)))) ==> now == mid
  {
    forall d | d in mid
      ensures RetiringAt(mid, now, current, d)
      ensures !Lands(weather(RemoveOld(d))) || d !in ours ==> now[d] == mid[d]
      ensures AllWentOn(ours, |ours|, weather) && d in ours ==> RetiredAt(mid, now, current, weather, d)
    {
      if d in ours {
        var i :| 0 <= i < |ours| && ours[i] == d;
        assert RemovedAt(mid, now, ours, i, current, weather);
        if AllWentOn(ours, |ours|, weather) {
          assert AllWentOn(ours, i, weather) by {
            forall j | 0 <= j < i
              ensures WentOnAt(ours, j, weather)
            {
            }
          }
        }
      }
    }
  }

  /** However a rotation is cut, the disks stay open to what was recorded, and to something. */
  lemma RotatedKeepsOpen(was: map<Id, Header>, mid: map<Id, Header>, now: map<Id, Header>, record: Option<Passphrase>, record': Option<Passphrase>,
                         seal: Option<Passphrase>, seal': Option<Passphrase>, next: Passphrase, current: Option<Passphrase>,
                         ours: seq<Id>, weather: Weather, finished: bool)
    requires Rotated(was, mid, now, record, record', seal, seal', next, current, ours, weather, finished) && current != Some(next)
    ensures record' == record || (record' == Some(next) && OnAll(now, ours, next))
    ensures finished ==> record' == Some(next) && OnAll(now, ours, next)
    ensures seal' == seal || (seal' == Some(next) && record' == Some(next))
    ensures record' != Some(next) ==> AllPartWay(was, now, ours, next, weather) && seal' == seal
    ensures RecordOpens(was, record, ours) ==> RecordOpens(now, record', ours)
    ensures AllOpenable(was, now)
  {
    FirstPassIsPartWay(was, mid, ours, next, weather);
    PartWayIsOpenable(was, mid, ours, next, weather);
    if RecordOpens(was, record, ours) {
      AddingKeepsOpen(was, mid, ours, next, weather, record);
    }
    if AllTook(was, ours, |ours|, next, weather) && weather(WriteRecord).Fine? && !weather(WriteSeal).Dies? && current.Some? {
      LastPassIsRetiring(mid, now, ours, current.value, weather);
      RetiringKeepsNext(mid, now, ours, next, current.value);
      RetiringIsOpenable(mid, now, ours, next, current.value);
      OpenableThroughout(was, mid, now);
    }
  }

  /** Where it ends when everything but the removals went well, and where when no removal took. */
  lemma RotatedEnds(was: map<Id, Header>, mid: map<Id, Header>, now: map<Id, Header>, record: Option<Passphrase>, record': Option<Passphrase>,
                    seal: Option<Passphrase>, seal': Option<Passphrase>, next: Passphrase, current: Option<Passphrase>,
                    ours: seq<Id>, weather: Weather, finished: bool)
    requires Rotated(was, mid, now, record, record', seal, seal', next, current, ours, weather, finished)
    requires current != Some(next) && forall d :: d in ours ==> d in was
    ensures AddsGoWell(weather) ==> record' == Some(next) && Protocol.Unsealed(record', seal') == Some(next)
    ensures AddsGoWell(weather) && RemovalsGoOn(weather) ==> finished
    ensures AddsGoWell(weather) && finished ==> now == EndState(was, ours, next, current, weather)
    ensures (forall d :: d in ours ==> !Lands(weather(RemoveOld(d)))) ==> AllPartWay(was, now, ours, next, weather)
  {
    FirstPassIsPartWay(was, mid, ours, next, weather);
    if AddsGoWell(weather) {
      WellTaken(was, ours, next, weather);
    }
    if now != mid || (finished && current.Some?) {
      LastPassIsRetiring(mid, now, ours, current.value, weather);
    }
    if AddsGoWell(weather) && finished {
      AddedAndRetired(was, mid, now, ours, next, current, weather);
    }
  }

  /** One disk after its turn in the first pass. */
  function AfterAdding(was: Header, next: Passphrase, first: Fault, add: Fault): Header {
    if (first.Fine? && next in was.slots) || first.Dies? || !Lands(add) then was
    else was.(slots := was.slots + multiset{next})
  }

  /**
    After a rotation that was accepted, whatever it came to, the same call is refused exactly when it
    got as far as its record.
   */
  lemma RerunIsRefusedIff(record: Option<Passphrase>, now: Option<Passphrase>, next: Passphrase, current: Option<Passphrase>, scan: Scan)
    requires !Refuses(record, next, current, scan) && (now == record || now == Some(next))
    ensures Refuses(now, next, current, scan) <==> now == Some(next)
  {
  }

  /** The transition system's disks are the same disks: their slots and keyfiles agree. */
  ghost predicate Mirrors(headers: map<Id, Header>, a: Protocol.Array) {
    forall d :: d in headers ==> d in a.disks && a.disks[d].slots == headers[d].slots && a.disks[d].keyfile == headers[d].keyfile
  }

  ghost predicate Matches(headers: map<Id, Header>, record: Option<Passphrase>, seal: Option<Passphrase>, a: Protocol.Array) {
    Mirrors(headers, a) && a.record == record && a.seal == seal
  }

  ghost predicate AtWork(a: Protocol.Array, next: Passphrase, current: Option<Passphrase>, ours: seq<Id>, added: seq<Id>, stage: Protocol.Stage) {
    a.rotation == Protocol.Running(next, current, (set d | d in ours), (set d | d in added), stage)
  }

  lemma OneMoreAdded(a: Protocol.Array, b: Protocol.Array, next: Passphrase, current: Option<Passphrase>, ours: seq<Id>, done: seq<Id>, d: Id)
    requires AtWork(a, next, current, ours, done, Protocol.Adding)
    requires b.rotation == a.rotation.(added := a.rotation.added + {d})
    ensures AtWork(b, next, current, ours, done + [d], Protocol.Adding)
  {
    assert (set x | x in done + [d]) == (set x | x in done) + {d};
  }

  /** The scan saw what the transition system's scan would. */
  ghost predicate TrueScan(scan: Scan, a: Protocol.Array) {
    scan.unknown == [] && scan.absent == [] ==> Protocol.NothingUnaskable(a) && (set d | d in scan.ours) == Protocol.Ours(a)
  }

  class Fleet {
    var headers: map<Id, Header>
    var record: Option<Passphrase>
    var seal: Option<Passphrase>

    // The run of the transition system that every step so far belongs to.
    ghost var run: Protocol.Run

    ghost predicate Valid()
      reads this
    {
      Protocol.Possible(run) && Matches(headers, record, seal, run.state)
    }

    constructor (headers: map<Id, Header>, record: Option<Passphrase>, seal: Option<Passphrase>, ghost mirror: Protocol.Array)
      requires Matches(headers, record, seal, mirror)
      ensures Valid() && this.headers == headers && this.record == record && this.seal == seal
      ensures run == Protocol.Start(mirror)
    {
      this.headers, this.record, this.seal := headers, record, seal;
      run := Protocol.Start(mirror);
    }

    /** Note the step of the transition system that has just been taken. */
    ghost method Take(e: Protocol.Event)
      requires Protocol.Possible(run) && Protocol.Enabled(run.state, e)
      requires Matches(headers, record, seal, Protocol.After(run.state, e))
      modifies this`run
      ensures Valid() && run == Protocol.Then(old(run), e, Protocol.After(old(run.state), e))
      ensures Protocol.First(run) == old(Protocol.First(run))
    {
      run := Protocol.Then(run, e, Protocol.After(run.state, e));
    }

    /** Ask the disk whether a passphrase opens it. Only a clean answer of yes counts as one. */
    method TestPassphrase(d: Id, p: Passphrase, fault: Fault) returns (opens: bool)
      requires d in headers
      ensures opens <==> fault.Fine? && p in headers[d].slots
    {
      opens := fault.Fine? && p in headers[d].slots;
    }

    /**
      Put the new passphrase on one disk, unless it says it has it already, and prove that it took.
      A disk that could not be read is written to all the same.
     */
    method AddTo(d: Id, next: Passphrase, weather: Weather, ghost current: Option<Passphrase>, ghost ours: seq<Id>, ghost done: seq<Id>)
      returns (ok: bool)
      requires d in headers && Valid()
      requires AtWork(run.state, next, current, ours, done, Protocol.Adding) && d in ours && d !in done
      modifies this`headers, this`run
      ensures Valid() && Protocol.First(run) == old(Protocol.First(run))
      ensures AtWork(run.state, next, current, ours, if ok then done + [d] else done, Protocol.Adding)
      ensures headers.Keys == old(headers).Keys
      ensures forall x :: x in headers && x != d ==> headers[x] == old(headers)[x]
      ensures headers[d] == AfterAdding(old(headers)[d], next, weather(FirstTest(d)), weather(Add(d)))
      ensures PartWay(old(headers)[d], headers[d], next, Answered(weather, d))
      ensures ok ==> next in headers[d].slots
      ensures ok <==> Takes(old(headers)[d], next, weather(FirstTest(d)), weather(Add(d)), weather(SecondTest(d)))
    {
      ok := TestPassphrase(d, next, weather(FirstTest(d)));
      if !ok && weather(FirstTest(d)).Dies? {
        return;
      }
      if !ok {
        WriteSlot(d, next, Lands(weather(Add(d))), current, ours, done);
        if weather(Add(d)).Fails? || weather(Add(d)).Dies? {
          return;
        }
        ok := TestPassphrase(d, next, weather(SecondTest(d)));
      }
      if ok {
        NoteConfirmed(d, next, current, ours, done);
      }
    }

    /** One disk's turn in the first pass. */
    method AddTurn(i: nat, ours: seq<Id>, next: Passphrase, weather: Weather, ghost current: Option<Passphrase>, ghost done: seq<Id>,
                   ghost was: map<Id, Header>)
      returns (ok: bool)
      requires i < |ours| && Distinct(ours) && done == ours[..i] && ours[i] !in done && ours[i] in headers && Valid()
      requires AtWork(run.state, next, current, ours, done, Protocol.Adding)
      requires AllWritten(was, headers, ours, i, next, weather)
      requires AllPartWay(was, headers, done, next, weather) && OnAll(headers, done, next)
      modifies this`headers, this`run
      ensures Valid() && Protocol.First(run) == old(Protocol.First(run)) && run.state.rotation.Running?
      ensures ok ==> AtWork(run.state, next, current, ours, done + [ours[i]], Protocol.Adding)
      ensures AllPartWay(was, headers, done + [ours[i]], next, weather)
      ensures ok ==> OnAll(headers, done + [ours[i]], next)
      ensures AllWritten(was, headers, ours, i + 1, next, weather)
      ensures ok <==> TookAt(was, ours, i, next, weather)
    {
      ghost var before := headers;
      var d := ours[i];
      assert headers[d] == was[d];
      ok := AddTo(d, next, weather, current, ours, done);
      NextAdded(was, before, headers, done, d, next, weather);
      OneMoreWritten(was, before, headers, ours, i, next, weather);
    }

    /** One slot more, if the write lands. */
    method WriteSlot(d: Id, next: Passphrase, lands: bool, ghost current: Option<Passphrase>, ghost ours: seq<Id>, ghost done: seq<Id>)
      requires d in headers && Valid()
      requires AtWork(run.state, next, current, ours, done, Protocol.Adding) && d in ours && d !in done
      modifies this`headers, this`run
      ensures Valid() && Protocol.First(run) == old(Protocol.First(run)) && run.state.rotation == old(run.state.rotation)
      ensures headers == if lands then old(headers)[d := old(headers)[d].(slots := old(headers)[d].slots + multiset{next})] else old(headers)
    {
      if lands {
        headers := headers[d := headers[d].(slots := headers[d].slots + multiset{next})];
        Take(Protocol.AddSlot(d));
      }
    }

    ghost method NoteConfirmed(d: Id, next: Passphrase, current: Option<Passphrase>, ours: seq<Id>, done: seq<Id>)
      requires d in headers && Valid() && next in headers[d].slots
      requires AtWork(run.state, next, current, ours, done, Protocol.Adding) && d in ours
      modifies this`run
      ensures Valid() && Protocol.First(run) == old(Protocol.First(run))
      ensures AtWork(run.state, next, current, ours, done + [d], Protocol.Adding)
    {
      var before := run.state;
      Take(Protocol.Confirm(d));
      OneMoreAdded(before, run.state, next, current, ours, done, d);
    }

    /** The first pass. It stops at the first disk that does not prove it took the new passphrase. */
    method AddEverywhere(ours: seq<Id>, next: Passphrase, weather: Weather, ghost current: Option<Passphrase>) returns (ok: bool)
      requires Distinct(ours) && (forall d :: d in ours ==> d in headers) && Valid()
      requires AtWork(run.state, next, current, ours, [], Protocol.Adding)
      modifies this`headers, this`run
      ensures Valid() && Protocol.First(run) == old(Protocol.First(run))
      ensures run.state.rotation.Running? && (ok ==> AtWork(run.state, next, current, ours, ours, Protocol.Adding))
      ensures ok ==> OnAll(headers, ours, next)
      ensures FirstPass(old(headers), headers, ours, next, weather)
      ensures ok <==> AllTook(old(headers), ours, |ours|, next, weather)
    {
      ghost var was, done: seq<Id> := headers, [];
      var i := 0;
      while i < |ours|
        invariant 0 <= i <= |ours| && done == ours[..i] && Valid() && Protocol.First(run) == old(Protocol.First(run))
        invariant AtWork(run.state, next, current, ours, done, Protocol.Adding)
        invariant AllPartWay(was, headers, done, next, weather)
        invariant OnAll(headers, done, next)
        invariant AllWritten(was, headers, ours, i, next, weather) && AllTook(was, ours, i, next, weather)
      {
        assert ours[i] in ours && ours[i] !in done && ours[..i + 1] == done + [ours[i]];
        ok := AddTurn(i, ours, next, weather, current, done, was);
        done := done + [ours[i]];
        if !ok {
          FirstPassStops(was, headers, ours, i, done, next, weather);
          return;
        }
        i := i + 1;
      }
      assert done == ours;
      FirstPassEnds(was, headers, ours, i, next, weather);
      ok := true;
    }

    /** Retire the old passphrase from one disk. That it would not go is tolerated; that the new one does not open is not. */
    method RetireFrom(d: Id, next: Passphrase, current: Passphrase, weather: Weather, ghost ours: seq<Id>) returns (ok: bool)
      requires next != current && d in headers && next in headers[d].slots && Valid()
      requires AtWork(run.state, next, Some(current), ours, ours, Protocol.Removing) && d in ours
      modifies this`headers, this`run
      ensures Valid() && Protocol.First(run) == old(Protocol.First(run)) && run.state.rotation == old(run.state.rotation)
      ensures headers.Keys == old(headers).Keys
      ensures forall x :: x in headers && x != d ==> headers[x] == old(headers)[x]
      ensures headers[d] == if Lands(weather(RemoveOld(d))) then old(headers)[d].(slots := old(headers)[d].slots - multiset{current})
                            else old(headers)[d]
      ensures ok <==> !weather(RemoveOld(d)).Dies? && weather(LastTest(d)).Fine?
    {
      if Lands(weather(RemoveOld(d))) {
        headers := headers[d := headers[d].(slots := headers[d].slots - multiset{current})];
        Take(Protocol.Remove(d));
      }
      if weather(RemoveOld(d)).Dies? {
        return false;
      }
      ok := TestPassphrase(d, next, weather(LastTest(d)));
    }

    /** One disk's turn in the last pass. */
    method RetireTurn(i: nat, ours: seq<Id>, next: Passphrase, current: Passphrase, weather: Weather, ghost done: seq<Id>,
                      ghost was: map<Id, Header>)
      returns (ok: bool)
      requires next != current && Valid() && OnAll(was, ours, next)
      requires i < |ours| && done == ours[..i] && ours[i] !in done
      requires AtWork(run.state, next, Some(current), ours, ours, Protocol.Removing)
      requires AllRetiring(was, headers, done, current) && AllRetired(was, headers, done, current, weather)
      modifies this`headers, this`run
      ensures Valid() && Protocol.First(run) == old(Protocol.First(run)) && run.state.rotation == old(run.state.rotation)
      ensures AllRetiring(was, headers, done + [ours[i]], current)
      ensures AllRetired(was, headers, done + [ours[i]], current, weather)
      ensures ok <==> WentOnAt(ours, i, weather)
    {
      ghost var before := headers;
      var d := ours[i];
      assert d in ours && d in headers && headers[d] == was[d];
      ok := RetireFrom(d, next, current, weather, ours);
      NextRetiring(was, before, headers, done, d, current);
      NextRetired(was, before, headers, done, d, current, weather);
    }

    /** The last pass. */
    method RetireEverywhere(ours: seq<Id>, next: Passphrase, current: Passphrase, weather: Weather) returns (ok: bool)
      requires Distinct(ours) && OnAll(headers, ours, next) && next != current && Valid()
      requires AtWork(run.state, next, Some(current), ours, ours, Protocol.Removing)
      modifies this`headers, this`run
      ensures Valid() && Protocol.First(run) == old(Protocol.First(run)) && run.state.rotation == old(run.state.rotation)
      ensures LastPass(old(headers), headers, ours, current, weather)
      ensures ok <==> AllWentOn(ours, |ours|, weather)
    {
      ghost var was, done: seq<Id> := headers, [];
      var i := 0;
      while i < |ours|
        invariant 0 <= i <= |ours| && done == ours[..i] && Valid() && Protocol.First(run) == old(Protocol.First(run))
        invariant run.state.rotation == old(run.state.rotation)
        invariant AllRetiring(was, headers, done, current)
        invariant AllRetired(was, headers, done, current, weather)
        invariant AllWentOn(ours, i, weather)
      {
        assert ours[i] in ours && ours[i] !in done && ours[..i + 1] == done + [ours[i]];
        ok := RetireTurn(i, ours, next, current, weather, done, was);
        done := done + [ours[i]];
        if !ok {
          LastPassStops(was, headers, ours, i, done, current, weather);
          return;
        }
        i := i + 1;
      }
      assert done == ours;
      LastPassEnds(was, headers, ours, i, current, weather);
      ok := true;
    }

    /** Make the new passphrase the fleet's: the record, then the seal. */
    method RecordAndSeal(next: Passphrase, weather: Weather, ghost current: Option<Passphrase>, ghost ours: seq<Id>) returns (ok: bool)
      requires Valid() && AtWork(run.state, next, current, ours, ours, Protocol.Adding)
      modifies this`record, this`seal, this`run
      ensures Valid() && Protocol.First(run) == old(Protocol.First(run)) && run.state.rotation.Running?
      ensures record == if Lands(weather(WriteRecord)) then Some(next) else old(record)
      ensures seal == if weather(WriteRecord).Fine? && Lands(weather(WriteSeal)) then Some(next) else old(seal)
      ensures ok <==> weather(WriteRecord).Fine? && !weather(WriteSeal).Dies?
      ensures ok ==> AtWork(run.state, next, current, ours, ours, Protocol.Removing)
    {
      ok := false;
      if Lands(weather(WriteRecord)) {
        record := Some(next);
        Take(Protocol.RecordNext);
      }
      if !weather(WriteRecord).Fine? {
        return;
      }
      if Lands(weather(WriteSeal)) {
        seal := Some(next);
      }
      Take(Protocol.Reseal(Lands(weather(WriteSeal))));
      ok := !weather(WriteSeal).Dies?;
    }

    /**
      The whole rotation. However it is cut: if the record opened every scanned disk, the record
      there is now still does; nothing but slots of those disks changed; before the record is
      written every disk is part-way, after it the new passphrase is on all of them. Every step of it
      is a step of the transition system.
     */
    method Rotate(next: Passphrase, current: Option<Passphrase>, scan: Scan, weather: Weather)
      returns (outcome: Outcome, ghost mid: map<Id, Header>)
      requires Distinct(scan.ours) && (forall d :: d in scan.ours ==> d in headers)
      requires Valid() && run.state.rotation.Idle? && run.state.provisions == map[] && TrueScan(scan, run.state)
      modifies this
      ensures Valid() && run.state.rotation.Idle? && Protocol.First(run) == old(Protocol.First(run))
      ensures outcome.Refused? <==> Refuses(old(record), next, current, scan)
      ensures outcome.Refused? ==> headers == old(headers) && record == old(record) && seal == old(seal)
      ensures record == old(record) || record == Some(next)
      ensures seal == old(seal) || (seal == Some(next) && record == Some(next))
      ensures record == Some(next) && old(record) != Some(next) ==> OnAll(headers, scan.ours, next)
      ensures record != Some(next) ==> AllPartWay(old(headers), headers, scan.ours, next, weather) && seal == old(seal)
      ensures outcome.Finished? ==> record == Some(next) && OnAll(headers, scan.ours, next)
      ensures RecordOpens(old(headers), old(record), scan.ours) ==> RecordOpens(headers, record, scan.ours)
      ensures AllOpenable(old(headers), headers)
      // Call by call: `mid` is how the first pass left the disks.
      ensures !outcome.Refused? ==>
                Rotated(old(headers), mid, headers, old(record), record, old(seal), seal, next, current, scan.ours, weather, outcome.Finished?)
      // A removal that fails is passed over: it costs its own disk the removal, and nothing else.
      ensures AddsGoWell(weather) && RemovalsGoOn(weather) && !outcome.Refused? ==> outcome.Finished?
      ensures AddsGoWell(weather) && outcome.Finished? ==>
                headers == EndState(old(headers), scan.ours, next, current, weather) && Protocol.Unsealed(record, seal) == Some(next)
      ensures (forall d :: d in scan.ours ==> !Lands(weather(RemoveOld(d)))) && !outcome.Refused? ==>
                AllPartWay(old(headers), headers, scan.ours, next, weather)
      ensures AddsGoWell(weather) && !outcome.Refused? ==> record == Some(next)
    {
      if Refuses(record, next, current, scan) {
        return Refused, headers;
      }
      Take(Protocol.Begin(next, current));
      assert AtWork(run.state, next, current, scan.ours, [], Protocol.Adding);
      var finished;
      ghost var was, recorded, sealed := headers, record, seal;
      finished, mid := CarryOut(next, current, scan, weather);
      RotatedKeepsOpen(was, mid, headers, recorded, record, sealed, seal, next, current, scan.ours, weather, finished);
      RotatedEnds(was, mid, headers, recorded, record, sealed, seal, next, current, scan.ours, weather, finished);
      outcome := if finished then Finished else Stopped;
      Take(Protocol.EndRotation);
    }

    /** The rotation once it has been accepted. */
    method CarryOut(next: Passphrase, current: Option<Passphrase>, scan: Scan, weather: Weather)
      returns (finished: bool, ghost mid: map<Id, Header>)
      requires Distinct(scan.ours) && (forall d :: d in scan.ours ==> d in headers) && current != Some(next)
      requires Valid() && AtWork(run.state, next, current, scan.ours, [], Protocol.Adding)
      modifies this
      ensures Valid() && run.state.rotation.Running? && Protocol.First(run) == old(Protocol.First(run))
      ensures Rotated(old(headers), mid, headers, old(record), record, old(seal), seal, next, current, scan.ours, weather, finished)
    {
      finished := Establish(next, scan, weather, current);
      mid := headers;
      if finished {
        finished := Retire(next, current, scan, weather);
      }
    }

    /** Put the new passphrase on every disk, then on record. */
    method Establish(next: Passphrase, scan: Scan, weather: Weather, ghost current: Option<Passphrase>) returns (ok: bool)
      requires Distinct(scan.ours) && (forall d :: d in scan.ours ==> d in headers)
      requires Valid() && AtWork(run.state, next, current, scan.ours, [], Protocol.Adding)
      modifies this
      ensures Valid() && run.state.rotation.Running? && Protocol.First(run) == old(Protocol.First(run))
      ensures ok ==> AtWork(run.state, next, current, scan.ours, scan.ours, Protocol.Removing) && OnAll(headers, scan.ours, next)
      ensures FirstPass(old(headers), headers, scan.ours, next, weather)
      ensures var took := AllTook(old(headers), scan.ours, |scan.ours|, next, weather);
              && record == (if took && Lands(weather(WriteRecord)) then Some(next) else old(record))
              && seal == (if took && weather(WriteRecord).Fine? && Lands(weather(WriteSeal)) then Some(next) else old(seal))
              && (ok <==> took && weather(WriteRecord).Fine? && !weather(WriteSeal).Dies?)
    {
      ok := AddEverywhere(scan.ours, next, weather, current);
      if ok {
        ok := RecordAndSeal(next, weather, current, scan.ours);
      }
    }

    /** Retire the old passphrase, if one was given. */
    method Retire(next: Passphrase, current: Option<Passphrase>, scan: Scan, weather: Weather) returns (ok: bool)
      requires Distinct(scan.ours) && OnAll(headers, scan.ours, next) && current != Some(next) && Valid()
      requires AtWork(run.state, next, current, scan.ours, scan.ours, Protocol.Removing)
      modifies this`headers, this`run
      ensures Valid() && Protocol.First(run) == old(Protocol.First(run)) && run.state.rotation.Running?
      ensures if current.Some? then LastPass(old(headers), headers, scan.ours, current.value, weather) else headers == old(headers)
      ensures ok <==> (current.Some? ==> AllWentOn(scan.ours, |scan.ours|, weather))
    {
      ok := true;
      if current.Some? {
        ok := RetireEverywhere(scan.ours, next, current.value, weather);
      }
    }
  }

  /**
    A rotation gets as far as its record and no removal takes. The old passphrase still opens every
    disk it did, and no call with the same two passphrases is accepted again, whatever it would scan.
   */
  method CutAfterTheRecord(fleet: Fleet, next: Passphrase, current: Passphrase, scan: Scan, weather: Weather) returns (outcome: Outcome)
    requires Distinct(scan.ours) && (forall d :: d in scan.ours ==> d in fleet.headers)
    requires fleet.Valid() && fleet.run.state.rotation.Idle? && fleet.run.state.provisions == map[] && TrueScan(scan, fleet.run.state)
    requires !Refuses(fleet.record, next, Some(current), scan)
    requires AddsGoWell(weather) && forall d :: d in scan.ours ==> !Lands(weather(RemoveOld(d)))
    modifies fleet
    ensures fleet.Valid() && fleet.record == Some(next)
    ensures forall d :: d in old(fleet.headers) && current in old(fleet.headers)[d].slots ==>
              d in fleet.headers && current in fleet.headers[d].slots
    ensures forall again: Scan :: Refuses(fleet.record, next, Some(current), again)
  {
    ghost var was := fleet.headers;
    ghost var mid;
    outcome, mid := fleet.Rotate(next, Some(current), scan, weather);
    assert AllPartWay(was, fleet.headers, scan.ours, next, weather);
    PartWayKeepsSlots(was, fleet.headers, scan.ours, next, weather, current);
  }

  /** Such a rotation: one disk, whose header refuses to give up the old slot. */
  method OldSlotStays() returns (fleet: Fleet)
    ensures fresh(fleet) && fleet.Valid() && fleet.record == Some(Protocol.NEW)
    ensures 0 in fleet.headers && Protocol.OLD in fleet.headers[0].slots
    ensures forall again: Scan :: Refuses(fleet.record, Protocol.NEW, Some(Protocol.OLD), again)
  {
    var healthy := Protocol.Healthy(true, Protocol.Active, Protocol.OLD);
    ghost var mirror := Protocol.Array(map[0 := healthy], Some(Protocol.OLD), None, Protocol.Idle, map[]);
    assert Protocol.Ours(mirror) == {0} && (set d | d in [0]) == {0};
    fleet := new Fleet(map[0 := Header(healthy.keyfile, healthy.slots)], Some(Protocol.OLD), None, mirror);
    var _ := CutAfterTheRecord(fleet, Protocol.NEW, Protocol.OLD, Scan([0], [], []),
                               (c: Call) => if c.RemoveOld? then Fails(false) else Fine);
  }
}
