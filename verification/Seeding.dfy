/**
  Populating a journal replica: copying every segment of a source directory onto a target,
  refusing anything that is not the same history.
 */
module Seeding {
  import opened Lines
  import opened Segments

  // How much of two files is compared at a time.
  const COMPARE_CHUNK: nat := 1048576

  /**
    What can go wrong with one segment. `Before` stops before the target file is opened for
    writing, `Broken` leaves that many bytes of the copy, `Removed` leaves no file (an
    interrupted copy may delete its destination), `Unsynced` leaves the whole copy unproven.
   */
  datatype Fault = NoFault | Before | Broken(kept: nat) | Removed | Unsynced

  /**
    How the file operations of one copy behave, segment by segment, and whether its directory sync
    holds. A segment is `seen` when the target's file could be looked at: a look that fails, for
    whatever reason, is taken to mean that there is no such file.
   */
  datatype Weather = Weather(fault: nat -> Fault, seen: nat -> bool, synced: bool)

  /** Every file operation works; a look may still fail. */
  ghost predicate Calm(weather: Weather) {
    weather.synced && forall s: nat :: weather.fault(s).NoFault?
  }

  /** No copy that broke off takes its target away with it. */
  ghost predicate NoneRemoved(weather: Weather) {
    forall s: nat :: !weather.fault(s).Removed?
  }

  /** Every look succeeds; file operations may still fail. */
  ghost predicate SeesAll(weather: Weather) {
    forall s: nat :: weather.seen(s)
  }

  datatype Status = Copied | EmptySource | Diverged(segment: nat) | Interrupted(segment: nat) | DirectoryUnsynced

  ghost predicate PrefixOrdered(a: Bytes, b: Bytes) {
    a <= b || b <= a
  }

  function Longer(a: Bytes, b: Bytes): Bytes {
    if |b| > |a| then b else a
  }

  /** Two journal directories that could be copies of one history. */
  ghost predicate Compatible(a: Disk, b: Disk) {
    forall s: nat :: PrefixOrdered(At(a, s), At(b, s))
  }

  lemma SlicesOfEqualPrefixes(a: Bytes, b: Bytes, length: nat, i: nat, j: nat)
    requires i <= j <= length && j <= |a| && j <= |b|
    ensures length <= |a| && length <= |b| && a[..length] == b[..length] ==> a[i..j] == b[i..j]
  {
    if length <= |a| && length <= |b| {
      assert a[..length][i..j] == a[i..j];
      assert b[..length][i..j] == b[i..j];
    }
  }

  /** Do two files agree on their first `length` bytes? A file shorter than that disagrees. */
  method AgreeOnPrefix(a: Bytes, b: Bytes, length: nat) returns (agree: bool)
    ensures agree <==> length <= |a| && length <= |b| && a[..length] == b[..length]
  {
    var offset := 0;
    while offset < length
      invariant 0 <= offset <= length
      invariant offset <= |a| && offset <= |b| && a[..offset] == b[..offset]
    {
      var want := if length - offset < COMPARE_CHUNK then length - offset else COMPARE_CHUNK;
      if |a| < offset + want || |b| < offset + want {
        return false;
      }
      if a[offset..offset + want] != b[offset..offset + want] {
        SlicesOfEqualPrefixes(a, b, length, offset, offset + want);
        return false;
      }
      assert a[..offset + want] == a[..offset] + a[offset..offset + want];
      assert b[..offset + want] == b[..offset] + b[offset..offset + want];
      offset := offset + want;
    }
    return true;
  }

  /** The target has this segment, the source has it too, and the look at the target's failed. */
  predicate Blind(source: Disk, target: Disk, seen: nat -> bool, s: nat) {
    s in source && s in target && !seen(s)
  }

  /** One segment brought up to the source's copy: the longer of the two, or the source's if the target's was not seen. */
  ghost predicate SegmentSeeded(source: Disk, target: Disk, result: Disk, seen: nat -> bool, s: nat) {
    && s in result
    && At(source, s) <= At(result, s)
    && At(result, s) == (if Blind(source, target, seen, s) then At(source, s) else Longer(At(target, s), At(source, s)))
    && (At(target, s) <= At(result, s) <==> !Blind(source, target, seen, s) || At(target, s) <= At(source, s))
  }

  ghost predicate SegmentKept(target: Disk, result: Disk, s: nat) {
    && (s in result <==> s in target)
    && At(result, s) == At(target, s)
  }

  ghost predicate Seeded(source: Disk, target: Disk, result: Disk, seen: nat -> bool) {
    && source != map[]
    && (forall s :: s in source ==> SegmentSeeded(source, target, result, seen, s))
    && (forall s :: s !in source ==> SegmentKept(target, result, s))
  }

  /** One segment holds what it did, or a part of a source copy that properly extends what it held or that replaced it unseen. */
  ghost predicate SegmentFrom(source: Disk, target: Disk, result: Disk, seen: nat -> bool, s: nat) {
    && (|| At(result, s) == At(target, s)
        || (At(target, s) < At(source, s) && At(result, s) <= At(source, s))
        || (Blind(source, target, seen, s) && At(result, s) <= At(source, s)))
    && ((s in result) != (s in target) ==> s in source)
  }

  ghost predicate OnlyFromSource(source: Disk, target: Disk, result: Disk, seen: nat -> bool) {
    forall s: nat :: SegmentFrom(source, target, result, seen, s)
  }

  /** Segments below `s` are done, segments above it are untouched. */
  ghost predicate DoneBelow(source: Disk, target: Disk, result: Disk, seen: nat -> bool, s: nat) {
    && (forall t :: t in source && t < s ==> SegmentSeeded(source, target, result, seen, t))
    && (forall t: nat :: t !in source || t > s ==> SegmentKept(target, result, t))
  }

  /** Does a copy that stopped this way still leave the first `n` bytes of the source in the target? */
  predicate Keeps(fault: Fault, n: nat) {
    match fault
    case NoFault => true
    case Before => true
    case Unsynced => true
    case Broken(kept) => kept >= n
    case Removed => n == 0
  }

  /** Is all the target had still there after a copy that went this way? */
  predicate Survives(src: Bytes, dst: Bytes, blind: bool, fault: Fault) {
    if blind then fault.Before? || (dst <= src && Keeps(fault, |dst|))
    else |dst| >= |src| || Keeps(fault, |dst|)
  }

  /** Every non-empty set of segment numbers has a least one. */
  lemma LeastSegment(segments: set<nat>, some: nat)
    requires some in segments
    ensures exists s :: s in segments && forall t :: t in segments ==> s <= t
    decreases some
  {
    if m: nat :| m in segments && m < some {
      LeastSegment(segments, m);
    } else {
      assert forall t :: t in segments ==> some <= t;
    }
  }

  datatype Step = Done | Disagrees | Stopped

  /** Bring one segment file up to the source's. `present` says whether the target has the file, `seen` whether it was noticed. */
  method CopyOne(src: Bytes, present: bool, dst: Bytes, seen: bool, fault: Fault)
    returns (present': bool, dst': Bytes, step: Step)
    requires !present ==> dst == []
    ensures !present' ==> dst' == []
    ensures var blind := present && !seen;
            && (step.Done? ==> present' && dst' == (if blind then src else Longer(dst, src)) && src <= dst')
            && (step.Disagrees? ==> !blind && !PrefixOrdered(src, dst) && present' == present && dst' == dst)
            && (!step.Disagrees? ==> blind || PrefixOrdered(src, dst) || fault.Before?)
            && (!step.Disagrees? ==> (dst <= dst' <==> Survives(src, dst, blind, fault)))
            && (step.Stopped? ==> dst' == dst || (dst' <= src && (blind || dst < src)))
    ensures present && !fault.Removed? ==> present'
    ensures step.Stopped? ==> !fault.NoFault? && ((present' == present && dst' == dst) || !fault.Before?)
  {
    if fault.Before? {
      return present, dst, Stopped;
    }
    if present && seen {
      var shared := if |src| < |dst| then |src| else |dst|;
      var agree := AgreeOnPrefix(src, dst, shared);
      if !agree {
        return present, dst, Disagrees;
      }
      assert src[..shared] == dst[..shared];
      if |dst| >= |src| {
        return present, dst, if fault.NoFault? then Done else Stopped;
      }
    }
    match fault
    case Broken(kept) =>
      return true, src[..if kept < |src| then kept else |src|], Stopped;
    case Removed =>
      return false, [], Stopped;
    case Unsynced =>
      return true, src, Stopped;
    case _ =>
      return true, src, Done;
  }

  /** A copy that breaks off leaves a target that already held two bytes with one. */
  method InterruptedCopyShrinksATarget() returns (before: Bytes, after: Bytes)
    ensures |before| == 2 && !(before <= after)
  {
    before := [123, 125];
    var _, bytes, step := CopyOne([123, 125, NEWLINE], true, before, true, Broken(1));
    after := bytes;
  }

  /** A target that could not be looked at is overwritten with a shorter copy, and the copy reports success. */
  method UnseenTargetIsOverwritten() returns (before: Bytes, after: Bytes, step: Step)
    ensures step.Done? && |before| == 4 && |after| == 2 && after < before
  {
    before := [125, NEWLINE, 125, NEWLINE];
    var _, bytes, outcome := CopyOne([125, NEWLINE], true, before, false, NoFault);
    after, step := bytes, outcome;
  }

  /** And so is one that holds another history. */
  method UnseenTargetNeedNotAgree() returns (before: Bytes, after: Bytes, step: Step)
    ensures step.Done? && !PrefixOrdered(before, after)
  {
    before := [123, NEWLINE];
    var _, bytes, outcome := CopyOne([125, NEWLINE], true, before, false, NoFault);
    after, step := bytes, outcome;
    assert before[0] != after[0];
  }

  /** The segments of the source that are not in `rest` are done, in ascending order; all else is untouched. */
  ghost predicate Progress(source: Disk, target: Disk, result: Disk, seen: nat -> bool, rest: set<nat>) {
    && rest <= source.Keys
    && (forall s, t :: s in source && s !in rest && t in rest ==> s < t)
    && (forall s :: s in source && s !in rest ==> SegmentSeeded(source, target, result, seen, s))
    && (forall s: nat :: s !in source || s in rest ==> SegmentKept(target, result, s))
  }

  function Put(d: Disk, s: nat, present: bool, bytes: Bytes): Disk {
    if present then d[s := bytes] else d - {s}
  }

  lemma PutOne(d: Disk, s: nat, present: bool, bytes: Bytes)
    requires !present ==> bytes == []
    ensures At(Put(d, s, present, bytes), s) == bytes
    ensures s in Put(d, s, present, bytes) <==> present
    ensures forall t: nat :: t != s ==> SegmentKept(d, Put(d, s, present, bytes), t)
  {
  }

  lemma ProgressAdvances(source: Disk, target: Disk, before: Disk, after: Disk, seen: nat -> bool, rest: set<nat>, s: nat)
    requires Progress(source, target, before, seen, rest)
    requires s in rest && forall t :: t in rest ==> s <= t
    requires forall t: nat :: t != s ==> SegmentKept(before, after, t)
    requires SegmentSeeded(source, target, after, seen, s)
    ensures Progress(source, target, after, seen, rest - {s})
  {
    forall t | t in source && t !in rest - {s} && t != s
      ensures SegmentSeeded(source, target, after, seen, t)
    {
      assert SegmentSeeded(source, target, before, seen, t) && SegmentKept(before, after, t);
    }
    forall t: nat | t !in source || t in rest - {s}
      ensures SegmentKept(target, after, t)
    {
      assert SegmentKept(target, before, t) && SegmentKept(before, after, t);
    }
  }

  lemma ProgressStops(source: Disk, target: Disk, before: Disk, after: Disk, seen: nat -> bool, rest: set<nat>, s: nat)
    requires Progress(source, target, before, seen, rest)
    requires s in rest && forall t :: t in rest ==> s <= t
    requires forall t: nat :: t != s ==> SegmentKept(before, after, t)
    requires SegmentFrom(source, target, after, seen, s)
    ensures DoneBelow(source, target, after, seen, s)
    ensures OnlyFromSource(source, target, after, seen)
  {
    forall t | t in source && t !in rest
      ensures SegmentSeeded(source, target, after, seen, t)
    {
      assert SegmentSeeded(source, target, before, seen, t) && SegmentKept(before, after, t);
    }
    forall t: nat | t != s && (t !in source || t in rest)
      ensures SegmentKept(target, after, t)
    {
      assert SegmentKept(target, before, t) && SegmentKept(before, after, t);
    }
    forall t: nat | t != s && t in source && t !in rest
      ensures SegmentFrom(source, target, after, seen, t)
    {
      assert SegmentSeeded(source, target, after, seen, t);
    }
  }

  lemma ProgressEnds(source: Disk, target: Disk, result: Disk, seen: nat -> bool)
    requires source != map[]
    requires Progress(source, target, result, seen, {})
    ensures Seeded(source, target, result, seen)
    ensures OnlyFromSource(source, target, result, seen)
    ensures SeenToAgree(source, target, seen)
  {
    forall s: nat
      ensures PrefixOrdered(At(source, s), At(target, s)) || Blind(source, target, seen, s)
      ensures SegmentFrom(source, target, result, seen, s)
    {
      assert if s in source then SegmentSeeded(source, target, result, seen, s) else SegmentKept(target, result, s);
    }
  }

  /** Wherever the target was seen, the two agree on the bytes they share. */
  ghost predicate SeenToAgree(source: Disk, target: Disk, seen: nat -> bool) {
    forall s: nat :: PrefixOrdered(At(source, s), At(target, s)) || Blind(source, target, seen, s)
  }

  /**
    Copy every segment of `source` onto `target` in ascending order, skipping those the target
    is seen to have in full.
   */
  method CopySegments(source: Disk, target: Disk, weather: Weather)
    returns (result: Disk, status: Status)
    ensures OnlyFromSource(source, target, result, weather.seen)
    ensures status.EmptySource? <==> source == map[]
    ensures status.EmptySource? ==> result == target
    ensures status.Copied? || status.DirectoryUnsynced? ==>
              Seeded(source, target, result, weather.seen) && SeenToAgree(source, target, weather.seen)
    // A disagreement is refused before that segment is overwritten, if the segment is seen.
    ensures status.Diverged? ==>
              && status.segment in source && DoneBelow(source, target, result, weather.seen, status.segment)
              && !PrefixOrdered(At(source, status.segment), At(target, status.segment))
              && !Blind(source, target, weather.seen, status.segment)
              && SegmentKept(target, result, status.segment)
    // An interruption can only hurt the segment it hit, and hurts it exactly when the copy
    // stopped short of what the target already had, or replaced it unseen.
    ensures status.Interrupted? ==>
              && status.segment in source && DoneBelow(source, target, result, weather.seen, status.segment)
              && !weather.fault(status.segment).NoFault?
              && (At(target, status.segment) <= At(result, status.segment) <==>
                    Survives(At(source, status.segment), At(target, status.segment),
                             Blind(source, target, weather.seen, status.segment), weather.fault(status.segment)))
    ensures status.DirectoryUnsynced? ==> !weather.synced
    ensures status.Copied? ==> weather.synced
    ensures NoneRemoved(weather) ==> target.Keys <= result.Keys
  {
    result := target;
    if source == map[] {
      return result, EmptySource;
    }
    var rest := source.Keys;
    while rest != {}
      invariant Progress(source, target, result, weather.seen, rest)
      invariant NoneRemoved(weather) ==> target.Keys <= result.Keys
      decreases rest
    {
      ghost var some :| some in rest;
      LeastSegment(rest, some);
      var s :| s in rest && forall t :: t in rest ==> s <= t;
      var step;
      result, step := CopyNext(source, target, result, weather, rest, s);
      if !step.Done? {
        status := if step.Disagrees? then Diverged(s) else Interrupted(s);
        return;
      }
      rest := rest - {s};
    }
    ProgressEnds(source, target, result, weather.seen);
    status := if weather.synced then Copied else DirectoryUnsynced;
  }

  /** The next segment of the source. */
  method CopyNext(source: Disk, ghost target: Disk, before: Disk, weather: Weather, ghost rest: set<nat>, s: nat)
    returns (result: Disk, step: Step)
    requires Progress(source, target, before, weather.seen, rest) && s in rest && forall t :: t in rest ==> s <= t
    ensures step.Done? ==> Progress(source, target, result, weather.seen, rest - {s})
    ensures !step.Done? ==> DoneBelow(source, target, result, weather.seen, s) && OnlyFromSource(source, target, result, weather.seen)
    ensures step.Disagrees? ==>
              && !PrefixOrdered(At(source, s), At(target, s)) && !Blind(source, target, weather.seen, s)
              && SegmentKept(target, result, s)
    ensures step.Stopped? ==>
              && !weather.fault(s).NoFault?
              && (At(target, s) <= At(result, s) <==>
                    Survives(At(source, s), At(target, s), Blind(source, target, weather.seen, s), weather.fault(s)))
    ensures !weather.fault(s).Removed? ==> before.Keys <= result.Keys
  {
    assert SegmentKept(target, before, s);
    var present, bytes;
    present, bytes, step := CopyOne(source[s], s in before, At(before, s), weather.seen(s), weather.fault(s));
    PutOne(before, s, present, bytes);
    result := Put(before, s, present, bytes);
    if step.Done? {
      DoneIsSeeded(source, target, result, weather, s);
      ProgressAdvances(source, target, before, result, weather.seen, rest, s);
    } else {
      ProgressStops(source, target, before, result, weather.seen, rest, s);
    }
  }

  lemma DoneIsSeeded(source: Disk, target: Disk, result: Disk, weather: Weather, s: nat)
    requires s in source && s in result
    requires At(result, s) == if Blind(source, target, weather.seen, s) then At(source, s) else Longer(At(target, s), At(source, s))
    requires Blind(source, target, weather.seen, s) || PrefixOrdered(At(source, s), At(target, s))
    ensures SegmentSeeded(source, target, result, weather.seen, s)
  {
  }

  ghost predicate WithinSome(sources: seq<Disk>, s: nat, bytes: Bytes) {
    exists i :: 0 <= i < |sources| && bytes <= At(sources[i], s)
  }

  ghost predicate OutgrownBySome(sources: seq<Disk>, s: nat, bytes: Bytes) {
    exists i :: 0 <= i < |sources| && bytes < At(sources[i], s)
  }

  ghost predicate ListedBySome(sources: seq<Disk>, s: nat) {
    exists i :: 0 <= i < |sources| && s in sources[i]
  }

  /** The last of the first `k` copies that could not see this segment on the target, or -1. */
  function LastUnseen(sources: seq<Disk>, weather: nat -> Weather, k: nat, s: nat): (r: int)
    requires k <= |sources|
    ensures -1 <= r < k
  {
    if k == 0 then -1
    else if s in sources[k - 1] && !weather(k - 1).seen(s) then k - 1
    else LastUnseen(sources, weather, k - 1, s)
  }

  lemma {:induction false} UnseenStaysUnseen(sources: seq<Disk>, weather: nat -> Weather, k: nat, n: nat, s: nat)
    requires k <= n <= |sources|
    ensures LastUnseen(sources, weather, k, s) >= 0 ==> LastUnseen(sources, weather, n, s) >= 0
  {
    if k < n {
      UnseenStaysUnseen(sources, weather, k, n - 1, s);
    }
  }

  lemma {:induction false} NothingUnseen(sources: seq<Disk>, weather: nat -> Weather, k: nat, s: nat)
    requires k <= |sources| && forall i: nat :: i < k ==> SeesAll(weather(i))
    ensures LastUnseen(sources, weather, k, s) == -1
  {
    if k > 0 {
      NothingUnseen(sources, weather, k - 1, s);
    }
  }

  /** Source `i` is one of those the segment was put together from: none since has overwritten it unseen. */
  ghost predicate Counts(sources: seq<Disk>, weather: nat -> Weather, k: nat, s: nat, i: int)
    requires k <= |sources|
  {
    0 <= i < k && LastUnseen(sources, weather, k, s) <= i
  }

  ghost predicate LongestAt(sources: seq<Disk>, weather: nat -> Weather, k: nat, target: Disk, result: Disk, s: nat)
    requires k <= |sources|
  {
    var own := LastUnseen(sources, weather, k, s) < 0;
    && (own ==> At(target, s) <= At(result, s))
    && (forall i :: Counts(sources, weather, k, s, i) ==> At(sources[i], s) <= At(result, s))
    && (|| (own && At(result, s) == At(target, s))
        || exists i :: Counts(sources, weather, k, s, i) && At(result, s) == At(sources[i], s))
  }

  /**
    `result` holds, for every segment, the longest copy found on the target or on the first `k`
    sources; where copies could not see the target, the longest found from the last of them on.
   */
  ghost predicate Longest(sources: seq<Disk>, weather: nat -> Weather, k: nat, target: Disk, result: Disk)
    requires k <= |sources|
  {
    forall s: nat :: LongestAt(sources, weather, k, target, result, s)
  }

  ghost predicate AllSeen(sources: seq<Disk>, weather: nat -> Weather) {
    forall s: nat :: LastUnseen(sources, weather, |sources|, s) == -1
  }

  /** Whatever order the sources are taken in, there is only one longest copy, as long as every look succeeds. */
  lemma LongestIsOrderFree(sources: seq<Disk>, weather: nat -> Weather, sources': seq<Disk>, weather': nat -> Weather,
                           target: Disk, a: Disk, b: Disk)
    requires multiset(sources) == multiset(sources') && AllSeen(sources, weather) && AllSeen(sources', weather')
    requires Longest(sources, weather, |sources|, target, a) && Longest(sources', weather', |sources'|, target, b)
    ensures SameBytes(a, b)
  {
    LongestBounds(sources, weather, sources', weather', target, a, b);
    LongestBounds(sources', weather', sources, weather, target, b, a);
    assert forall s: nat :: At(a, s) <= At(b, s) && At(b, s) <= At(a, s);
  }

  lemma LongestBounds(sources: seq<Disk>, weather: nat -> Weather, sources': seq<Disk>, weather': nat -> Weather,
                      target: Disk, a: Disk, b: Disk)
    requires multiset(sources) == multiset(sources') && AllSeen(sources, weather) && AllSeen(sources', weather')
    requires Longest(sources, weather, |sources|, target, a) && Longest(sources', weather', |sources'|, target, b)
    ensures Within(a, b)
  {
    forall s: nat
      ensures At(a, s) <= At(b, s)
    {
      assert LongestAt(sources, weather, |sources|, target, a, s) && LongestAt(sources', weather', |sources'|, target, b, s);
      if At(a, s) != At(target, s) {
        var i :| Counts(sources, weather, |sources|, s, i) && At(a, s) == At(sources[i], s);
        assert sources[i] in multiset(sources');
        var j :| 0 <= j < |sources'| && sources'[j] == sources[i];
        assert Counts(sources', weather', |sources'|, s, j);
      }
    }
  }

  /**
    What a seed may leave behind, finished or not: everything on the target was there before or
    is part of a source's copy; what the target held is still there unless a source has strictly
    more of it or it was overwritten unseen; and segment numbers appear or vanish only where a
    source has them.
   */
  ghost predicate FromSources(sources: seq<Disk>, weather: nat -> Weather, target: Disk, result: Disk) {
    forall s: nat :: FromSourcesAt(sources, weather, target, result, s)
  }

  ghost predicate FromSourcesAt(sources: seq<Disk>, weather: nat -> Weather, target: Disk, result: Disk, s: nat) {
    && (At(result, s) == At(target, s) || WithinSome(sources, s, At(result, s)))
    && (|| At(target, s) <= At(result, s)
        || OutgrownBySome(sources, s, At(target, s))
        || LastUnseen(sources, weather, |sources|, s) >= 0)
    && ((s in result) != (s in target) ==> ListedBySome(sources, s))
  }

  lemma BlindIsUnseen(sources: seq<Disk>, weather: nat -> Weather, k: nat, mid: Disk, s: nat)
    requires k < |sources| && Blind(sources[k], mid, weather(k).seen, s)
    ensures LastUnseen(sources, weather, |sources|, s) >= 0
  {
    UnseenStaysUnseen(sources, weather, k + 1, |sources|, s);
  }

  lemma SeedOneMore(sources: seq<Disk>, weather: nat -> Weather, k: nat, target: Disk, mid: Disk, result: Disk, s: nat)
    requires k < |sources|
    requires LongestAt(sources, weather, k, target, mid, s) && FromSourcesAt(sources, weather, target, mid, s)
    requires SegmentFrom(sources[k], mid, result, weather(k).seen, s)
    ensures FromSourcesAt(sources, weather, target, result, s)
  {
    UnseenStaysUnseen(sources, weather, k, |sources|, s);
    if Blind(sources[k], mid, weather(k).seen, s) {
      BlindIsUnseen(sources, weather, k, mid, s);
    }
    if At(result, s) != At(mid, s) {
      assert At(result, s) <= At(sources[k], s);
      assert WithinSome(sources, s, At(result, s));
      if LastUnseen(sources, weather, |sources|, s) < 0 {
        assert At(target, s) < At(sources[k], s);
      }
    }
  }

  /** A segment after one more complete copy. */
  lemma SeededSegment(source: Disk, mid: Disk, result: Disk, seen: nat -> bool, s: nat)
    requires Seeded(source, mid, result, seen)
    ensures At(source, s) <= At(result, s)
    ensures At(mid, s) <= At(result, s) || (s in source && !seen(s))
    ensures At(result, s) == At(mid, s) || (s in source && At(result, s) == At(source, s))
    ensures s in source && !seen(s) ==> At(result, s) == At(source, s)
  {
    assert if s in source then SegmentSeeded(source, mid, result, seen, s) else SegmentKept(mid, result, s);
    if s in source && !seen(s) && s !in mid {
      assert At(mid, s) == [];
    }
  }

  lemma SeededExtends(sources: seq<Disk>, weather: nat -> Weather, k: nat, target: Disk, mid: Disk, result: Disk, s: nat)
    requires k < |sources|
    requires LongestAt(sources, weather, k, target, mid, s) && Seeded(sources[k], mid, result, weather(k).seen)
    ensures LongestAt(sources, weather, k + 1, target, result, s)
  {
    var n := k + 1;
    SeededSegment(sources[k], mid, result, weather(k).seen, s);
    assert Counts(sources, weather, n, s, k);
    if s in sources[k] && !weather(k).seen(s) {
      assert forall i :: Counts(sources, weather, n, s, i) ==> i == k;
    } else {
      OneMoreCounts(sources, weather, k, s);
      if At(result, s) == At(mid, s) && !(LastUnseen(sources, weather, k, s) < 0 && At(mid, s) == At(target, s)) {
        var i :| Counts(sources, weather, k, s, i) && At(mid, s) == At(sources[i], s);
        assert Counts(sources, weather, n, s, i);
      }
    }
  }

  lemma OneMoreCounts(sources: seq<Disk>, weather: nat -> Weather, k: nat, s: nat)
    requires k < |sources| && !(s in sources[k] && !weather(k).seen(s))
    ensures LastUnseen(sources, weather, k + 1, s) == LastUnseen(sources, weather, k, s)
    ensures var n := k + 1; forall i :: Counts(sources, weather, n, s, i) <==> i == k || Counts(sources, weather, k, s, i)
  {
  }

  /** One more source copied onto a target that already holds the longest copy of the first `k`. */
  method SeedOnce(sources: seq<Disk>, k: nat, ghost target: Disk, mid: Disk, weather: nat -> Weather)
    returns (result: Disk, copied: bool)
    requires k < |sources|
    requires Longest(sources, weather, k, target, mid) && FromSources(sources, weather, target, mid)
    ensures FromSources(sources, weather, target, result)
    ensures copied ==> sources[k] != map[] && Longest(sources, weather, k + 1, target, result)
    ensures NoneRemoved(weather(k)) ==> mid.Keys <= result.Keys
    ensures sources[k] != map[] && Calm(weather(k)) && Compatible(sources[k], mid) ==> copied
  {
    var status;
    result, status := CopySegments(sources[k], mid, weather(k));
    forall s: nat
      ensures FromSourcesAt(sources, weather, target, result, s)
    {
      assert LongestAt(sources, weather, k, target, mid, s) && FromSourcesAt(sources, weather, target, mid, s);
      SeedOneMore(sources, weather, k, target, mid, result, s);
    }
    copied := status.Copied?;
    if copied {
      ghost var n := k + 1;
      forall s: nat
        ensures LongestAt(sources, weather, n, target, result, s)
      {
        assert LongestAt(sources, weather, k, target, mid, s);
        SeededExtends(sources, weather, k, target, mid, result, s);
      }
    }
  }

  /** Copies of one history: the target and every source agree, pairwise, on the bytes they share. */
  ghost predicate OneHistory(sources: seq<Disk>, target: Disk) {
    && (forall i :: 0 <= i < |sources| ==> Compatible(sources[i], target))
    && (forall i, j :: 0 <= i < |sources| && 0 <= j < |sources| ==> Compatible(sources[i], sources[j]))
  }

  lemma NextSourceIsCompatible(sources: seq<Disk>, weather: nat -> Weather, k: nat, target: Disk, mid: Disk)
    requires k < |sources| && OneHistory(sources, target)
    requires Longest(sources, weather, k, target, mid)
    ensures Compatible(sources[k], mid)
  {
    forall s: nat
      ensures PrefixOrdered(At(sources[k], s), At(mid, s))
    {
      assert LongestAt(sources, weather, k, target, mid, s);
      if At(mid, s) == At(target, s) {
        assert Compatible(sources[k], target);
      } else {
        var i :| Counts(sources, weather, k, s, i) && At(mid, s) == At(sources[i], s);
        assert Compatible(sources[k], sources[i]);
      }
    }
  }

  lemma SeedNothing(sources: seq<Disk>, weather: nat -> Weather, target: Disk)
    ensures Longest(sources, weather, 0, target, target) && FromSources(sources, weather, target, target)
  {
    assert forall s: nat :: LongestAt(sources, weather, 0, target, target, s);
  }

  /** Seed a target from every source in turn. It counts only if every copy succeeded. */
  method SeedFrom(sources: seq<Disk>, target: Disk, weather: nat -> Weather)
    returns (result: Disk, seeded: bool)
    ensures FromSources(sources, weather, target, result)
    ensures seeded ==> Longest(sources, weather, |sources|, target, result)
    ensures seeded ==> forall i :: 0 <= i < |sources| ==> sources[i] != map[]
    ensures (&& OneHistory(sources, target)
             && forall i: nat :: i < |sources| ==> sources[i] != map[] && Calm(weather(i))) ==> seeded
    ensures (forall i: nat :: i < |sources| ==> NoneRemoved(weather(i))) ==> target.Keys <= result.Keys
  {
    SeedNothing(sources, weather, target);
    result, seeded := target, true;
    var k := 0;
    while k < |sources|
      invariant 0 <= k <= |sources|
      invariant Longest(sources, weather, k, target, result)
      invariant FromSources(sources, weather, target, result)
      invariant forall i :: 0 <= i < k ==> sources[i] != map[]
      invariant (forall i: nat :: i < |sources| ==> NoneRemoved(weather(i))) ==> target.Keys <= result.Keys
    {
      if OneHistory(sources, target) {
        NextSourceIsCompatible(sources, weather, k, target, result);
      }
      result, seeded := SeedOnce(sources, k, target, result, weather);
      if !seeded {
        return;
      }
      k := k + 1;
    }
    seeded := true;
  }

  /** A target sees itself shrink under a complete seed exactly when it was overwritten unseen by copies all shorter than it, or disagreeing. */
  lemma SeedLosesIff(sources: seq<Disk>, weather: nat -> Weather, target: Disk, result: Disk, s: nat)
    requires Longest(sources, weather, |sources|, target, result)
    ensures At(target, s) <= At(result, s) <==>
              || LastUnseen(sources, weather, |sources|, s) < 0
              || exists i :: Counts(sources, weather, |sources|, s, i) && At(target, s) <= At(sources[i], s)
  {
    assert LongestAt(sources, weather, |sources|, target, result, s);
  }
}
