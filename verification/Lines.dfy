/**
  Journal segments as byte strings of newline-terminated records, and the repair of a torn
  final record.
 */
module Lines {

  type Byte = b: int | 0 <= b < 256
  type Bytes = seq<Byte>

  const NEWLINE: Byte := 10

  // Size of one backward read while looking for the last newline.
  const SCAN_CHUNK: nat := 65536

  /** One journal record as it is written: a non-empty run of bytes whose only newline is its last byte. */
  ghost predicate IsLine(line: Bytes) {
    && |line| > 0
    && line[|line| - 1] == NEWLINE
    && forall i :: 0 <= i < |line| - 1 ==> line[i] != NEWLINE
  }

  ghost predicate AreLines(lines: seq<Bytes>) {
    forall i :: 0 <= i < |lines| ==> IsLine(lines[i])
  }

  /** The body of a batch: its lines back to back. */
  function Join(lines: seq<Bytes>): Bytes {
    if lines == [] then [] else lines[0] + Join(lines[1..])
  }

  /** The length of the first complete line of `s`, or 0 when `s` holds no newline. */
  function FirstLine(s: Bytes): (n: nat)
    ensures n <= |s|
    ensures n > 0 ==> s[n - 1] == NEWLINE
    ensures forall i :: 0 <= i < (if n == 0 then |s| else n - 1) ==> s[i] != NEWLINE
  {
    if s == [] then 0
    else if s[0] == NEWLINE then 1
    else
      var rest := FirstLine(s[1..]);
      if rest == 0 then 0 else 1 + rest
  }

  /** The complete records of a segment, in order. Whatever follows the last newline is not a record. */
  function Records(s: Bytes): seq<Bytes>
    decreases |s|
  {
    var n := FirstLine(s);
    if n == 0 then [] else [s[..n]] + Records(s[n..])
  }

  /** A segment that ends on a record boundary. */
  ghost predicate AtBoundary(s: Bytes) {
    s == [] || s[|s| - 1] == NEWLINE
  }

  /** `keep` is the longest prefix of `s` that ends on a record boundary: no newline follows it. */
  ghost predicate IsLongestComplete(s: Bytes, keep: Bytes) {
    && keep <= s
    && AtBoundary(keep)
    && forall i :: |keep| <= i < |s| ==> s[i] != NEWLINE
  }

  /** What remains of a segment once a torn final record has been cut off. */
  ghost function Complete(s: Bytes): (keep: Bytes)
    ensures IsLongestComplete(s, keep)
  {
    if AtBoundary(s) then s else Complete(s[..|s| - 1])
  }

  lemma LongestCompleteIsUnique(s: Bytes, a: Bytes, b: Bytes)
    requires IsLongestComplete(s, a) && IsLongestComplete(s, b)
    ensures a == b
  {
  }

  /** A line at the front of a segment is its first record, whatever follows. */
  lemma FrontLine(line: Bytes, rest: Bytes)
    requires IsLine(line)
    ensures Records(line + rest) == [line] + Records(rest)
  {
    var s := line + rest;
    assert s[|line| - 1] == NEWLINE;
    assert FirstLine(s) == |line|;
    assert s[..|line|] == line && s[|line|..] == rest;
  }

  /** Cutting a torn tail leaves everything up to any newline in place. */
  lemma CompleteAfterNewline(s: Bytes, n: nat)
    requires 0 < n <= |s| && s[n - 1] == NEWLINE
    ensures Complete(s) == s[..n] + Complete(s[n..])
  {
  }

  lemma Associative<T>(a: seq<T>, b: seq<T>, c: seq<T>)
    ensures (a + b) + c == a + (b + c)
  {
  }

  lemma {:induction false} RecordsAreLines(s: Bytes)
    ensures AreLines(Records(s))
    decreases |s|
  {
    var n := FirstLine(s);
    if n > 0 {
      RecordsAreLines(s[n..]);
      assert IsLine(s[..n]);
    }
  }

  /** The records of a segment together spell exactly its complete part. */
  lemma {:induction false} RecordsSpellComplete(s: Bytes)
    ensures Join(Records(s)) == Complete(s)
    decreases |s|
  {
    var n := FirstLine(s);
    if n == 0 {
      LongestCompleteIsUnique(s, [], Complete(s));
    } else {
      RecordsSpellComplete(s[n..]);
      CompleteAfterNewline(s, n);
      JoinFront(s[..n], Records(s[n..]));
    }
  }

  lemma JoinFront(line: Bytes, lines: seq<Bytes>)
    ensures Join([line] + lines) == line + Join(lines)
  {
  }

  /** Parsing what a batch wrote gives back exactly the batch. */
  lemma {:induction false} RecordsOfJoin(lines: seq<Bytes>)
    requires AreLines(lines)
    ensures Records(Join(lines)) == lines
    ensures AtBoundary(Join(lines))
  {
    if lines != [] {
      var rest := Join(lines[1..]);
      RecordsOfJoin(lines[1..]);
      FrontLine(lines[0], rest);
      assert lines == [lines[0]] + lines[1..];
      var s := lines[0] + rest;
      assert s[|s| - 1] == if rest == [] then lines[0][|lines[0]| - 1] else rest[|rest| - 1];
    }
  }

  lemma {:induction false} JoinAppend(a: seq<Bytes>, b: seq<Bytes>)
    ensures Join(a + b) == Join(a) + Join(b)
  {
    if a == [] {
      assert a + b == b;
    } else {
      assert (a + b)[1..] == a[1..] + b;
      JoinAppend(a[1..], b);
    }
  }

  /** Bytes appended at a record boundary are parsed on their own. */
  lemma {:induction false} RecordsAtBoundary(s: Bytes, t: Bytes)
    requires AtBoundary(s)
    ensures Records(s + t) == Records(s) + Records(t)
  {
    LongestCompleteIsUnique(s, s, Complete(s));
    RecordsSpellComplete(s);
    RecordsAreLines(s);
    LinesThenBytes(Records(s), t);
  }

  lemma {:induction false} LinesThenBytes(lines: seq<Bytes>, t: Bytes)
    requires AreLines(lines)
    ensures Records(Join(lines) + t) == lines + Records(t)
  {
    if lines == [] {
      assert Join(lines) + t == t;
    } else {
      var head, tail := lines[0], lines[1..];
      var body := Join(tail);
      LinesThenBytes(tail, t);
      FrontLine(head, body + t);
      Associative(head, body, t);
      Regroup(head, tail, Records(t));
      assert lines == [head] + tail;
    }
  }

  lemma Regroup<T>(x: T, a: seq<T>, b: seq<T>)
    ensures [x] + (a + b) == ([x] + a) + b
  {
  }

  lemma RecordsIgnoreTornTail(s: Bytes)
    ensures Records(Complete(s)) == Records(s)
  {
    RecordsSpellComplete(s);
    RecordsAreLines(s);
    RecordsOfJoin(Records(s));
  }

  /** A longer copy of a segment holds every record of a shorter one, first. */
  lemma RecordsOfPrefix(a: Bytes, b: Bytes)
    requires Complete(a) <= b
    ensures Records(a) <= Records(b)
  {
    var rest := b[|Complete(a)|..];
    assert b == Complete(a) + rest;
    RecordsAtBoundary(Complete(a), rest);
    RecordsIgnoreTornTail(a);
  }

  lemma BoundaryIsComplete(s: Bytes)
    requires AtBoundary(s)
    ensures Complete(s) == s
  {
  }

  /** The complete part of a prefix is a prefix of the complete part. */
  lemma CompletePrefix(x: Bytes, y: Bytes)
    requires x <= y
    ensures Complete(x) <= Complete(y) <= y
  {
    var k := Complete(x);
    assert k != [] ==> y[|k| - 1] == NEWLINE;
  }

  /** Bytes added at a record boundary are torn where they are torn by themselves. */
  lemma CompleteOfAppend(s: Bytes, t: Bytes)
    requires AtBoundary(s)
    ensures Complete(s + t) == s + Complete(t)
  {
    if s == [] {
      assert s + t == t && s + Complete(t) == Complete(t);
    } else {
      assert (s + t)[..|s|] == s && (s + t)[|s|..] == t;
      CompleteAfterNewline(s + t, |s|);
    }
  }

  lemma BoundaryAppend(s: Bytes, t: Bytes)
    requires AtBoundary(s) && AtBoundary(t)
    ensures AtBoundary(s + t)
  {
  }

  /** Of a batch cut off after some bytes, what is complete is its first lines. */
  lemma {:induction false} LinesOfPrefix(lines: seq<Bytes>, n: nat) returns (j: nat)
    requires AreLines(lines) && n <= |Join(lines)|
    ensures j <= |lines| && Complete(Join(lines)[..n]) == Join(lines[..j])
  {
    if lines == [] || n < |lines[0]| {
      j := 0;
      var cut := Join(lines)[..n];
      assert forall i :: 0 <= i < |cut| ==> cut[i] != NEWLINE;
      LongestCompleteIsUnique(cut, [], Complete(cut));
    } else {
      var head, tail := lines[0], lines[1..];
      var i := LinesOfPrefix(tail, n - |head|);
      j := i + 1;
      assert Join(lines)[..n] == head + Join(tail)[..n - |head|];
      CompleteOfAppend(head, Join(tail)[..n - |head|]);
      assert lines[..j][0] == head && lines[..j][1..] == tail[..i];
    }
  }

  lemma JoinOfPrefix(lines: seq<Bytes>, j: nat, k: nat)
    requires j <= k <= |lines|
    ensures Join(lines[..j]) <= Join(lines[..k]) <= Join(lines)
  {
    assert lines[..k] == lines[..j] + lines[j..k] && lines == lines[..k] + lines[k..];
    JoinAppend(lines[..j], lines[j..k]);
    JoinAppend(lines[..k], lines[k..]);
  }

  /** After the repair, a batch parses to the old complete records followed by its own. */
  lemma AppendAfterRepair(s: Bytes, batch: seq<Bytes>)
    requires AreLines(batch)
    ensures Records(Complete(s) + Join(batch)) == Records(s) + batch
    ensures AtBoundary(Complete(s) + Join(batch))
  {
    RecordsAtBoundary(Complete(s), Join(batch));
    RecordsIgnoreTornTail(s);
    RecordsOfJoin(batch);
    BoundaryAppend(Complete(s), Join(batch));
  }

  /**
    The repair is needed exactly when the segment is torn: appending straight onto a segment
    keeps the batch's records readable if and only if the segment ended on a record boundary.
   */
  lemma AppendWithoutRepairIff(s: Bytes, batch: seq<Bytes>)
    requires AreLines(batch) && batch != []
    ensures Records(s + Join(batch)) == Records(s) + batch <==> AtBoundary(s)
  {
    if AtBoundary(s) {
      RecordsAtBoundary(s, Join(batch));
      RecordsOfJoin(batch);
    } else {
      TornTailIsGlued(s, batch);
      var k := |Records(s)|;
      assert (Records(s) + batch)[k] == batch[0];
    }
  }

  /** The bytes after the last newline of a segment. */
  ghost function Fragment(s: Bytes): (fragment: Bytes)
    ensures s == Complete(s) + fragment
    ensures fragment == [] <==> AtBoundary(s)
    ensures forall i :: 0 <= i < |fragment| ==> fragment[i] != NEWLINE
  {
    var keep := Complete(s);
    assert forall i :: 0 <= i < |s| - |keep| ==> s[|keep|..][i] == s[|keep| + i];
    s[|keep|..]
  }

  lemma GluedBytes(keep: Bytes, fragment: Bytes, batch: seq<Bytes>)
    requires batch != []
    ensures (keep + fragment) + Join(batch) == keep + ((fragment + batch[0]) + Join(batch[1..]))
  {
    Associative(keep, fragment, Join(batch));
    Associative(fragment, batch[0], Join(batch[1..]));
  }

  /** On a torn segment the first record of the batch is fused to the fragment and lost. */
  lemma TornTailIsGlued(s: Bytes, batch: seq<Bytes>)
    requires AreLines(batch) && batch != [] && !AtBoundary(s)
    ensures Records(s + Join(batch)) == Records(s) + ([Fragment(s) + batch[0]] + batch[1..])
  {
    var keep, fragment := Complete(s), Fragment(s);
    var head, tail := fragment + batch[0], batch[1..];
    assert IsLine(head);
    GluedBytes(keep, fragment, batch);
    RecordsAtBoundary(keep, head + Join(tail));
    RecordsIgnoreTornTail(s);
    FrontLine(head, Join(tail));
    assert Records(Join(tail)) == tail by { RecordsOfJoin(tail); }
  }

  /** The index of the last newline of a buffer, or -1. */
  method LastIndexOfNewline(buf: Bytes) returns (idx: int)
    ensures -1 <= idx < |buf|
    ensures idx >= 0 ==> buf[idx] == NEWLINE
    ensures forall i :: idx < i < |buf| ==> buf[i] != NEWLINE
  {
    idx := |buf| - 1;
    while idx >= 0 && buf[idx] != NEWLINE
      invariant -1 <= idx < |buf|
      invariant forall i :: idx < i < |buf| ==> buf[i] != NEWLINE
    {
      idx := idx - 1;
    }
  }

  /** Roll a segment back to its last complete line, scanning backwards one chunk at a time. */
  method RollBackTornTail(file: Bytes) returns (kept: Bytes)
    ensures kept == Complete(file)
  {
    var end := |file|;
    var lastNewline := -1;
    while end > 0 && lastNewline < 0
      invariant 0 <= end <= |file|
      invariant -1 <= lastNewline < |file|
      invariant lastNewline >= 0 ==> file[lastNewline] == NEWLINE
      invariant lastNewline < 0 ==> forall i :: end <= i < |file| ==> file[i] != NEWLINE
      invariant lastNewline >= 0 ==> forall i :: lastNewline < i < |file| ==> file[i] != NEWLINE
    {
      var start := if end > SCAN_CHUNK then end - SCAN_CHUNK else 0;
      var buf := file[start..end];
      var idx := LastIndexOfNewline(buf);
      forall i | start <= i < end && start + idx < i
        ensures file[i] != NEWLINE
      {
        assert file[i] == buf[i - start];
      }
      if idx >= 0 {
        lastNewline := start + idx;
      }
      end := start;
    }
    var complete := lastNewline + 1;
    kept := file[..complete];
    assert IsLongestComplete(file, kept);
    LongestCompleteIsUnique(file, kept, Complete(file));
  }
}
