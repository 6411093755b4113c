/**
  A disk's journal directory, the history it carries, and what it means for one history to
  contain another.
 */
module Segments {
  import opened Lines

  /** Segment number to file contents. */
  type Disk = map<nat, Bytes>

  /** The bytes of one segment. A missing file and an empty one carry the same history: none. */
  function At(d: Disk, s: nat): Bytes {
    if s in d then d[s] else []
  }

  /** The records of the first `n` segments, in segment order. */
  ghost function History(d: Disk, n: nat): seq<Bytes> {
    if n == 0 then [] else History(d, n - 1) + Records(At(d, n - 1))
  }

  /** Every segment of `a` is a byte prefix of the same segment of `b`. */
  ghost predicate Within(a: Disk, b: Disk) {
    forall s: nat :: At(a, s) <= At(b, s)
  }

  ghost predicate SameBytes(a: Disk, b: Disk) {
    forall s: nat :: At(a, s) == At(b, s)
  }

  /** Nothing is stored beyond segment `top`. */
  ghost predicate EndsBy(d: Disk, top: nat) {
    forall s: nat :: s > top ==> At(d, s) == []
  }

  /** `a` can be read off `b` by skipping elements, keeping the order. */
  ghost predicate Subseq<T(!new)>(a: seq<T>, b: seq<T>) {
    || a == []
    || (b != [] && ((a[0] == b[0] && Subseq(a[1..], b[1..])) || Subseq(a, b[1..])))
  }

  lemma SubseqSkip<T(!new)>(a: seq<T>, b: seq<T>, c: seq<T>)
    requires Subseq(a, c)
    ensures Subseq(a, b + c)
  {
    if b == [] {
      assert b + c == c;
    } else {
      SubseqSkip(a, b[1..], c);
      assert (b + c)[1..] == b[1..] + c;
    }
  }

  lemma {:induction false} SubseqConcat<T(!new)>(a: seq<T>, b: seq<T>, a': seq<T>, b': seq<T>)
    requires Subseq(a, b) && Subseq(a', b')
    ensures Subseq(a + a', b + b')
    decreases |b|
  {
    if a == [] {
      assert a + a' == a';
      SubseqSkip(a', b, b');
    } else {
      assert (b + b')[1..] == b[1..] + b';
      if a[0] == b[0] && Subseq(a[1..], b[1..]) {
        SubseqConcat(a[1..], b[1..], a', b');
        assert (a + a')[1..] == a[1..] + a';
      } else {
        SubseqConcat(a, b[1..], a', b');
      }
    }
  }

  lemma SubseqRefl<T(!new)>(a: seq<T>)
    ensures Subseq(a, a)
  {
  }

  lemma SubseqOfPrefix<T(!new)>(a: seq<T>, b: seq<T>)
    requires a <= b
    ensures Subseq(a, b)
  {
  }

  lemma {:induction false} SubseqTrans<T(!new)>(a: seq<T>, b: seq<T>, c: seq<T>)
    requires Subseq(a, b) && Subseq(b, c)
    ensures Subseq(a, c)
    decreases |c|
  {
    if a != [] {
      if b[0] == c[0] && Subseq(b[1..], c[1..]) {
        if a[0] == b[0] && Subseq(a[1..], b[1..]) {
          SubseqTrans(a[1..], b[1..], c[1..]);
        } else {
          SubseqTrans(a, b[1..], c[1..]);
        }
      } else {
        SubseqTrans(a, b, c[1..]);
      }
    }
  }

  /** Disks that agree segment by segment, up to torn tails, carry the same history. */
  lemma {:induction false} HistoryCongruence(a: Disk, b: Disk, n: nat)
    requires forall s: nat :: s < n ==> Records(At(a, s)) == Records(At(b, s))
    ensures History(a, n) == History(b, n)
  {
    if n > 0 {
      HistoryCongruence(a, b, n - 1);
    }
  }

  /** Growing segments in place never loses or reorders a record. */
  lemma {:induction false} HistoryGrows(a: Disk, b: Disk, n: nat)
    requires forall s: nat :: s < n ==> Complete(At(a, s)) <= At(b, s)
    ensures Subseq(History(a, n), History(b, n))
  {
    if n > 0 {
      HistoryGrows(a, b, n - 1);
      RecordsOfPrefix(At(a, n - 1), At(b, n - 1));
      SubseqOfPrefix(Records(At(a, n - 1)), Records(At(b, n - 1)));
      SubseqConcat(History(a, n - 1), History(b, n - 1), Records(At(a, n - 1)), Records(At(b, n - 1)));
    }
  }

  /** Empty segments at the end add nothing. */
  lemma {:induction false} HistoryEnds(d: Disk, top: nat, n: nat)
    requires EndsBy(d, top) && n > top
    ensures History(d, n) == History(d, top + 1)
  {
    if n > top + 1 {
      HistoryEnds(d, top, n - 1);
      assert At(d, n - 1) == [];
      assert Records([]) == [];
    }
  }

  /** A batch appended to the last segment extends the history by exactly that batch. */
  lemma HistoryAppend(before: Disk, after: Disk, top: nat, batch: seq<Bytes>)
    requires AreLines(batch)
    requires AtBoundary(At(before, top))
    requires At(after, top) == At(before, top) + Join(batch)
    requires forall s: nat :: s != top ==> At(after, s) == At(before, s)
    ensures History(after, top + 1) == History(before, top + 1) + batch
  {
    HistoryCongruence(before, after, top);
    RecordsAtBoundary(At(before, top), Join(batch));
    RecordsOfJoin(batch);
    Lines.Associative(History(before, top), Records(At(before, top)), batch);
  }
}
