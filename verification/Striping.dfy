/**
  Cutting a padded file into chunks, one slice per column, and reading the columns back.
 */
module Striping {
  import opened Prelude
  import opened Lines
  import opened Stripe

  /** The bytes of one slice in its first `k` chunks. */
  function Sum(sizes: seq<nat>, k: nat): nat
    requires k <= |sizes|
  {
    if k == 0 then 0 else Sum(sizes, k - 1) + sizes[k - 1]
  }

  lemma {:induction false} SumIsMonotone(sizes: seq<nat>, i: nat, k: nat)
    requires i <= k <= |sizes|
    ensures Sum(sizes, i) <= Sum(sizes, k)
  {
    if i < k {
      SumIsMonotone(sizes, i, k - 1);
    }
  }

  predicate Positive(g: Geometry) {
    g.start > 0 && g.standard > 0 && g.count >= 0 && g.end >= 0
  }

  function SizesOfSlice(g: Geometry): seq<nat>
    requires Positive(g)
  {
    seq(1 + g.count + (if g.end > 0 then 1 else 0),
        k => if k == 0 then g.start else if k <= g.count then g.standard else g.end)
  }

  /** The chunk sizes of one slice, empty chunks left out. */
  method ChunkSizes(g: Geometry) returns (sizes: seq<nat>)
    requires Positive(g)
    ensures sizes == SizesOfSlice(g)
    ensures Sum(sizes, |sizes|) == SliceData(g)
    ensures forall k :: 0 <= k < |sizes| ==> 0 < sizes[k]
  {
    sizes := [g.start];
    var i := 0;
    while i < g.count
      invariant 0 <= i <= g.count && |sizes| == i + 1
      invariant forall k :: 0 <= k < |sizes| ==> sizes[k] == if k == 0 then g.start else g.standard
    {
      sizes := sizes + [g.standard];
      i := i + 1;
    }
    if g.end > 0 {
      sizes := sizes + [g.end];
    }
    assert sizes == SizesOfSlice(g);
    SumOfSlice(g);
  }

  /** Chunk `k` of slice `j`: the j-th column of the k-th chunk set. */
  function Chunk(data: Bytes, sizes: seq<nat>, n: nat, j: nat, k: nat): (c: Bytes)
    requires j < n && k < |sizes| && |data| == n * Sum(sizes, |sizes|)
    ensures |c| == sizes[k]
  {
    ChunkFits(sizes, n, j, k);
    data[n * Sum(sizes, k) + j * sizes[k]..n * Sum(sizes, k) + (j + 1) * sizes[k]]
  }

  lemma ChunkFits(sizes: seq<nat>, n: nat, j: nat, k: nat)
    requires j < n && k < |sizes|
    ensures 0 <= n * Sum(sizes, k) + j * sizes[k] <= n * Sum(sizes, k) + (j + 1) * sizes[k] <= n * Sum(sizes, |sizes|)
    ensures n * Sum(sizes, k) + (j + 1) * sizes[k] == n * Sum(sizes, k) + j * sizes[k] + sizes[k]
    ensures n * Sum(sizes, k + 1) == n * Sum(sizes, k) + n * sizes[k]
  {
    SumIsMonotone(sizes, k + 1, |sizes|);
    assert (j + 1) * sizes[k] == j * sizes[k] + sizes[k];
    Product(j + 1, n, sizes[k]);
    Product(Sum(sizes, k + 1), Sum(sizes, |sizes|), n);
  }

  lemma Product(a: nat, b: nat, c: nat)
    requires a <= b
    ensures 0 <= a * c <= b * c
  {
  }

  /** One slice: a chunk from every chunk set. */
  function Slice(data: Bytes, sizes: seq<nat>, n: nat, j: nat): (s: seq<Bytes>)
    requires j < n && |data| == n * Sum(sizes, |sizes|)
    ensures |s| == |sizes| && forall k :: 0 <= k < |s| ==> s[k] == Chunk(data, sizes, n, j, k)
  {
    seq(|sizes|, k requires 0 <= k < |sizes| => Chunk(data, sizes, n, j, k))
  }

  /** A slice as it is stored: every chunk behind the digest of it. */
  function Encoded(chunks: seq<Bytes>, digest: Bytes -> Bytes): Bytes {
    if chunks == [] then []
    else
      var last := chunks[|chunks| - 1];
      Encoded(chunks[..|chunks| - 1], digest) + digest(last) + last
  }

  ghost predicate SizesOf(chunks: seq<Bytes>, sizes: seq<nat>) {
    |chunks| == |sizes| && forall k :: 0 <= k < |sizes| ==> |chunks[k]| == sizes[k]
  }

  ghost predicate Digest(digest: Bytes -> Bytes) {
    forall b :: |digest(b)| == CHUNK_HEADER_SIZE
  }

  /** The first `k` chunks and their headers are a prefix of the block, as long as their sizes say. */
  lemma {:induction false} EncodedPrefix(chunks: seq<Bytes>, sizes: seq<nat>, digest: Bytes -> Bytes, k: nat)
    requires SizesOf(chunks, sizes) && Digest(digest) && k <= |chunks|
    ensures |Encoded(chunks[..k], digest)| == Sum(sizes, k) + 16 * k
    ensures Encoded(chunks[..k], digest) <= Encoded(chunks, digest)
    decreases |chunks|, k
  {
    if k > 0 {
      assert chunks[..k][..k - 1] == chunks[..k - 1];
      EncodedPrefix(chunks, sizes, digest, k - 1);
    }
    EncodedGrows(chunks, digest, k);
  }

  lemma {:induction false} EncodedGrows(chunks: seq<Bytes>, digest: Bytes -> Bytes, k: nat)
    requires k <= |chunks|
    ensures Encoded(chunks[..k], digest) <= Encoded(chunks, digest)
  {
    if k == |chunks| {
      assert chunks[..k] == chunks;
    } else {
      var front := chunks[..|chunks| - 1];
      assert front[..k] == chunks[..k];
      EncodedGrows(front, digest, k);
    }
  }

  /** Take the chunks out of a block again, going by their sizes. A block that is too short is refused. */
  method DecodeBlock(block: Bytes, sizes: seq<nat>, ghost chunks: seq<Bytes>, ghost digest: Bytes -> Bytes)
    returns (parts: Option<seq<Bytes>>)
    requires Digest(digest) && SizesOf(chunks, sizes)
    ensures parts.None? <==> |block| < Sum(sizes, |sizes|) + 16 * |sizes|
    ensures Encoded(chunks, digest) <= block ==> parts == Some(chunks)
  {
    EncodedPrefix(chunks, sizes, digest, |sizes|);
    assert chunks[..|sizes|] == chunks;
    var found: seq<Bytes> := [];
    var o: nat := 0;
    var k := 0;
    while k < |sizes|
      invariant 0 <= k <= |sizes| && o == Sum(sizes, k) + 16 * k && |found| == k
      invariant o <= |block|
      invariant Encoded(chunks, digest) <= block ==> found == chunks[..k]
    {
      if o + 16 + sizes[k] > |block| {
        SumIsMonotone(sizes, k + 1, |sizes|);
        return None;
      }
      var part := block[o + 16..o + 16 + sizes[k]];
      if Encoded(chunks, digest) <= block {
        NextPart(block, chunks, sizes, digest, k);
      }
      found := found + [part];
      o := o + 16 + sizes[k];
      k := k + 1;
    }
    assert chunks[..|sizes|] == chunks;
    parts := Some(found);
  }

  /** Behind what the first `k` chunks take comes the header of the next, and then that chunk. */
  lemma NextPart(block: Bytes, chunks: seq<Bytes>, sizes: seq<nat>, digest: Bytes -> Bytes, k: nat)
    requires Digest(digest) && SizesOf(chunks, sizes) && k < |sizes| && Encoded(chunks, digest) <= block
    ensures var o := Sum(sizes, k) + 16 * k;
            && o + 16 + sizes[k] <= |block|
            && chunks[..k] + [block[o + 16..o + 16 + sizes[k]]] == chunks[..k + 1]
  {
    EncodedPrefix(chunks, sizes, digest, k);
    EncodedPrefix(chunks, sizes, digest, k + 1);
    assert chunks[..k + 1][..k] == chunks[..k];
    Behind(Encoded(chunks[..k], digest), digest(chunks[k]), chunks[k], block);
    assert chunks[..k] + [chunks[k]] == chunks[..k + 1];
  }

  /** The third of three pieces at the front of a block. */
  lemma Behind(a: Bytes, b: Bytes, c: Bytes, block: Bytes)
    requires a + b + c <= block
    ensures block[|a| + |b|..|a| + |b| + |c|] == c
  {
    assert (a + b + c)[|a| + |b|..] == c;
    assert block[..|a| + |b| + |c|] == a + b + c;
    assert block[|a| + |b|..|a| + |b| + |c|] == block[..|a| + |b| + |c|][|a| + |b|..];
  }

  /** Read the columns back row by row, and drop the padding. */
  method Interleave(blocks: seq<seq<Bytes>>, sizes: seq<nat>, size: nat, ghost data: Bytes) returns (plaintext: Bytes)
    requires |data| == |blocks| * Sum(sizes, |sizes|) && size <= |data|
    requires forall j :: 0 <= j < |blocks| ==> blocks[j] == Slice(data, sizes, |blocks|, j)
    ensures plaintext == data[..size]
  {
    var n := |blocks|;
    var parts: Bytes := [];
    var k := 0;
    while k < |sizes|
      invariant 0 <= k <= |sizes|
      invariant n * Sum(sizes, k) <= |data| && parts == data[..n * Sum(sizes, k)]
    {
      parts := Row(blocks, sizes, k, data, parts);
      SumIsMonotone(sizes, k + 1, |sizes|);
      Product(Sum(sizes, k + 1), Sum(sizes, |sizes|), n);
      k := k + 1;
    }
    assert data[..|data|] == data;
    plaintext := parts[..size];
  }

  /** One chunk set: the k-th chunk of every slice, in order. */
  method Row(blocks: seq<seq<Bytes>>, sizes: seq<nat>, k: nat, ghost data: Bytes, parts: Bytes) returns (parts': Bytes)
    requires |data| == |blocks| * Sum(sizes, |sizes|) && k < |sizes|
    requires forall j :: 0 <= j < |blocks| ==> blocks[j] == Slice(data, sizes, |blocks|, j)
    requires |blocks| * Sum(sizes, k) <= |data| && parts == data[..|blocks| * Sum(sizes, k)]
    ensures |blocks| * Sum(sizes, k + 1) <= |data| && parts' == data[..|blocks| * Sum(sizes, k + 1)]
  {
    var n := |blocks|;
    ghost var from := n * Sum(sizes, k);
    parts' := parts;
    var j := 0;
    while j < n
      invariant 0 <= j <= n
      invariant 0 <= from + j * sizes[k] <= |data| && parts' == data[..from + j * sizes[k]]
    {
      ChunkFits(sizes, n, j, k);
      assert blocks[j][k] == data[from + j * sizes[k]..from + (j + 1) * sizes[k]];
      parts' := parts' + blocks[j][k];
      j := j + 1;
    }
    assert n * Sum(sizes, k + 1) == from + n * sizes[k] by {
      assert Sum(sizes, k + 1) == Sum(sizes, k) + sizes[k];
    }
  }

  /** The stored slices of a file: padded, cut into chunk sets, one column each, digests in front. */
  ghost predicate StoredAs(stored: seq<Bytes>, data: Bytes, g: Geometry, digest: Bytes -> Bytes) {
    && Positive(g)
    && var sizes := SizesOfSlice(g);
       && |data| == |stored| * Sum(sizes, |sizes|)
       && forall j :: 0 <= j < |stored| ==> stored[j] == Encoded(Slice(data, sizes, |stored|, j), digest)
  }

  /** Decode every block of a stored file. */
  method DecodeBlocks(stored: seq<Bytes>, sizes: seq<nat>, ghost columns: seq<seq<Bytes>>, ghost digest: Bytes -> Bytes)
    returns (blocks: seq<seq<Bytes>>)
    requires Digest(digest) && |columns| == |stored|
    requires forall j :: 0 <= j < |stored| ==> SizesOf(columns[j], sizes) && stored[j] == Encoded(columns[j], digest)
    ensures blocks == columns
  {
    blocks := [];
    var j := 0;
    while j < |stored|
      invariant 0 <= j <= |stored|
      invariant blocks == columns[..j]
    {
      var parts := DecodeBlock(stored[j], sizes, columns[j], digest);
      blocks := blocks + [parts.value];
      j := j + 1;
    }
    assert columns[..|columns|] == columns;
  }

  /**
    Striping a file over any chunk sizes, whatever it is padded with, then decoding, interleaving
    and truncating returns the file.
   */
  method DecodeFile(stored: seq<Bytes>, g: Geometry, size: nat, ghost file: Bytes, ghost padding: Bytes, ghost digest: Bytes -> Bytes)
    returns (plaintext: Bytes)
    requires Digest(digest) && |file| == size && StoredAs(stored, file + padding, g, digest)
    ensures plaintext == file
  {
    var sizes := ChunkSizes(g);
    ghost var columns := seq(|stored|, j requires 0 <= j < |stored| => Slice(file + padding, sizes, |stored|, j));
    var blocks := DecodeBlocks(stored, sizes, columns, digest);
    plaintext := Interleave(blocks, sizes, size, file + padding);
    assert (file + padding)[..size] == file;
  }

  /**
    Every file of at least one byte has such a stored form under its plan, for every slice count and
    every chunk size the plan is for, with less than eight bytes of padding per slice.
   */
  lemma EveryFileCanBeStored(file: Bytes, n: nat, chunk: int, digest: Bytes -> Bytes) returns (stored: seq<Bytes>, padding: Bytes)
    requires Supported(|file|, n, chunk) && Digest(digest)
    ensures |stored| == n && |padding| < 8 * n
    ensures StoredAs(stored, file + padding, Derived(|file|, n, chunk), digest)
  {
    var g := Derived(|file|, n, chunk);
    DerivedIsWellShaped(|file|, n, chunk);
    PaddingIsSmall(|file|, n, chunk, g);
    var sizes := SizesOfSlice(g);
    SumOfSlice(g);
    padding := seq(n * SliceData(g) - |file|, _ => 0);
    var data := file + padding;
    stored := seq(n, j requires 0 <= j < n => Encoded(Slice(data, sizes, n, j), digest));
  }

  lemma SumOfSlice(g: Geometry)
    requires Positive(g)
    ensures Sum(SizesOfSlice(g), |SizesOfSlice(g)|) == SliceData(g)
  {
    var sizes := SizesOfSlice(g);
    SumOfStandard(g, g.count);
  }

  lemma {:induction false} SumOfStandard(g: Geometry, k: nat)
    requires Positive(g) && k <= g.count
    ensures Sum(SizesOfSlice(g), k + 1) == g.start + k * g.standard
  {
    var sizes := SizesOfSlice(g);
    if k > 0 {
      SumOfStandard(g, k - 1);
    } else {
      assert Sum(sizes, 1) == Sum(sizes, 0) + sizes[0];
    }
  }
}
