/**
  Stripe geometry: how a file is cut into chunk sets, what a slice of it takes on disk, and that
  putting the chunks back together gives the file.
 */
module Stripe {
  import opened Prelude

  const FILE_HEADER_SIZE: int := 48
  const CHUNK_HEADER_SIZE: int := 16

  /** The least `r` with `b * r >= a`. */
  function CeilDiv(a: int, b: int): (r: int)
    requires b > 0
    ensures b * (r - 1) < a <= b * r
  {
    -((-a) / b)
  }

  lemma MulMonotone(b: int, x: int, y: int)
    requires b > 0 && x <= y
    ensures b * x <= b * y
  {
  }

  /** There is only one such number. */
  lemma CeilDivIsUnique(a: int, b: int, r: int)
    requires b > 0 && b * (r - 1) < a <= b * r
    ensures CeilDiv(a, b) == r
  {
  }

  lemma CeilDivShift(a: int, m: int, b: int)
    requires b > 0
    ensures CeilDiv(a - m * b, b) == CeilDiv(a, b) - m
  {
    var r := CeilDiv(a, b) - m;
    assert b * (r - 1) == b * (CeilDiv(a, b) - 1) - m * b;
    assert b * r == b * CeilDiv(a, b) - m * b;
    CeilDivIsUnique(a - m * b, b, r);
  }

  lemma CeilOrFloor(a: int, b: int)
    requires b > 0
    ensures CeilDiv(a, b) == a / b + (if a % b == 0 then 0 else 1)
  {
    var q := a / b;
    assert a == b * q + a % b;
    assert b * (q - 1) == b * q - b && b * (q + 1) == b * q + b;
    CeilDivIsUnique(a, b, if a % b == 0 then q else q + 1);
  }

  function Round8(x: int): (r: int)
    ensures r % 8 == 0 && x <= r < x + 8
  {
    CeilDiv(x, 8) * 8
  }

  class Plan {
    var fileSize: Option<int>
    var dataSliceCount: Option<int>
    var chunkSize: Option<int>
    var sliceSize: int
    var startChunkDataSize: int
    var standardChunkDataSize: int
    var endChunkDataSize: int
    var standardChunkCountPerSlice: int
    var standardChunkSetOffset: int
    var endChunkSetDataOffset: int

    constructor (fileSize: Option<int>, dataSliceCount: Option<int>, chunkSize: Option<int>)
      ensures this.fileSize == fileSize && this.dataSliceCount == dataSliceCount && this.chunkSize == chunkSize
    {
      this.fileSize, this.dataSliceCount, this.chunkSize := fileSize, dataSliceCount, chunkSize;
      sliceSize, startChunkDataSize, standardChunkDataSize, endChunkDataSize := 0, 0, 0, 0;
      standardChunkCountPerSlice, standardChunkSetOffset, endChunkSetDataOffset := 0, 0, 0;
    }

    function Shape(): Geometry
      reads this
    {
      Geometry(startChunkDataSize, standardChunkDataSize, standardChunkCountPerSlice, endChunkDataSize)
    }

    /** Fill in the derived fields, in the order they depend on each other. A plan that is not configured is refused. */
    method PopulateDerivedFields() returns (ok: bool)
      requires dataSliceCount.Some? ==> dataSliceCount.value >= 1
      requires chunkSize.Some? ==> chunkSize.value > CHUNK_HEADER_SIZE
      modifies this`sliceSize, this`startChunkDataSize, this`standardChunkDataSize, this`endChunkDataSize
      modifies this`standardChunkCountPerSlice, this`standardChunkSetOffset, this`endChunkSetDataOffset
      ensures ok <==> fileSize.Some? && dataSliceCount.Some? && chunkSize.Some?
      ensures ok ==> sliceSize == SliceSize(fileSize.value, dataSliceCount.value, chunkSize.value)
      ensures ok ==> Shape() == Derived(fileSize.value, dataSliceCount.value, chunkSize.value)
      ensures ok ==> standardChunkSetOffset == startChunkDataSize * dataSliceCount.value
      ensures ok ==> endChunkSetDataOffset == standardChunkSetOffset + standardChunkCountPerSlice * standardChunkDataSize * dataSliceCount.value
    {
      ok := fileSize.Some? && dataSliceCount.Some? && chunkSize.Some?;
      if !ok {
        return;
      }
      var size, n, chunk := fileSize.value, dataSliceCount.value, chunkSize.value;
      var sliceDataSize := CeilDiv(size, n);
      var startChunkSize := chunk - FILE_HEADER_SIZE;
      var chunkCount := 1 + CeilDiv(sliceDataSize - startChunkSize + CHUNK_HEADER_SIZE, chunk - CHUNK_HEADER_SIZE);
      sliceSize := FILE_HEADER_SIZE + sliceDataSize + CHUNK_HEADER_SIZE * chunkCount;
      standardChunkDataSize := chunk - CHUNK_HEADER_SIZE;
      startChunkDataSize := Min(standardChunkDataSize - FILE_HEADER_SIZE, size / n);
      startChunkDataSize := Max(1, startChunkDataSize);
      startChunkDataSize := Round8(startChunkDataSize);
      standardChunkSetOffset := startChunkDataSize * n;
      var bytesRemaining := Max(0, size - standardChunkSetOffset);
      var bytesRemainingPerSlice := CeilDiv(bytesRemaining, n);
      standardChunkCountPerSlice := bytesRemainingPerSlice / standardChunkDataSize;
      var totalBytesInStandardChunks := standardChunkCountPerSlice * standardChunkDataSize * n;
      var totalBytesBeforeEndChunkSet := standardChunkSetOffset + totalBytesInStandardChunks;
      var endChunkSetBytes := size - totalBytesBeforeEndChunkSet;
      endChunkSetDataOffset := size - endChunkSetBytes;
      endChunkDataSize := CeilDiv(endChunkSetBytes, n);
      endChunkDataSize := Round8(endChunkDataSize);
    }

    /** A plan the arithmetic is meant for comes out well shaped, with the slice size it reserves. */
    method ComputeSliceSize() returns (ok: bool)
      requires dataSliceCount.Some? ==> dataSliceCount.value >= 1
      requires chunkSize.Some? ==> chunkSize.value > CHUNK_HEADER_SIZE
      modifies this
      ensures fileSize == old(fileSize) && dataSliceCount == old(dataSliceCount) && chunkSize == old(chunkSize)
      ensures ok <==> fileSize.Some? && dataSliceCount.Some? && chunkSize.Some?
      ensures ok && Supported(fileSize.value, dataSliceCount.value, chunkSize.value) ==>
                && WellShaped(Shape(), fileSize.value, dataSliceCount.value, chunkSize.value)
                && sliceSize == SliceSize(fileSize.value, dataSliceCount.value, chunkSize.value)
    {
      ok := PopulateDerivedFields();
      if ok && Supported(fileSize.value, dataSliceCount.value, chunkSize.value) {
        DerivedIsWellShaped(fileSize.value, dataSliceCount.value, chunkSize.value);
      }
    }
  }

  /** The chunk sizes of one slice: a short first chunk, standard ones, and what is left. */
  datatype Geometry = Geometry(start: int, standard: int, count: int, end: int)

  /** What the arithmetic is meant for. */
  predicate Supported(size: int, n: int, chunk: int) {
    size >= 1 && n >= 1 && chunk % 8 == 0 && chunk >= 72
  }

  /** What a slice takes, as reserved on the disks. */
  function SliceSize(size: int, n: int, chunk: int): int
    requires n >= 1 && chunk > CHUNK_HEADER_SIZE
  {
    var data := CeilDiv(size, n);
    FILE_HEADER_SIZE + data
      + CHUNK_HEADER_SIZE * (1 + CeilDiv(data - (chunk - FILE_HEADER_SIZE) + CHUNK_HEADER_SIZE, chunk - CHUNK_HEADER_SIZE))
  }

  /** The data a slice carries, padding included. */
  function SliceData(g: Geometry): int {
    g.start + g.count * g.standard + g.end
  }

  /**
    Every chunk a multiple of 8; the first with both headers no longer than a chunk; the last
    between nothing and a standard chunk; and together one slice's share of the file rounded up to 8.
   */
  predicate SliceIsWellShaped(g: Geometry, share: int, standard: int) {
    && g.standard == standard && standard % 8 == 0
    && g.start > 0 && g.start % 8 == 0 && FILE_HEADER_SIZE + g.start <= standard
    && g.count >= 0
    && 0 <= g.end <= standard && g.end % 8 == 0
    && SliceData(g) == Round8(share)
    && (share <= g.start ==> g.count == 0 && g.end == 0)
  }

  predicate WellShaped(g: Geometry, size: int, n: int, chunk: int)
    requires n >= 1
  {
    SliceIsWellShaped(g, CeilDiv(size, n), chunk - CHUNK_HEADER_SIZE)
  }

  /** The geometry as the plan derives it. */
  function Derived(size: int, n: int, chunk: int): Geometry
    requires n >= 1 && chunk > CHUNK_HEADER_SIZE
  {
    var standard := chunk - CHUNK_HEADER_SIZE;
    var start := Round8(Max(1, Min(standard - FILE_HEADER_SIZE, size / n)));
    var count := CeilDiv(Max(0, size - start * n), n) / standard;
    Geometry(start, standard, count, Round8(CeilDiv(size - (start * n + count * standard * n), n)))
  }

  lemma MultipleOf8(m: int, k: int)
    requires k % 8 == 0
    ensures m * k % 8 == 0
  {
    var j := k / 8;
    assert m * k == 8 * (m * j);
  }

  lemma RemainingPerSlice(size: int, n: int, start: int)
    requires n >= 1
    ensures CeilDiv(Max(0, size - start * n), n) == Max(0, CeilDiv(size, n) - start)
  {
    CeilDivShift(size, start, n);
    var rest := size - start * n;
    var r := CeilDiv(rest, n);
    if rest >= 0 {
      if r < 0 {
        MulMonotone(n, r, -1);
      }
    } else {
      if r > 0 {
        MulMonotone(n, 0, r - 1);
      }
      CeilDivIsUnique(0, n, 0);
    }
  }

  lemma EndPerSlice(size: int, n: int, start: int, m: int)
    requires n >= 1
    ensures CeilDiv(size - (start * n + m * n), n) == CeilDiv(size, n) - start - m
  {
    CeilDivShift(size, start + m, n);
    assert (start + m) * n == start * n + m * n;
  }

  /** The geometry of a slice from its share of the file alone, rounded up and rounded down. */
  function PerSlice(share: int, floor: int, standard: int): Geometry
    requires standard >= 1
  {
    var start := Round8(Max(1, Min(standard - FILE_HEADER_SIZE, floor)));
    var count := Max(0, share - start) / standard;
    Geometry(start, standard, count, Round8(share - start - count * standard))
  }

  /** Counted per slice, the sizes no longer depend on how many slices there are. */
  lemma DerivedPerSlice(size: int, n: int, chunk: int)
    requires n >= 1 && chunk > CHUNK_HEADER_SIZE
    ensures Derived(size, n, chunk) == PerSlice(CeilDiv(size, n), size / n, chunk - CHUNK_HEADER_SIZE)
  {
    var g := Derived(size, n, chunk);
    RemainingPerSlice(size, n, g.start);
    EndPerSlice(size, n, g.start, g.count * g.standard);
  }

  lemma DivMod(a: int, b: int)
    requires b > 0
    ensures a == (a / b) * b + a % b && 0 <= a % b < b
  {
  }

  lemma StartIsWellShaped(share: int, floor: int, standard: int)
    requires standard % 8 == 0 && standard >= 56 && share >= 1 && floor <= share
    ensures var start := Round8(Max(1, Min(standard - FILE_HEADER_SIZE, floor)));
            0 < start && start % 8 == 0 && FILE_HEADER_SIZE + start <= standard && start <= Round8(share)
  {
  }

  /** The end chunk is what rounding leaves over; it is empty, part of a standard chunk, or all but full of one. */
  lemma EndIsWellShaped(share: int, start: int, standard: int, m: int, end: int)
    requires standard % 8 == 0 && m % 8 == 0 && start % 8 == 0 && start <= Round8(share)
    requires if share <= start then m == 0 else 0 <= share - start - m < standard
    requires end == Round8(share - (start + m))
    ensures 0 <= end <= standard || share <= start
    ensures share <= start ==> end == 0
    ensures start + m + end == Round8(share)
  {
  }

  lemma CountIsWellShaped(share: int, start: int, standard: int)
    requires standard >= 56
    ensures var count := Max(0, share - start) / standard;
            count >= 0 && (if share <= start then count == 0 else 0 <= share - start - count * standard < standard)
  {
  }

  lemma PerSliceIsWellShaped(share: int, floor: int, standard: int)
    requires standard % 8 == 0 && standard >= 56 && share >= 1 && floor <= share <= floor + 1
    ensures SliceIsWellShaped(PerSlice(share, floor, standard), share, standard)
  {
    var g := PerSlice(share, floor, standard);
    StartIsWellShaped(share, floor, standard);
    CountIsWellShaped(share, g.start, standard);
    var m := g.count * standard;
    MultipleOf8(g.count, standard);
    if share <= g.start {
      assert m == 0;
    }
    EndIsWellShaped(share, g.start, standard, m, g.end);
  }

  lemma DerivedIsWellShaped(size: int, n: int, chunk: int)
    requires Supported(size, n, chunk)
    ensures WellShaped(Derived(size, n, chunk), size, n, chunk)
  {
    StandardIsMultipleOf8(chunk);
    DerivedPerSlice(size, n, chunk);
    ShareIsPositive(size, n);
    PerSliceIsWellShaped(CeilDiv(size, n), size / n, chunk - CHUNK_HEADER_SIZE);
  }

  lemma StandardIsMultipleOf8(chunk: int)
    requires chunk % 8 == 0
    ensures (chunk - CHUNK_HEADER_SIZE) % 8 == 0
  {
  }

  lemma ShareIsPositive(size: int, n: int)
    requires size >= 1 && n >= 1
    ensures CeilDiv(size, n) >= 1 && size / n <= CeilDiv(size, n) <= size / n + 1
    ensures CeilDiv(size, n) == size / n <==> size % n == 0
  {
    CeilOrFloor(size, n);
    if CeilDiv(size, n) < 1 {
      MulMonotone(n, CeilDiv(size, n), 0);
    }
  }

  /** The chunk sets hold the whole file, with fewer than eight bytes of padding per slice. */
  lemma PaddingIsSmall(size: int, n: int, chunk: int, g: Geometry)
    requires Supported(size, n, chunk) && WellShaped(g, size, n, chunk)
    ensures size <= n * SliceData(g) < size + 8 * n
  {
    var share, data := CeilDiv(size, n), SliceData(g);
    MulMonotone(n, share, data);
    MulMonotone(n, data, share + 7);
    assert n * (share + 7) == n * (share - 1) + 8 * n;
  }

  // ---------------------------------------------------------------------------------------------
  // The database's own copy of the slice size, for rows that do not carry one.

  /** The stored size if there is one; otherwise the formula over the row, every missing field defaulted. */
  function RowSliceSize(stored: Option<int>, size: Option<int>, dataVolumes: Option<seq<nat>>, chunkSize: Option<int>, configured: int): int
    requires configured > CHUNK_HEADER_SIZE && (chunkSize.Some? ==> chunkSize.value > CHUNK_HEADER_SIZE)
  {
    match stored
    case Some(s) => s
    case None =>
      RowFormula(
        if size.Some? then size.value else 0,
        Max(if dataVolumes.Some? then |dataVolumes.value| else 0, 1),
        if chunkSize.Some? then chunkSize.value else configured)
  }

  function RowFormula(bytes: int, n: int, chunk: int): int
    requires n >= 1 && chunk > CHUNK_HEADER_SIZE
  {
    var share := CeilDiv(bytes, n);
    FILE_HEADER_SIZE + share
      + CHUNK_HEADER_SIZE * Max(1, 1 + CeilDiv(share - (chunk - FILE_HEADER_SIZE) + CHUNK_HEADER_SIZE, chunk - CHUNK_HEADER_SIZE))
  }

  /** A stored size is taken as it is; a row with a field missing counts as one with no bytes, one volume, or the configured chunk. */
  lemma RowWithFieldsMissing(stored: int, size: Option<int>, dataVolumes: Option<seq<nat>>, chunkSize: Option<int>, configured: int, v: nat)
    requires configured > CHUNK_HEADER_SIZE && (chunkSize.Some? ==> chunkSize.value > CHUNK_HEADER_SIZE)
    ensures RowSliceSize(Some(stored), size, dataVolumes, chunkSize, configured) == stored
    ensures RowSliceSize(None, size, dataVolumes, None, configured) == RowSliceSize(None, size, dataVolumes, Some(configured), configured)
    ensures RowSliceSize(None, None, dataVolumes, chunkSize, configured) == RowSliceSize(None, Some(0), dataVolumes, chunkSize, configured)
    ensures dataVolumes == None || dataVolumes == Some([]) ==>
              RowSliceSize(None, size, dataVolumes, chunkSize, configured) == RowSliceSize(None, size, Some([v]), chunkSize, configured)
  {
  }

  /** It is the plan's slice size, for every size including none: the outer maximum never decides. */
  lemma RowAgreesWithPlan(size: int, volumes: seq<nat>, chunk: int, configured: int)
    requires size >= 0 && |volumes| >= 1 && chunk > CHUNK_HEADER_SIZE && configured > CHUNK_HEADER_SIZE
    ensures RowSliceSize(None, Some(size), Some(volumes), Some(chunk), configured) == SliceSize(size, |volumes|, chunk)
  {
    var n := |volumes|;
    var share := CeilDiv(size, n);
    if share < 0 {
      MulMonotone(n, share, -1);
    }
    var standard := chunk - CHUNK_HEADER_SIZE;
    var more := CeilDiv(share - (chunk - FILE_HEADER_SIZE) + CHUNK_HEADER_SIZE, standard);
    if more < 0 {
      MulMonotone(standard, more, -1);
    }
  }

  // ---------------------------------------------------------------------------------------------
  // The stream a slice is written as: the file header, then each chunk with its own header.

  function StreamLength(g: Geometry): int {
    FILE_HEADER_SIZE + SliceData(g) + CHUNK_HEADER_SIZE * (1 + MoreChunks(g))
  }

  /** A first chunk shorter than it could be, exactly filled, and one byte of share left over. */
  predicate ShortFirstChunkOverflows(size: int, n: int, chunk: int)
    requires n >= 1
  {
    var q := size / n;
    size % n != 0 && q % 8 == 0 && 0 < q < chunk - CHUNK_HEADER_SIZE - FILE_HEADER_SIZE
  }

  lemma ChunksInFull(share: int, g: Geometry)
    requires g.standard >= 8 && g.standard % 8 == 0 && share > g.start
    requires g.count == (share - g.start) / g.standard && g.end == Round8(share - g.start - g.count * g.standard)
    ensures MoreChunks(g) == CeilDiv(share - g.start, g.standard)
  {
    var rest := share - g.start;
    DivMod(rest, g.standard);
    CeilOrFloor(rest, g.standard);
  }

  /**
    The stream is longer than the size reserved for it by what the rounding to 8 adds, 0 to 7 bytes,
    except that a short first chunk that overflows into an 8-byte end chunk makes it exactly 23.
   */
  lemma StreamExceedsReservation(size: int, n: int, chunk: int)
    requires Supported(size, n, chunk)
    ensures var g := Derived(size, n, chunk);
            var excess := StreamLength(g) - SliceSize(size, n, chunk);
            if ShortFirstChunkOverflows(size, n, chunk) then excess == 23 && g.end == 8
            else 0 <= excess <= 7
  {
    var g, share, q := Derived(size, n, chunk), CeilDiv(size, n), size / n;
    StandardIsMultipleOf8(chunk);
    DerivedPerSlice(size, n, chunk);
    ShareIsPositive(size, n);
    PerSliceIsWellShaped(share, q, g.standard);
    if q >= g.standard - FILE_HEADER_SIZE {
      ChunksAfterFullStart(share, q, g.standard);
    } else {
      ChunksAfterShortStart(share, q, g.standard);
    }
  }

  /** The chunks of a slice behind its first. */
  function MoreChunks(g: Geometry): int {
    g.count + (if g.end > 0 then 1 else 0)
  }

  /** A first chunk as long as it can be: as many chunks as were reserved for. */
  lemma ChunksAfterFullStart(share: int, floor: int, standard: int)
    requires standard % 8 == 0 && standard >= 56 && share >= 1 && floor <= share <= floor + 1 && floor >= standard - FILE_HEADER_SIZE
    ensures MoreChunks(PerSlice(share, floor, standard)) == CeilDiv(share - (standard - FILE_HEADER_SIZE), standard)
  {
    var g := PerSlice(share, floor, standard);
    PerSliceIsWellShaped(share, floor, standard);
    assert g.start == standard - FILE_HEADER_SIZE;
    if share > g.start {
      ChunksInFull(share, g);
    } else {
      CeilDivIsUnique(share - g.start, standard, 0);
    }
  }

  /** A shorter first chunk: no more chunks, unless it is exactly filled and a byte is left over. */
  lemma ChunksAfterShortStart(share: int, floor: int, standard: int)
    requires standard % 8 == 0 && standard >= 56 && share >= 1 && floor <= share <= floor + 1 && floor < standard - FILE_HEADER_SIZE
    ensures CeilDiv(share - (standard - FILE_HEADER_SIZE), standard) == 0
    ensures var g := PerSlice(share, floor, standard);
            if share == floor + 1 && floor % 8 == 0 && 0 < floor
            then g.end == 8 && MoreChunks(g) == 1 && Round8(share) == share + 7
            else MoreChunks(g) == 0
  {
    var g := PerSlice(share, floor, standard);
    CeilDivIsUnique(share - (standard - FILE_HEADER_SIZE), standard, 0);
    ShortStart(share, floor, g.start);
    assert 0 <= Max(0, share - g.start) < standard;
    SmallQuotient(Max(0, share - g.start), standard);
    assert g.count * standard == 0;
  }

  lemma ShortStart(share: int, floor: int, start: int)
    requires share >= 1 && floor <= share <= floor + 1 && start == Round8(Max(1, floor))
    ensures if share == floor + 1 && floor % 8 == 0 && 0 < floor
            then start == floor && Round8(share - start) == 8 && Round8(share) == share + 7
            else share <= start && Round8(share - start) == 0
  {
  }

  lemma SmallQuotient(a: int, b: int)
    requires 0 <= a < b
    ensures a / b == 0
  {
  }
}
