/**
 * How a file is cut into chunks: the size ladder (chunkSize.ts), the chunk
 * count written into the metadata (SenderSession.start) and the slices that the
 * pump reads.  The lemmas say that the slices tile the file.
 */
module Chunking {
  import opened Basics

  const CHUNK_SIZE_LADDER: seq<nat> := [64 * 1024, 128 * 1024, 256 * 1024, 512 * 1024, 1024 * 1024]

  const UINT32_VALUES: nat := 0x1_0000_0000

  /** A file as the sender reads it: its queue entry and its bytes. */
  datatype SourceFile = SourceFile(id: string, content: seq<byte>, chunkSize: nat) {
    ghost predicate Valid() { chunkSize > 0 }

    function Total(): (n: nat)
      requires Valid()
    {
      TotalChunks(|content|, chunkSize)
    }

    function Chunk(i: nat): seq<byte>
      requires Valid()
    {
      Slice(content, chunkSize, i)
    }

    /** The bytes before chunk n. */
    function Before(n: nat): seq<byte>
      requires Valid()
    {
      content[..Min(Start(chunkSize, n), |content|)]
    }
  }

  // ----- chunk size -----

  /** `userPreference` and `deviceMemoryGb` may be absent; the latter then counts as 4. */
  function SelectChunkSize(fileSize: nat, userPreference: Option<nat>, deviceMemoryGb: Option<real>): (size: nat)
    ensures size in CHUNK_SIZE_LADDER
  {
    if userPreference.Some? && userPreference.value in CHUNK_SIZE_LADDER then userPreference.value
    else
      var memory := if deviceMemoryGb.Some? then deviceMemoryGb.value else 4.0;
      var size :=
        if fileSize < 8 * 1024 * 1024 then CHUNK_SIZE_LADDER[0]
        else if fileSize < 128 * 1024 * 1024 then CHUNK_SIZE_LADDER[1]
        else if fileSize < 1024 * 1024 * 1024 then CHUNK_SIZE_LADDER[2]
        else if fileSize < 4 * 1024 * 1024 * 1024 then CHUNK_SIZE_LADDER[3]
        else CHUNK_SIZE_LADDER[4];
      if memory <= 2.0 && CHUNK_SIZE_LADDER[2] < size then CHUNK_SIZE_LADDER[2] else size
  }

  /** `Math.ceil(size / chunkSize) || 1`, counted chunk by chunk; see TotalChunksIsCeiling. */
  function TotalChunks(size: nat, chunkSize: nat): (n: nat)
    requires chunkSize > 0
    ensures n >= 1
  {
    if size <= chunkSize then 1 else 1 + TotalChunks(size - chunkSize, chunkSize)
  }

  lemma {:induction false} TotalChunksIsCeiling(size: nat, chunkSize: nat)
    requires chunkSize > 0
    ensures TotalChunks(size, chunkSize) == if size == 0 then 1 else (size + chunkSize - 1) / chunkSize
  {
    if size > chunkSize {
      TotalChunksIsCeiling(size - chunkSize, chunkSize);
      OneMoreChunk(size - 1, chunkSize);
    } else if size > 0 {
      OneMoreChunk(size - 1, chunkSize);
      assert (size - 1) / chunkSize == 0;
    }
  }

  lemma OneMoreChunk(x: nat, chunkSize: nat)
    requires chunkSize > 0
    ensures (x + chunkSize) / chunkSize == x / chunkSize + 1
  {
    var q, r := x / chunkSize, x % chunkSize;
    assert x + chunkSize == (q + 1) * chunkSize + r;
    DivisionIsUnique(x + chunkSize, chunkSize, q + 1, r);
  }

  lemma DivisionIsUnique(x: nat, d: nat, q: nat, r: nat)
    requires d > 0 && x == q * d + r && r < d
    ensures x / d == q
  {
    var q', r' := x / d, x % d;
    assert x == q' * d + r' && 0 <= r' < d;
    assert (q - q') * d == r' - r;
    SmallMultiple(q - q', d);
  }

  lemma SmallMultiple(k: int, d: nat)
    requires 0 - d < k * d < d
    ensures k == 0
  {}

  /** The chunk count is the least one whose chunks reach the end of the file. */
  lemma {:induction false} TotalChunksBounds(size: nat, chunkSize: nat)
    requires chunkSize > 0
    ensures var n := TotalChunks(size, chunkSize);
            (size > 0 ==> Start(chunkSize, n - 1) < size) && size <= Start(chunkSize, n)
  {
    if size > chunkSize {
      TotalChunksBounds(size - chunkSize, chunkSize);
    }
  }

  /**
   * Every chunk index of a file fits in 32 bits exactly when the file is at most
   * 2^52 bytes, or 2^50 bytes on a device that reports at most 2 GB of memory.
   */
  lemma ChunkIndicesFit(fileSize: nat, deviceMemoryGb: Option<real>)
    ensures TotalChunks(fileSize, SelectChunkSize(fileSize, None, deviceMemoryGb)) <= UINT32_VALUES
            <==> fileSize <= (if deviceMemoryGb.Some? && deviceMemoryGb.value <= 2.0 then 0x4_0000_0000_0000 else 0x10_0000_0000_0000)
  {
    TotalChunksIsCeiling(fileSize, SelectChunkSize(fileSize, None, deviceMemoryGb));
  }

  // ----- slices -----

  /** Byte offset of chunk i: i * chunkSize, as StartIsProduct says. */
  function Start(chunkSize: nat, i: nat): (p: nat) {
    if i == 0 then 0 else Start(chunkSize, i - 1) + chunkSize
  }

  lemma {:induction false} StartIsProduct(chunkSize: nat, i: nat)
    ensures Start(chunkSize, i) == i * chunkSize
  {
    if i > 0 {
      StartIsProduct(chunkSize, i - 1);
      assert i * chunkSize == (i - 1) * chunkSize + chunkSize;
    }
  }

  /** `file.slice(start, min(start + chunkSize, size))`; Blob.slice clamps both ends to the size. */
  function Slice(content: seq<byte>, chunkSize: nat, i: nat): (s: seq<byte>) {
    var from := Min(Start(chunkSize, i), |content|);
    content[from .. Min(from + chunkSize, |content|)]
  }

  lemma StartStep(chunkSize: nat, i: nat)
    ensures Start(chunkSize, i + 1) == Start(chunkSize, i) + chunkSize
  {}

  lemma {:induction false} StartMonotone(chunkSize: nat, i: nat, j: nat)
    requires i < j
    ensures Start(chunkSize, i) + chunkSize <= Start(chunkSize, j)
  {
    StartStep(chunkSize, j - 1);
    if i < j - 1 { StartMonotone(chunkSize, i, j - 1); }
  }

  /** Where a chunk that belongs to the file starts, and how long it is. */
  lemma ChunkExtent(f: SourceFile, i: nat)
    requires f.Valid() && i < f.Total()
    ensures Start(f.chunkSize, i) <= |f.content|
    ensures |f.Chunk(i)| == Min(f.chunkSize, |f.content| - Start(f.chunkSize, i))
    ensures |f.content| > 0 ==> |f.Chunk(i)| > 0
  {
    if |f.content| > 0 {
      TotalChunksBounds(|f.content|, f.chunkSize);
      if i < f.Total() - 1 { StartMonotone(f.chunkSize, i, f.Total() - 1); }
      assert Start(f.chunkSize, f.Total() - 1) < |f.content|;
    } else {
      assert i == 0;
    }
  }

  /** Different chunks do not overlap. */
  lemma ChunksApart(f: SourceFile, j: nat, k: nat)
    requires f.Valid() && j != k
    ensures Start(f.chunkSize, j) + |f.Chunk(j)| <= Start(f.chunkSize, k)
            || Start(f.chunkSize, k) + |f.Chunk(k)| <= Start(f.chunkSize, j)
  {
    if j < k { StartMonotone(f.chunkSize, j, k); } else { StartMonotone(f.chunkSize, k, j); }
  }

  lemma BeforeStep(f: SourceFile, n: nat)
    requires f.Valid()
    ensures f.Before(n + 1) == f.Before(n) + f.Chunk(n)
  {
    StartStep(f.chunkSize, n);
  }

  lemma BeforeLength(f: SourceFile, n: nat)
    requires f.Valid()
    ensures |f.Before(n + 1)| == |f.Before(n)| + |f.Chunk(n)|
  {
    BeforeStep(f, n);
  }

  lemma BeforeAll(f: SourceFile)
    requires f.Valid()
    ensures f.Before(0) == [] && f.Before(f.Total()) == f.content
  {
    if |f.content| > 0 {
      TotalChunksBounds(|f.content|, f.chunkSize);
    }
  }

  lemma {:induction false} ChunkAt(chunkSize: nat, p: nat, n: nat) returns (i: nat)
    requires p < Start(chunkSize, n)
    ensures i < n && Start(chunkSize, i) <= p < Start(chunkSize, i) + chunkSize
  {
    if Start(chunkSize, n - 1) <= p {
      i := n - 1;
    } else {
      i := ChunkAt(chunkSize, p, n - 1);
    }
  }

  lemma ChunkByte(f: SourceFile, i: nat, p: nat)
    requires f.Valid() && p < |f.content| && Start(f.chunkSize, i) <= p < Start(f.chunkSize, i) + f.chunkSize
    ensures p < Start(f.chunkSize, i) + |f.Chunk(i)| && f.Chunk(i)[p - Start(f.chunkSize, i)] == f.content[p]
  {}

  /** Byte p of the file lies in chunk i. */
  ghost predicate LiesIn(f: SourceFile, p: nat, i: nat)
    requires f.Valid()
  {
    Start(f.chunkSize, i) <= p < Start(f.chunkSize, i) + |f.Chunk(i)|
  }

  lemma LiesInOne(f: SourceFile, p: nat, i: nat, j: nat)
    requires f.Valid() && LiesIn(f, p, i) && LiesIn(f, p, j)
    ensures i == j
  {
    if i != j { ChunksApart(f, i, j); }
  }

  /** Each byte of the file lies in exactly one chunk, at the offset the positional write uses. */
  lemma ChunksTile(f: SourceFile, p: nat) returns (i: nat)
    requires f.Valid() && p < |f.content|
    ensures i < f.Total() && LiesIn(f, p, i)
    ensures f.Chunk(i)[p - Start(f.chunkSize, i)] == f.content[p]
    ensures forall j: nat :: LiesIn(f, p, j) ==> j == i
  {
    TotalChunksBounds(|f.content|, f.chunkSize);
    i := ChunkAt(f.chunkSize, p, f.Total());
    ChunkByte(f, i, p);
    forall j: nat | LiesIn(f, p, j)
      ensures j == i
    {
      LiesInOne(f, p, i, j);
    }
  }

  // ----- chunks in an arbitrary order -----

  /** The chunks named by `order`, one after the other. */
  function Join(f: SourceFile, order: seq<nat>): (s: seq<byte>)
    requires f.Valid()
  {
    if order == [] then [] else Join(f, order[..|order| - 1]) + f.Chunk(order[|order| - 1])
  }

  lemma JoinSnoc(f: SourceFile, order: seq<nat>, k: nat)
    requires f.Valid()
    ensures Join(f, order + [k]) == Join(f, order) + f.Chunk(k)
  {
    assert (order + [k])[..|order|] == order;
  }

  lemma {:induction false} JoinInOrder(f: SourceFile, n: nat)
    requires f.Valid()
    ensures Join(f, Iota(n)) == f.Before(n)
  {
    if n == 0 {
      BeforeAll(f);
    } else {
      JoinInOrder(f, n - 1);
      assert Iota(n) == Iota(n - 1) + [n - 1];
      JoinSnoc(f, Iota(n - 1), n - 1);
      BeforeStep(f, n - 1);
    }
  }

  /** Summed lengths of the chunks below n whose index occurs in `order`. */
  function BytesOf(f: SourceFile, order: seq<nat>, n: nat): (b: nat)
    requires f.Valid()
  {
    if n == 0 then 0
    else BytesOf(f, order, n - 1) + (if n - 1 in order then |f.Chunk(n - 1)| else 0)
  }

  lemma {:induction false} BytesOfSnoc(f: SourceFile, order: seq<nat>, k: nat, n: nat)
    requires f.Valid() && k !in order
    ensures BytesOf(f, order + [k], n) == BytesOf(f, order, n) + (if k < n then |f.Chunk(k)| else 0)
  {
    if n > 0 {
      BytesOfSnoc(f, order, k, n - 1);
    }
  }

  /** Concatenating distinct chunks adds up to the bytes of the distinct chunks. */
  lemma {:induction false} JoinLength(f: SourceFile, order: seq<nat>, n: nat)
    requires f.Valid() && Distinct(order) && Below(order, n)
    ensures |Join(f, order)| == BytesOf(f, order, n)
  {
    if order == [] {
      NoBytes(f, n);
    } else {
      var init, k := order[..|order| - 1], order[|order| - 1];
      assert order == init + [k];
      assert k in order && forall j :: j in init ==> j in order;
      JoinLength(f, init, n);
      BytesOfSnoc(f, init, k, n);
    }
  }

  lemma {:induction false} NoBytes(f: SourceFile, n: nat)
    requires f.Valid()
    ensures BytesOf(f, [], n) == 0
  {
    if n > 0 { NoBytes(f, n - 1); }
  }

  ghost predicate CoversBelow(f: SourceFile, order: seq<nat>, n: nat)
    requires f.Valid()
  {
    forall i: nat :: i < n && |f.Chunk(i)| > 0 ==> i in order
  }

  lemma CoversBelowStep(f: SourceFile, order: seq<nat>, n: nat)
    requires f.Valid()
    ensures CoversBelow(f, order, n + 1) <==> CoversBelow(f, order, n) && (|f.Chunk(n)| > 0 ==> n in order)
  {}

  /** At most the bytes before chunk n, and that many only if no non-empty chunk is missing. */
  lemma {:induction false} BytesOfBound(f: SourceFile, order: seq<nat>, n: nat)
    requires f.Valid()
    ensures BytesOf(f, order, n) <= |f.Before(n)|
    ensures BytesOf(f, order, n) == |f.Before(n)| <==> CoversBelow(f, order, n)
  {
    if n > 0 {
      BytesOfBound(f, order, n - 1);
      BeforeLength(f, n - 1);
      CoversBelowStep(f, order, n - 1);
    }
  }

  /** Every non-empty chunk occurs. */
  ghost predicate Covers(f: SourceFile, order: seq<nat>)
    requires f.Valid()
  {
    CoversBelow(f, order, f.Total())
  }

  /**
   * Distinct chunk indices whose chunks add up to the file's length leave no
   * chunk out, whatever their order (the empty chunk of an empty file aside).
   */
  lemma LengthForcesAllChunks(f: SourceFile, order: seq<nat>)
    requires f.Valid() && Distinct(order) && Below(order, f.Total())
    ensures |Join(f, order)| <= |f.content|
    ensures |Join(f, order)| == |f.content| <==> Covers(f, order)
  {
    JoinLength(f, order, f.Total());
    BytesOfBound(f, order, f.Total());
    BeforeAll(f);
  }
}
