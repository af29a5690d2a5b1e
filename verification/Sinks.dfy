/**
 * Where received chunks go, as values: a file stream written at absolute
 * positions, or a keyed store whose rows are joined in index order at the end
 * (fileWriter.ts, db.ts).  Storage.dfy has the classes.
 */
module Sinks {
  import opened Basics
  import opened Chunking

  datatype SinkState = Disk(stream: seq<byte>) | Keyed(rows: map<nat, seq<byte>>)

  /** A positional write; a gap before the position is filled with zeros. */
  function WriteAt(stream: seq<byte>, position: nat, data: seq<byte>): (s: seq<byte>)
    ensures |s| == if |stream| < position + |data| then position + |data| else |stream|
    ensures s[position .. position + |data|] == data
    ensures forall p :: 0 <= p < |stream| && !(position <= p < position + |data|) ==> s[p] == stream[p]
  {
    var padded := if |stream| < position then stream + seq(position - |stream|, _ => 0) else stream;
    padded[..position] + data + padded[Min(position + |data|, |padded|)..]
  }

  function Write(sink: SinkState, chunkIndex: nat, byteOffset: nat, data: seq<byte>): SinkState {
    match sink
    case Disk(stream) => Disk(WriteAt(stream, byteOffset, data))
    case Keyed(rows) => Keyed(rows[chunkIndex := data])
  }

  function RowAt(rows: map<nat, seq<byte>>, i: nat): seq<byte> {
    if i in rows then rows[i] else []
  }

  /** The rows with an index below n, joined in index order. */
  function JoinRows(rows: map<nat, seq<byte>>, n: nat): (s: seq<byte>) {
    if n == 0 then [] else JoinRows(rows, n - 1) + RowAt(rows, n - 1)
  }

  /** Some number above every index in `keys`. */
  ghost function Above(keys: set<nat>): (n: nat)
    ensures forall k :: k in keys ==> k < n
  {
    if keys == {} then 0
    else
      var k :| k in keys;
      var n := Above(keys - {k});
      assert forall j :: j in keys ==> j == k || j in keys - {k};
      if k < n then n else k + 1
  }

  /** The bytes the user ends up with. */
  ghost function Output(sink: SinkState): seq<byte> {
    match sink
    case Disk(stream) => stream
    case Keyed(rows) => JoinRows(rows, Above(rows.Keys))
  }

  /** Indices without a row add nothing. */
  lemma {:induction false} JoinRowsEnough(rows: map<nat, seq<byte>>, n: nat, m: nat)
    requires n <= m && forall k :: k in rows ==> k < n || m <= k
    ensures JoinRows(rows, m) == JoinRows(rows, n)
  {
    if n < m {
      JoinRowsEnough(rows, n, m - 1);
      assert m - 1 !in rows;
    }
  }

  /** A sink that holds exactly the chunks of f named by `order`, each at its place. */
  ghost predicate Holds(f: SourceFile, sink: SinkState, order: seq<nat>)
    requires f.Valid()
  {
    match sink
    case Disk(stream) =>
      && |stream| <= |f.content|
      && forall k :: k in order ==> HoldsAt(f, stream, k)
    case Keyed(rows) =>
      && (forall k :: k in order <==> k in rows)
      && (forall k :: k in rows ==> rows[k] == f.Chunk(k))
  }

  ghost predicate HoldsAt(f: SourceFile, stream: seq<byte>, k: nat)
    requires f.Valid()
  {
    HoldsBytes(stream, Start(f.chunkSize, k), f.Chunk(k))
  }

  ghost predicate HoldsBytes(stream: seq<byte>, p: nat, data: seq<byte>) {
    p + |data| <= |stream| && stream[p .. p + |data|] == data
  }

  function Empty(onDisk: bool): SinkState {
    if onDisk then Disk([]) else Keyed(map[])
  }

  /** Writing one more chunk of the file, new or repeated, disturbs none of the others. */
  lemma WriteHolds(f: SourceFile, sink: SinkState, order: seq<nat>, k: nat)
    requires f.Valid() && Holds(f, sink, order)
    requires k < f.Total() && Below(order, f.Total())
    ensures Holds(f, Write(sink, k, Start(f.chunkSize, k), f.Chunk(k)), order + [k])
  {
    if sink.Disk? {
      var s := WriteAt(sink.stream, Start(f.chunkSize, k), f.Chunk(k));
      ChunkExtent(f, k);
      forall j | j in order + [k]
        ensures HoldsAt(f, s, j)
      {
        if j != k {
          WriteElsewhere(f, sink.stream, k, j);
        }
      }
    }
  }

  lemma WriteElsewhere(f: SourceFile, stream: seq<byte>, k: nat, j: nat)
    requires f.Valid() && j != k && HoldsAt(f, stream, j)
    ensures HoldsAt(f, WriteAt(stream, Start(f.chunkSize, k), f.Chunk(k)), j)
  {
    ChunksApart(f, j, k);
    WriteAtElsewhere(stream, Start(f.chunkSize, k), f.Chunk(k), Start(f.chunkSize, j), f.Chunk(j));
  }

  lemma WriteAtElsewhere(stream: seq<byte>, position: nat, data: seq<byte>, p: nat, held: seq<byte>)
    requires HoldsBytes(stream, p, held) && (p + |held| <= position || position + |data| <= p)
    ensures HoldsBytes(WriteAt(stream, position, data), p, held)
  {
    var s := WriteAt(stream, position, data);
    var after, before := s[p .. p + |held|], stream[p .. p + |held|];
    forall o | 0 <= o < |held|
      ensures after[o] == before[o]
    {
      assert s[p + o] == stream[p + o];
    }
  }

  lemma HeldByte(f: SourceFile, stream: seq<byte>, i: nat, p: nat)
    requires f.Valid() && HoldsAt(f, stream, i)
    requires LiesIn(f, p, i)
    ensures p < |stream| && stream[p] == f.Chunk(i)[p - Start(f.chunkSize, i)]
  {
    var from := Start(f.chunkSize, i);
    assert stream[from .. from + |f.Chunk(i)|][p - from] == f.Chunk(i)[p - from];
  }

  /** A sink that holds every non-empty chunk yields the file. */
  lemma CompleteSink(f: SourceFile, sink: SinkState, order: seq<nat>)
    requires f.Valid() && Holds(f, sink, order)
    requires Below(order, f.Total())
    requires Covers(f, order)
    ensures Output(sink) == f.content
  {
    match sink
    case Disk(stream) =>
      if |f.content| > 0 {
        var i := ChunksTile(f, |f.content| - 1);
        HeldByte(f, stream, i, |f.content| - 1);
      }
      forall p | 0 <= p < |f.content|
        ensures stream[p] == f.content[p]
      {
        var i := ChunksTile(f, p);
        HeldByte(f, stream, i, p);
      }
      assert stream == f.content;
    case Keyed(rows) =>
      var n := Above(rows.Keys);
      var m := if n < f.Total() then f.Total() else n;
      JoinRowsEnough(rows, n, m);
      JoinRowsEnough(rows, f.Total(), m);
      forall i: nat | i < f.Total()
        ensures RowAt(rows, i) == f.Chunk(i)
      {
        if i !in rows { assert |f.Chunk(i)| == 0; }
      }
      JoinedChunks(f, rows, f.Total());
      BeforeAll(f);
  }

  lemma {:induction false} JoinedChunks(f: SourceFile, rows: map<nat, seq<byte>>, n: nat)
    requires f.Valid()
    requires forall i: nat :: i < n ==> RowAt(rows, i) == f.Chunk(i)
    ensures JoinRows(rows, n) == f.Before(n)
    decreases n
  {
    if n == 0 {
      BeforeAll(f);
    } else {
      var k: nat := n - 1;
      calc {
        JoinRows(rows, n);
        JoinRows(rows, k) + RowAt(rows, k);
        { JoinedChunks(f, rows, k); }
        f.Before(k) + f.Chunk(k);
        { BeforeStep(f, k); }
        f.Before(n);
      }
    }
  }

  // ----- the two sinks agree -----

  /** Chunks of f written in the given order. */
  function WriteAll(f: SourceFile, sink: SinkState, order: seq<nat>): SinkState
    requires f.Valid()
  {
    if order == [] then sink
    else
      var k := order[|order| - 1];
      Write(WriteAll(f, sink, order[..|order| - 1]), k, Start(f.chunkSize, k), f.Chunk(k))
  }

  lemma {:induction false} WriteAllHolds(f: SourceFile, onDisk: bool, order: seq<nat>)
    requires f.Valid() && Below(order, f.Total())
    ensures Holds(f, WriteAll(f, Empty(onDisk), order), order)
  {
    if order != [] {
      var init, k := order[..|order| - 1], order[|order| - 1];
      assert order == init + [k];
      assert k in order && forall j :: j in init ==> j in order;
      WriteAllHolds(f, onDisk, init);
      WriteHolds(f, WriteAll(f, Empty(onDisk), init), init, k);
    }
  }

  /**
   * Positional writes and keyed puts give the same bytes, the file's own, for
   * every order of writes that covers it, repetitions included.
   */
  lemma SinksAgree(f: SourceFile, order: seq<nat>, order': seq<nat>)
    requires f.Valid()
    requires Below(order, f.Total()) && Below(order', f.Total())
    requires forall i: nat :: i < f.Total() ==> i in order && i in order'
    ensures Output(WriteAll(f, Empty(true), order)) == f.content
    ensures Output(WriteAll(f, Empty(false), order')) == f.content
  {
    WriteAllHolds(f, true, order);
    WriteAllHolds(f, false, order');
    CompleteSink(f, WriteAll(f, Empty(true), order), order);
    CompleteSink(f, WriteAll(f, Empty(false), order'), order');
  }
}
