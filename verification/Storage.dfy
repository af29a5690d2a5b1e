/** The chunk store (chunkRepository in db.ts) and the two sinks (fileWriter.ts), updated in place. */
module Storage {
  import opened Basics
  import Sinks

  datatype ChunkRecord = ChunkRecord(fileId: string, chunkIndex: nat, data: seq<byte>)

  // ----- row keys -----

  function Decimal(n: nat): (s: string)
    ensures |s| > 0
    ensures forall c :: c in s ==> '0' <= c <= '9'
  {
    var last := ['0' + (n % 10) as char];
    if n < 10 then last else Decimal(n / 10) + last
  }

  /** `${fileId}:${chunkIndex}` */
  function RowKey(fileId: string, chunkIndex: nat): string {
    fileId + ":" + Decimal(chunkIndex)
  }

  lemma {:induction false} DecimalInjective(m: nat, n: nat)
    requires Decimal(m) == Decimal(n)
    ensures m == n
  {
    var s := Decimal(m);
    assert s[|s| - 1] == '0' + (m % 10) as char;
    assert s[|s| - 1] == '0' + (n % 10) as char;
    assert m % 10 == n % 10;
    if m >= 10 && n >= 10 {
      assert s[..|s| - 1] == Decimal(m / 10);
      assert s[..|s| - 1] == Decimal(n / 10);
      DecimalInjective(m / 10, n / 10);
    }
  }

  /** No two chunks, of the same file or of different files, ever share a row, whatever the file ids are. */
  lemma RowKeyInjective(f: string, i: nat, g: string, j: nat)
    requires RowKey(f, i) == RowKey(g, j)
    ensures f == g && i == j
  {
    var s, a, b := RowKey(f, i), Decimal(i), Decimal(j);
    if |a| < |b| {
      ColonInside(f, a, g, b);
    } else if |b| < |a| {
      ColonInside(g, b, f, a);
    }
    assert |f| == |g|;
    assert s[..|f|] == f && s[..|g|] == g;
    assert s[|f| + 1..] == a && s[|g| + 1..] == b;
    DecimalInjective(i, j);
  }

  lemma ColonInside(f: string, a: string, g: string, b: string)
    requires |a| < |b| && f + ":" + a == g + ":" + b
    ensures ':' in b
  {
    var s := f + ":" + a;
    var p := |s| - |a| - 1;
    assert s[p] == ':';
    assert (g + ":" + b)[p] == b[p - |g| - 1];
  }

  // ----- the store -----

  /** Every row is stored under its own key. */
  ghost predicate ValidRows(rows: map<string, ChunkRecord>) {
    forall key :: key in rows ==> key == RowKey(rows[key].fileId, rows[key].chunkIndex)
  }

  ghost function Indices(rows: map<string, ChunkRecord>, fileId: string): set<nat> {
    set key | key in rows && rows[key].fileId == fileId :: rows[key].chunkIndex
  }

  /** What the rows hold for one file: chunk index to bytes. */
  ghost function RowsOf(rows: map<string, ChunkRecord>, fileId: string): map<nat, seq<byte>>
    requires ValidRows(rows)
  {
    map i | i in Indices(rows, fileId) :: rows[RowKey(fileId, i)].data
  }

  /** A file has a chunk exactly when that chunk's key has a row. */
  lemma KeyedRow(rows: map<string, ChunkRecord>, fileId: string, i: nat)
    requires ValidRows(rows)
    ensures i in Indices(rows, fileId) <==> RowKey(fileId, i) in rows
    ensures RowKey(fileId, i) in rows ==> rows[RowKey(fileId, i)].fileId == fileId && rows[RowKey(fileId, i)].chunkIndex == i
  {
    var key := RowKey(fileId, i);
    if key in rows {
      RowKeyInjective(rows[key].fileId, rows[key].chunkIndex, fileId, i);
    }
  }

  lemma PutRow(rows: map<string, ChunkRecord>, r: ChunkRecord, g: string)
    requires ValidRows(rows)
    ensures ValidRows(rows[RowKey(r.fileId, r.chunkIndex) := r])
    ensures RowsOf(rows[RowKey(r.fileId, r.chunkIndex) := r], g)
            == if g == r.fileId then RowsOf(rows, g)[r.chunkIndex := r.data] else RowsOf(rows, g)
  {
    var rows' := rows[RowKey(r.fileId, r.chunkIndex) := r];
    forall i: nat
      ensures i in RowsOf(rows', g) <==> i in RowsOf(rows, g) || (g == r.fileId && i == r.chunkIndex)
      ensures i in RowsOf(rows', g)
              ==> RowsOf(rows', g)[i] == if g == r.fileId && i == r.chunkIndex then r.data else RowsOf(rows, g)[i]
    {
      PutRowAt(rows, rows', r, g, i);
    }
  }

  lemma PutRowAt(rows: map<string, ChunkRecord>, rows': map<string, ChunkRecord>, r: ChunkRecord, g: string, i: nat)
    requires ValidRows(rows) && ValidRows(rows')
    requires rows' == rows[RowKey(r.fileId, r.chunkIndex) := r]
    ensures i in Indices(rows', g) <==> i in Indices(rows, g) || (g == r.fileId && i == r.chunkIndex)
    ensures i in Indices(rows', g) ==> RowKey(g, i) in rows'
    ensures i in Indices(rows', g)
            ==> rows'[RowKey(g, i)].data == if g == r.fileId && i == r.chunkIndex then r.data else rows[RowKey(g, i)].data
  {
    KeyedRow(rows, g, i);
    KeyedRow(rows', g, i);
    if RowKey(g, i) == RowKey(r.fileId, r.chunkIndex) { RowKeyInjective(g, i, r.fileId, r.chunkIndex); }
  }

  lemma DropRows(rows: map<string, ChunkRecord>, rows': map<string, ChunkRecord>, fileId: string, g: string)
    requires ValidRows(rows)
    requires forall k :: k in rows' <==> k in rows && rows[k].fileId != fileId
    requires forall k :: k in rows' ==> rows'[k] == rows[k]
    ensures ValidRows(rows')
    ensures RowsOf(rows', g) == if g == fileId then map[] else RowsOf(rows, g)
  {
    forall i: nat
      ensures i in RowsOf(rows', g) <==> i in RowsOf(rows, g) && g != fileId
      ensures i in RowsOf(rows', g) ==> RowsOf(rows', g)[i] == RowsOf(rows, g)[i]
    {
      KeyedRow(rows, g, i);
      KeyedRow(rows', g, i);
    }
  }

  class ChunkRepository {
    var rows: map<string, ChunkRecord>

    ghost predicate Valid()
      reads this
    {
      ValidRows(rows)
    }

    ghost function FileRows(fileId: string): map<nat, seq<byte>>
      requires Valid()
      reads this
    {
      RowsOf(rows, fileId)
    }

    constructor ()
      ensures Valid() && forall f :: FileRows(f) == map[]
    {
      rows := map[];
    }

    /** Stores or replaces one row; no other file's rows change. */
    method Put(fileId: string, chunkIndex: nat, data: seq<byte>)
      requires Valid()
      modifies this
      ensures Valid()
      ensures FileRows(fileId) == old(FileRows(fileId))[chunkIndex := data]
      ensures forall g :: g != fileId ==> FileRows(g) == old(FileRows(g))
    {
      var r := ChunkRecord(fileId, chunkIndex, data);
      forall g
        ensures ValidRows(rows[RowKey(fileId, chunkIndex) := r])
        ensures RowsOf(rows[RowKey(fileId, chunkIndex) := r], g)
                == if g == fileId then RowsOf(rows, g)[chunkIndex := data] else RowsOf(rows, g)
      {
        PutRow(rows, r, g);
      }
      rows := rows[RowKey(fileId, chunkIndex) := r];
    }

    /** All rows of one file in ascending index order. */
    method GetAllForFile(fileId: string) returns (sorted: seq<ChunkRecord>)
      requires Valid()
      ensures Lists(sorted, FileRows(fileId))
      ensures forall a :: 0 <= a < |sorted| ==> sorted[a].fileId == fileId
    {
      var all: seq<ChunkRecord> := [];
      var keys := rows.Keys;
      ghost var done: set<string> := {};
      while keys != {}
        invariant keys !! done && keys + done == rows.Keys
        invariant forall r :: r in all <==> exists k :: k in done && rows[k] == r && r.fileId == fileId
        invariant forall a, b :: 0 <= a < b < |all| ==> all[a].chunkIndex != all[b].chunkIndex
        decreases keys
      {
        var k :| k in keys;
        keys := keys - {k};
        if rows[k].fileId == fileId {
          forall a | 0 <= a < |all|
            ensures all[a].chunkIndex != rows[k].chunkIndex
          {
            assert all[a] in all;
            var k' :| k' in done && rows[k'] == all[a];
          }
          all := all + [rows[k]];
        }
        done := done + {k};
      }
      sorted := SortByIndex(all);
      forall a | 0 <= a < |sorted|
        ensures sorted[a].chunkIndex in FileRows(fileId) && FileRows(fileId)[sorted[a].chunkIndex] == sorted[a].data
        ensures sorted[a].fileId == fileId
      {
        assert sorted[a] in all;
        var k :| k in rows && rows[k] == sorted[a] && rows[k].fileId == fileId;
      }
      forall i | i in FileRows(fileId)
        ensures HasIndex(sorted, i)
      {
        var k :| k in rows && rows[k].fileId == fileId && rows[k].chunkIndex == i;
        assert rows[k] in all;
        assert rows[k] in sorted;
      }
    }

    /** Removes every row of one file and no other. */
    method DeleteAllForFile(fileId: string)
      requires Valid()
      modifies this
      ensures Valid()
      ensures FileRows(fileId) == map[]
      ensures forall g :: g != fileId ==> FileRows(g) == old(FileRows(g))
    {
      var cursor := set k | k in rows && rows[k].fileId == fileId;
      while cursor != {}
        invariant cursor == set k | k in rows && rows[k].fileId == fileId
        invariant forall k :: k in rows ==> k in old(rows) && rows[k] == old(rows)[k]
        invariant forall k :: k in old(rows) && old(rows)[k].fileId != fileId ==> k in rows
        decreases cursor
      {
        var k :| k in cursor;
        rows := rows - {k};
        cursor := cursor - {k};
      }
      assert forall k :: k in rows ==> k !in cursor;
      forall g
        ensures ValidRows(rows)
        ensures RowsOf(rows, g) == if g == fileId then map[] else old(RowsOf(rows, g))
      {
        DropRows(old(rows), rows, fileId, g);
      }
    }
  }

  ghost predicate Ascending(s: seq<ChunkRecord>) {
    forall a, b :: 0 <= a < b < |s| ==> s[a].chunkIndex < s[b].chunkIndex
  }

  /** `s` lists exactly the entries of `m` in ascending index order. */
  ghost predicate Lists(s: seq<ChunkRecord>, m: map<nat, seq<byte>>) {
    && Ascending(s)
    && (forall a :: 0 <= a < |s| ==> s[a].chunkIndex in m && m[s[a].chunkIndex] == s[a].data)
    && (forall i :: i in m ==> HasIndex(s, i))
  }

  ghost predicate HasIndex(s: seq<ChunkRecord>, i: nat) {
    exists a :: 0 <= a < |s| && s[a].chunkIndex == i
  }

  /** Puts r before the first record with a larger index. */
  function Insert(s: seq<ChunkRecord>, r: ChunkRecord): seq<ChunkRecord> {
    if s == [] || r.chunkIndex < s[0].chunkIndex then [r] + s else [s[0]] + Insert(s[1..], r)
  }

  lemma {:induction false} InsertAscending(s: seq<ChunkRecord>, r: ChunkRecord)
    requires Ascending(s) && forall q :: q in s ==> q.chunkIndex != r.chunkIndex
    ensures Ascending(Insert(s, r))
    ensures forall q :: q in Insert(s, r) <==> q in s || q == r
  {
    if s != [] && s[0].chunkIndex < r.chunkIndex {
      InsertAscending(s[1..], r);
      var t := Insert(s[1..], r);
      assert s == [s[0]] + s[1..];
      forall b | 0 <= b < |t|
        ensures s[0].chunkIndex < t[b].chunkIndex
      {
        assert t[b] in t;
      }
    }
  }

  /** The in-place sort of the fetched records. */
  method SortByIndex(all: seq<ChunkRecord>) returns (sorted: seq<ChunkRecord>)
    requires forall a, b :: 0 <= a < b < |all| ==> all[a].chunkIndex != all[b].chunkIndex
    ensures Ascending(sorted)
    ensures forall r :: r in sorted <==> r in all
  {
    sorted := [];
    for n := 0 to |all|
      invariant Ascending(sorted)
      invariant forall r :: r in sorted <==> r in all[..n]
    {
      forall q | q in sorted
        ensures q.chunkIndex != all[n].chunkIndex
      {
        assert q in all[..n];
      }
      InsertAscending(sorted, all[n]);
      sorted := Insert(sorted, all[n]);
      assert all[..n + 1] == all[..n] + [all[n]];
    }
    assert all[..|all|] == all;
  }

  function Concat(s: seq<ChunkRecord>): seq<byte> {
    if s == [] then [] else Concat(s[..|s| - 1]) + s[|s| - 1].data
  }

  ghost predicate ListsBelow(s: seq<ChunkRecord>, m: map<nat, seq<byte>>, n: nat) {
    && Ascending(s)
    && (forall a :: 0 <= a < |s| ==> Listed(s[a], m, n))
    && (forall i :: i in m && i < n ==> HasIndex(s, i))
  }

  ghost predicate Listed(r: ChunkRecord, m: map<nat, seq<byte>>, n: nat) {
    r.chunkIndex < n && r.chunkIndex in m && m[r.chunkIndex] == r.data
  }

  /** Joining the sorted records is joining the rows in index order. */
  lemma {:induction false} ConcatIsJoin(s: seq<ChunkRecord>, m: map<nat, seq<byte>>, n: nat)
    requires ListsBelow(s, m, n)
    ensures Concat(s) == Sinks.JoinRows(m, n)
    decreases |s|
  {
    if s == [] {
      NothingAbove(s, m, n, 0);
      Sinks.JoinRowsEnough(m, 0, n);
    } else {
      var k := s[|s| - 1].chunkIndex;
      LastRow(s, m, n);
      InitListed(s, m, n);
      calc {
        Concat(s);
        Concat(s[..|s| - 1]) + s[|s| - 1].data;
        { ConcatIsJoin(s[..|s| - 1], m, k); }
        Sinks.JoinRows(m, k) + s[|s| - 1].data;
        Sinks.JoinRows(m, k) + Sinks.RowAt(m, k);
        Sinks.JoinRows(m, k + 1);
        Sinks.JoinRows(m, n);
      }
    }
  }

  lemma LastRow(s: seq<ChunkRecord>, m: map<nat, seq<byte>>, n: nat)
    requires ListsBelow(s, m, n) && s != []
    ensures var k := s[|s| - 1].chunkIndex;
            k < n && Sinks.RowAt(m, k) == s[|s| - 1].data && Sinks.JoinRows(m, n) == Sinks.JoinRows(m, k + 1)
  {
    var k := s[|s| - 1].chunkIndex;
    assert Listed(s[|s| - 1], m, n);
    NothingAbove(s, m, n, k + 1);
    Sinks.JoinRowsEnough(m, k + 1, n);
  }

  lemma NothingAbove(s: seq<ChunkRecord>, m: map<nat, seq<byte>>, n: nat, k: nat)
    requires ListsBelow(s, m, n)
    requires forall a :: 0 <= a < |s| ==> s[a].chunkIndex < k
    ensures forall i :: i in m ==> i < k || n <= i
  {
    forall i | i in m && i < n
      ensures i < k
    {
      assert HasIndex(s, i);
    }
  }

  lemma InitListed(s: seq<ChunkRecord>, m: map<nat, seq<byte>>, n: nat)
    requires ListsBelow(s, m, n) && s != []
    ensures ListsBelow(s[..|s| - 1], m, s[|s| - 1].chunkIndex)
  {
    var init, k := s[..|s| - 1], s[|s| - 1].chunkIndex;
    assert Listed(s[|s| - 1], m, n);
    forall a | 0 <= a < |init|
      ensures Listed(init[a], m, k)
    {
      assert Listed(s[a], m, n);
    }
    forall i | i in m && i < k
      ensures HasIndex(init, i)
    {
      assert HasIndex(s, i);
      var at :| 0 <= at < |s| && s[at].chunkIndex == i;
      assert init[at].chunkIndex == i;
    }
  }

  // ----- the sinks -----

  class FileSystemChunkSink {
    var stream: seq<byte>
    var closed: bool

    constructor ()
      ensures stream == [] && !closed
    {
      stream, closed := [], false;
    }

    /** `ok` is whether the platform fulfils the write; a rejected write leaves the stream alone. */
    method Write(byteOffset: nat, data: seq<byte>, ok: bool)
      requires !closed
      modifies this
      ensures !closed
      ensures stream == if ok then Sinks.WriteAt(old(stream), byteOffset, data) else old(stream)
    {
      if ok {
        stream := Sinks.WriteAt(stream, byteOffset, data);
      }
    }

    method Finalize(ok: bool)
      requires !closed
      modifies this
      ensures stream == old(stream) && closed == ok
    {
      closed := ok;
    }
  }

  class IndexedDbChunkSink {
    const fileId: string
    const repository: ChunkRepository

    constructor (fileId: string, repository: ChunkRepository)
      ensures this.fileId == fileId && this.repository == repository
    {
      this.fileId := fileId;
      this.repository := repository;
    }

    method Write(chunkIndex: nat, data: seq<byte>, ok: bool)
      requires repository.Valid()
      modifies repository
      ensures repository.Valid()
      ensures repository.FileRows(fileId)
              == if ok then old(repository.FileRows(fileId))[chunkIndex := data] else old(repository.FileRows(fileId))
      ensures forall g :: g != fileId ==> repository.FileRows(g) == old(repository.FileRows(g))
    {
      if ok {
        repository.Put(fileId, chunkIndex, data);
      }
    }

    /** The joined file; its rows are deleted once it exists.  Rejected: None, and the rows stay. */
    method Finalize(ok: bool) returns (blob: Option<seq<byte>>)
      requires repository.Valid()
      modifies repository
      ensures repository.Valid()
      ensures ok ==> blob == Some(Sinks.Output(Sinks.Keyed(old(repository.FileRows(fileId)))))
                     && repository.FileRows(fileId) == map[]
      ensures !ok ==> blob == None && repository.FileRows(fileId) == old(repository.FileRows(fileId))
      ensures forall g :: g != fileId ==> repository.FileRows(g) == old(repository.FileRows(g))
    {
      if !ok {
        return None;
      }
      var records := repository.GetAllForFile(fileId);
      ghost var m := repository.FileRows(fileId);
      ConcatIsJoin(records, m, Sinks.Above(m.Keys));
      blob := Some(Concat(records));
      repository.DeleteAllForFile(fileId);
    }
  }
}
