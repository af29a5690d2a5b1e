/** The optional AES-GCM layer (encryption.ts); the cipher itself is a parameter with its law. */
module Encryption {
  import opened Basics
  import opened Chunking

  type Salt = s: seq<byte> | |s| == 4 witness [0, 0, 0, 0]

  /** `open` answers None where the library rejects. */
  datatype Cipher = Cipher(salt: Salt, seal: (seq<byte>, seq<byte>) -> seq<byte>, open: (seq<byte>, seq<byte>) -> Option<seq<byte>>) {
    ghost predicate Lawful() {
      forall iv, p :: open(iv, seal(iv, p)) == Some(p)
    }
  }

  /** `setUint32(.., x >>> 0, false)`: big-endian, modulo 2^32. */
  function Be32(x: nat): (b: seq<byte>)
    ensures |b| == 4
  {
    [x / 0x100_0000 % 0x100, x / 0x1_0000 % 0x100, x / 0x100 % 0x100, x % 0x100]
  }

  function Iv(salt: Salt, fileIndex: nat, chunkIndex: nat): (iv: seq<byte>)
    ensures |iv| == 12
  {
    salt + Be32(fileIndex) + Be32(chunkIndex)
  }

  method IvForChunk(salt: Salt, fileIndex: nat, chunkIndex: nat) returns (iv: array<byte>)
    ensures fresh(iv) && iv[..] == Iv(salt, fileIndex, chunkIndex)
  {
    iv := new byte[12](_ => 0);
    for k := 0 to 4
      invariant iv[..k] == salt[..k]
    {
      iv[k] := salt[k];
    }
    SetUint32(iv, 4, fileIndex);
    SetUint32(iv, 8, chunkIndex);
    assert iv[..] == iv[..4] + iv[4..8] + iv[8..12];
  }

  method SetUint32(a: array<byte>, at: nat, x: nat)
    requires at + 4 <= a.Length
    modifies a
    ensures a[at .. at + 4] == Be32(x)
    ensures a[..at] == old(a[..at]) && a[at + 4..] == old(a[at + 4..])
  {
    a[at] := x / 0x100_0000 % 0x100;
    a[at + 1] := x / 0x1_0000 % 0x100;
    a[at + 2] := x / 0x100 % 0x100;
    a[at + 3] := x % 0x100;
  }

  function FromBe32(b: seq<byte>): (x: nat)
    requires |b| == 4
  {
    var hi: nat := b[0] as int * 0x100 + b[1] as int;
    var lo: nat := b[2] as int * 0x100 + b[3] as int;
    hi * 0x1_0000 + lo
  }

  lemma RepeatedDivision(x: nat)
    ensures x / 0x1_0000 == x / 0x100 / 0x100
    ensures x / 0x100_0000 == x / 0x100 / 0x100 / 0x100
  {}

  lemma Be32RoundTrip(x: nat)
    ensures FromBe32(Be32(x)) == x % UINT32_VALUES
  {
    RepeatedDivision(x);
    var q1 := x / 0x100;
    var q2 := q1 / 0x100;
    var q3 := q2 / 0x100;
    var b := Be32(x);
    assert b == [q3 % 0x100, q2 % 0x100, q1 % 0x100, x % 0x100];
    LowWord(x, q1, q2, q3, q3 / 0x100);
  }

  lemma LowWord(x: nat, q1: nat, q2: nat, q3: nat, q4: nat)
    requires q1 == x / 0x100 && q2 == q1 / 0x100 && q3 == q2 / 0x100 && q4 == q3 / 0x100
    ensures x % UINT32_VALUES == (q3 % 0x100 * 0x100 + q2 % 0x100) * 0x1_0000 + (q1 % 0x100 * 0x100 + x % 0x100)
  {
    var low := (q3 % 0x100 * 0x100 + q2 % 0x100) * 0x1_0000 + (q1 % 0x100 * 0x100 + x % 0x100);
    assert x == q4 * UINT32_VALUES + low;
  }

  lemma DropByte(x: nat, y: nat, t: int)
    requires x == y + 0x100 * t
    ensures x / 0x100 == y / 0x100 + t && x % 0x100 == y % 0x100
  {}

  lemma Be32Shift(x: nat, k: nat)
    ensures Be32(x + k * UINT32_VALUES) == Be32(x)
  {
    var y := x + k * UINT32_VALUES;
    DropByte(y, x, k * 0x100_0000);
    DropByte(y / 0x100, x / 0x100, k * 0x1_0000);
    DropByte(y / 0x100 / 0x100, x / 0x100 / 0x100, k * 0x100);
    DropByte(y / 0x100 / 0x100 / 0x100, x / 0x100 / 0x100 / 0x100, k);
    RepeatedDivision(x);
    RepeatedDivision(y);
  }

  /** Two words agree exactly when the numbers agree modulo 2^32. */
  lemma Be32Equality(x: nat, y: nat)
    ensures Be32(x) == Be32(y) <==> x % UINT32_VALUES == y % UINT32_VALUES
  {
    Be32RoundTrip(x);
    Be32RoundTrip(y);
    Be32Shift(x % UINT32_VALUES, x / UINT32_VALUES);
    Be32Shift(y % UINT32_VALUES, y / UINT32_VALUES);
    assert x == x % UINT32_VALUES + x / UINT32_VALUES * UINT32_VALUES;
    assert y == y % UINT32_VALUES + y / UINT32_VALUES * UINT32_VALUES;
  }

  /** Two chunks share an IV exactly when their indices agree modulo 2^32. */
  lemma IvEquality(salt: Salt, f: nat, c: nat, f': nat, c': nat)
    ensures Iv(salt, f, c) == Iv(salt, f', c')
            <==> f % UINT32_VALUES == f' % UINT32_VALUES && c % UINT32_VALUES == c' % UINT32_VALUES
  {
    IvParts(salt, f, c, f', c');
    Be32Equality(f, f');
    Be32Equality(c, c');
  }

  lemma IvParts(salt: Salt, f: nat, c: nat, f': nat, c': nat)
    ensures Iv(salt, f, c) == Iv(salt, f', c') <==> Be32(f) == Be32(f') && Be32(c) == Be32(c')
  {
    var a, b := Iv(salt, f, c), Iv(salt, f', c');
    assert a[4..8] == Be32(f) && a[8..] == Be32(c) && b[4..8] == Be32(f') && b[8..] == Be32(c');
  }

  /** Within 32 bits the IV determines both indices. */
  lemma IvInjective(salt: Salt, f: nat, c: nat, f': nat, c': nat)
    requires f < UINT32_VALUES && c < UINT32_VALUES && f' < UINT32_VALUES && c' < UINT32_VALUES
    requires Iv(salt, f, c) == Iv(salt, f', c')
    ensures f == f' && c == c'
  {
    IvEquality(salt, f, c, f', c');
    SmallMod(f);
    SmallMod(f');
    SmallMod(c);
    SmallMod(c');
  }

  lemma SmallMod(x: nat)
    requires x < UINT32_VALUES
    ensures x % UINT32_VALUES == x
  {}

  /** No two of the chunks (f, c) with f < |counts| and c < counts[f] share an IV. */
  ghost predicate IvsNeverRepeat(salt: Salt, counts: seq<nat>) {
    forall f, c: nat, f', c': nat ::
      0 <= f < |counts| && c < counts[f] && 0 <= f' < |counts| && c' < counts[f']
      && Iv(salt, f, c) == Iv(salt, f', c')
      ==> f == f' && c == c'
  }

  /** Chunk 2^32 is sealed under the IV of chunk 0. */
  lemma IvRepeats(salt: Salt, f: nat)
    ensures Iv(salt, f, 0) == Iv(salt, f, UINT32_VALUES)
  {
    IvEquality(salt, f, 0, f, UINT32_VALUES);
  }

  /** The comment in the source promises uniqueness outright; it holds exactly up to 2^32 chunks a file. */
  lemma IvsNeverRepeatIff(salt: Salt, counts: seq<nat>)
    requires |counts| <= UINT32_VALUES
    ensures IvsNeverRepeat(salt, counts) <==> forall f :: 0 <= f < |counts| ==> counts[f] <= UINT32_VALUES
  {
    if f :| 0 <= f < |counts| && counts[f] > UINT32_VALUES {
      IvEquality(salt, f, 0, f, UINT32_VALUES);
    } else {
      forall f, c: nat, f', c': nat |
        0 <= f < |counts| && c < counts[f] && 0 <= f' < |counts| && c' < counts[f']
        && Iv(salt, f, c) == Iv(salt, f', c')
        ensures f == f' && c == c'
      {
        IvInjective(salt, f, c, f', c');
      }
    }
  }
}
