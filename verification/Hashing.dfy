/**
 * The streaming digest (hash.ts) and the checksum comparison (chunkReceiver.ts).
 * SHA-256 itself is a parameter: any function from byte strings to byte strings.
 */
module Hashing {
  import opened Basics

  type Digest = seq<byte> -> seq<byte>

  /** `h` maps two different byte strings to the same digest. */
  ghost predicate Collide(h: Digest, a: seq<byte>, b: seq<byte>) {
    a != b && h(a) == h(b)
  }

  /** update/digest over a running state; the library refuses an update after the digest was taken. */
  class IncrementalSha256 {
    const h: Digest
    var absorbed: seq<byte>
    var finished: bool

    constructor (h: Digest)
      ensures this.h == h && absorbed == [] && !finished
    {
      this.h := h;
      absorbed := [];
      finished := false;
    }

    method Update(chunk: seq<byte>)
      requires !finished
      modifies this
      ensures absorbed == old(absorbed) + chunk && !finished
    {
      absorbed := absorbed + chunk;
    }

    method DigestHex() returns (hex: string)
      requires !finished
      modifies this
      ensures hex == BytesToHex(h(absorbed))
      ensures finished && absorbed == old(absorbed)
    {
      hex := BytesToHex(h(absorbed));
      finished := true;
    }
  }

  /** The one-pass reference: hashing in pieces of any size is hashing the whole. */
  method Sha256HexOfBlob(h: Digest, blob: seq<byte>, chunkSize: nat) returns (hex: string)
    requires chunkSize > 0
    ensures hex == BytesToHex(h(blob))
  {
    var hasher := new IncrementalSha256(h);
    var offset := 0;
    while offset < |blob|
      invariant hasher.h == h && !hasher.finished && fresh(hasher)
      invariant hasher.absorbed == blob[..Min(offset, |blob|)]
      decreases |blob| - offset
    {
      var slice := blob[offset .. Min(offset + chunkSize, |blob|)];
      hasher.Update(slice);
      offset := offset + chunkSize;
    }
    assert blob[..|blob|] == blob;
    hex := hasher.DigestHex();
  }

  // ----- hex -----

  function HexDigit(d: nat): (c: char)
    requires d < 16
    ensures HexValue(c) == Some(d)
  {
    if d < 10 then '0' + d as char else 'a' + (d - 10) as char
  }

  /** Both cases are accepted on input. */
  function HexValue(c: char): (d: Option<nat>)
    ensures d.Some? ==> d.value < 16
  {
    if '0' <= c <= '9' then Some((c - '0') as nat)
    else if 'a' <= c <= 'f' then Some((c - 'a') as nat + 10)
    else if 'A' <= c <= 'F' then Some((c - 'A') as nat + 10)
    else None
  }

  function BytesToHex(b: seq<byte>): (s: string)
    ensures |s| == 2 * |b|
  {
    if b == [] then ""
    else [HexDigit(b[0] / 16), HexDigit(b[0] % 16)] + BytesToHex(b[1..])
  }

  /** None where the library throws: odd length, or a character that is no hex digit. */
  function HexToBytes(s: string): (b: Option<seq<byte>>)
    ensures b.Some? ==> |s| == 2 * |b.value|
  {
    if s == "" then Some([])
    else if |s| == 1 then None
    else
      var hi, lo, rest := HexValue(s[0]), HexValue(s[1]), HexToBytes(s[2..]);
      if hi.Some? && lo.Some? && rest.Some? then Some([hi.value * 16 + lo.value] + rest.value) else None
  }

  lemma {:induction false} HexRoundTrip(b: seq<byte>)
    ensures HexToBytes(BytesToHex(b)) == Some(b)
  {
    if b != [] {
      var s := BytesToHex(b);
      HexRoundTrip(b[1..]);
      assert s[2..] == BytesToHex(b[1..]);
      assert s[0] == HexDigit(b[0] / 16) && s[1] == HexDigit(b[0] % 16);
      assert b == [b[0]] + b[1..];
    }
  }

  // ----- checksum comparison -----

  /** Bitwise exclusive or. */
  function Xor(x: nat, y: nat): nat {
    if x == 0 && y == 0 then 0 else 2 * Xor(x / 2, y / 2) + (if x % 2 == y % 2 then 0 else 1)
  }

  /** Bitwise or. */
  function Or(x: nat, y: nat): nat {
    if x == 0 && y == 0 then 0 else 2 * Or(x / 2, y / 2) + (if x % 2 == 0 && y % 2 == 0 then 0 else 1)
  }

  lemma {:induction false} XorIsZero(x: nat, y: nat)
    ensures Xor(x, y) == 0 <==> x == y
  {
    if x > 0 || y > 0 { XorIsZero(x / 2, y / 2); }
  }

  lemma {:induction false} OrIsZero(x: nat, y: nat)
    ensures Or(x, y) == 0 <==> x == 0 && y == 0
  {
    if x > 0 || y > 0 { OrIsZero(x / 2, y / 2); }
  }

  /** What the comparison answers; None where decoding throws. */
  function Match(a: string, b: string): (r: Option<bool>) {
    if |a| != |b| then Some(false)
    else if HexToBytes(a).None? || HexToBytes(b).None? then None
    else Some(HexToBytes(a) == HexToBytes(b))
  }

  /** The accumulating loop answers exactly whether the decoded bytes agree. */
  method ChecksumsMatch(a: string, b: string) returns (r: Option<bool>)
    ensures r == Match(a, b)
  {
    if |a| != |b| {
      return Some(false);
    }
    var bytesA, bytesB := HexToBytes(a), HexToBytes(b);
    if bytesA.None? || bytesB.None? {
      return None;
    }
    var x, y := bytesA.value, bytesB.value;
    if |x| != |y| {
      return Some(false);
    }
    var diff := 0;
    for i := 0 to |x|
      invariant diff == 0 <==> x[..i] == y[..i]
    {
      XorIsZero(x[i], y[i]);
      OrIsZero(diff, Xor(x[i], y[i]));
      assert x[..i + 1] == x[..i] + [x[i]] && y[..i + 1] == y[..i] + [y[i]];
      diff := Or(diff, Xor(x[i], y[i]));
    }
    assert x[..|x|] == x && y[..|y|] == y;
    r := Some(diff == 0);
  }

  /** On two digests in the library's own spelling the comparison never throws and is equality of digests. */
  lemma MatchIsDigestEquality(a: seq<byte>, b: seq<byte>)
    ensures Match(BytesToHex(a), BytesToHex(b)) == Some(a == b)
  {
    HexRoundTrip(a);
    HexRoundTrip(b);
  }
}
