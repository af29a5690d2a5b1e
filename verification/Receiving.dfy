/**
 * One incoming file (chunkReceiver.ts): the running hash, the received indices
 * and the sink, as a value with its transitions, the class that updates them in
 * place, and what any run of deliveries guarantees.
 */
module Receiving {
  import opened Basics
  import opened Chunking
  import opened Hashing
  import opened Encryption
  import opened Storage
  import Sinks

  /**
   * `received` is the index set in the order of insertion (a JavaScript Set keeps
   * it), `hashed` the bytes folded into the running digest, `progress` the byte
   * count reported to the user.
   */
  datatype FileRx = FileRx(
    chunkSize: nat, totalChunks: nat, received: seq<nat>, hashed: seq<byte>, digested: bool,
    sink: Sinks.SinkState, progress: nat)

  function Fresh(chunkSize: nat, totalChunks: nat, sink: Sinks.SinkState): FileRx {
    FileRx(chunkSize, totalChunks, [], [], false, sink, 0)
  }

  /** The plaintext of a payload; None where decryption rejects. */
  function Decode(cipher: Option<Cipher>, iv: Option<seq<byte>>, payload: seq<byte>): Option<seq<byte>> {
    if cipher.Some? && iv.Some? then cipher.value.open(iv.value, payload) else Some(payload)
  }

  /** Whether a chunk gets past the two guards at the head of handleChunk. */
  predicate Wanted(rx: FileRx, k: nat) {
    !rx.digested && k !in rx.received
  }

  /** The effect of a chunk that was wanted, decoded and written. */
  function Accept(rx: FileRx, k: nat, plain: seq<byte>): FileRx {
    rx.(received := rx.received + [k],
        hashed := rx.hashed + plain,
        sink := Sinks.Write(rx.sink, k, Start(rx.chunkSize, k), plain),
        progress := rx.progress + |plain|)
  }

  /** One whole handleChunk call; `ok` is whether the sink's write is fulfilled. */
  function AfterChunk(rx: FileRx, cipher: Option<Cipher>, k: nat, iv: Option<seq<byte>>, payload: seq<byte>, ok: bool): FileRx {
    var plain := Decode(cipher, iv, payload);
    if !Wanted(rx, k) || plain.None? || !ok then rx else Accept(rx, k, plain.value)
  }

  // ----- resume point and completeness -----

  function FirstGapFrom(received: seq<nat>, n: nat): (gap: nat)
    requires forall i: nat :: i < n ==> i in received
    ensures gap !in received && forall i: nat :: i < gap ==> i in received
    decreases CountFrom(received, n)
  {
    if n in received then
      FewerAhead(received, n);
      FirstGapFrom(received, n + 1)
    else n
  }

  /** The least index not received. */
  function FirstGap(received: seq<nat>): (gap: nat)
    ensures gap !in received && forall i: nat :: i < gap ==> i in received
  {
    FirstGapFrom(received, 0)
  }

  lemma FirstGapIsUnique(received: seq<nat>, n: nat)
    requires n !in received && forall i: nat :: i < n ==> i in received
    ensures FirstGap(received) == n
  {
    var gap := FirstGap(received);
  }

  predicate IsComplete(received: seq<nat>, totalChunks: nat) {
    |received| >= totalChunks && FirstGap(received) >= totalChunks
  }

  /** Complete means: every index below the chunk count was received. */
  lemma IsCompleteIff(received: seq<nat>, totalChunks: nat)
    ensures IsComplete(received, totalChunks) <==> forall i: nat :: i < totalChunks ==> i in received
  {
    if forall i: nat :: i < totalChunks ==> i in received {
      AtLeast(received, totalChunks);
      assert FirstGap(received) !in received;
    }
  }

  // ----- genuine deliveries -----

  /** `rx` is what some deliveries of genuine chunks of f leave behind. */
  ghost predicate Genuine(f: SourceFile, rx: FileRx) {
    && f.Valid()
    && rx.chunkSize == f.chunkSize && rx.totalChunks == f.Total()
    && Distinct(rx.received)
    && Below(rx.received, f.Total())
    && rx.hashed == Join(f, rx.received)
    && rx.progress == BytesOf(f, rx.received, f.Total())
    && (!rx.digested ==> Sinks.Holds(f, rx.sink, rx.received))
  }

  lemma FreshIsGenuine(f: SourceFile, onDisk: bool)
    requires f.Valid()
    ensures Genuine(f, Fresh(f.chunkSize, f.Total(), Sinks.Empty(onDisk)))
  {
    NoBytes(f, f.Total());
  }

  lemma AcceptKeepsGenuine(f: SourceFile, rx: FileRx, k: nat)
    requires Genuine(f, rx) && k < f.Total() && Wanted(rx, k)
    ensures Genuine(f, Accept(rx, k, f.Chunk(k)))
  {
    AppendDistinct(rx.received, k);
    JoinSnoc(f, rx.received, k);
    BytesOfSnoc(f, rx.received, k, f.Total());
    Sinks.WriteHolds(f, rx.sink, rx.received, k);
  }

  /** The bytes reported as progress are the bytes hashed, and on completion the file's size. */
  lemma ProgressIsBytesReceived(f: SourceFile, rx: FileRx)
    requires Genuine(f, rx)
    ensures rx.progress == |rx.hashed| <= |f.content|
    ensures IsComplete(rx.received, rx.totalChunks) ==> rx.progress == |f.content|
  {
    JoinLength(f, rx.received, f.Total());
    LengthForcesAllChunks(f, rx.received);
    IsCompleteIff(rx.received, rx.totalChunks);
    if IsComplete(rx.received, rx.totalChunks) { assert Covers(f, rx.received); }
  }

  /** Equal digests leave two possibilities: the sink yields the file, or the hash collides here. */
  lemma DigestProvesContent(h: Digest, f: SourceFile, rx: FileRx)
    requires Genuine(f, rx) && !rx.digested && h(rx.hashed) == h(f.content)
    ensures Sinks.Output(rx.sink) == f.content || Collide(h, rx.hashed, f.content)
  {
    if rx.hashed == f.content {
      LengthForcesAllChunks(f, rx.received);
      Sinks.CompleteSink(f, rx.sink, rx.received);
    }
  }

  /** One arrival of a genuine chunk; `ok` tells whether its sink write succeeds. */
  datatype Delivery = Delivery(chunkIndex: nat, ok: bool)

  /** The receiver after the deliveries, in their order. */
  function Deliver(f: SourceFile, rx: FileRx, ds: seq<Delivery>): FileRx
    requires f.Valid()
  {
    if ds == [] then rx
    else
      var d := ds[|ds| - 1];
      AfterChunk(Deliver(f, rx, ds[..|ds| - 1]), None, d.chunkIndex, None, f.Chunk(d.chunkIndex), d.ok)
  }

  lemma {:induction false} DeliverKeepsGenuine(f: SourceFile, rx: FileRx, ds: seq<Delivery>)
    requires Genuine(f, rx) && !rx.digested && forall i :: 0 <= i < |ds| ==> ds[i].chunkIndex < f.Total()
    ensures Genuine(f, Deliver(f, rx, ds)) && !Deliver(f, rx, ds).digested
  {
    if ds != [] {
      var d, init := ds[|ds| - 1], ds[..|ds| - 1];
      DeliverKeepsGenuine(f, rx, init);
      var before := Deliver(f, rx, init);
      if Wanted(before, d.chunkIndex) && d.ok {
        AcceptKeepsGenuine(f, before, d.chunkIndex);
      }
    }
  }

  /**
   * Any order, any repetition, any loss and any failed write of genuine chunks:
   * a matching checksum means the sink yields exactly the sender's bytes, unless
   * the two hashed strings are a collision.
   */
  lemma IntegrityUnderAdverseDelivery(h: Digest, f: SourceFile, onDisk: bool, ds: seq<Delivery>)
    requires f.Valid() && forall i :: 0 <= i < |ds| ==> ds[i].chunkIndex < f.Total()
    ensures var rx := Deliver(f, Fresh(f.chunkSize, f.Total(), Sinks.Empty(onDisk)), ds);
            Match(BytesToHex(h(rx.hashed)), BytesToHex(h(f.content))) == Some(true)
            ==> Sinks.Output(rx.sink) == f.content || Collide(h, rx.hashed, f.content)
  {
    FreshIsGenuine(f, onDisk);
    var rx0 := Fresh(f.chunkSize, f.Total(), Sinks.Empty(onDisk));
    DeliverKeepsGenuine(f, rx0, ds);
    var rx := Deliver(f, rx0, ds);
    MatchIsDigestEquality(h(rx.hashed), h(f.content));
    if h(rx.hashed) == h(f.content) {
      DigestProvesContent(h, f, rx);
    }
  }

  // ----- the class -----

  datatype ChunkSink = FileSystem(fs: FileSystemChunkSink) | IndexedDb(db: IndexedDbChunkSink) {
    /** The object a write changes; for IndexedDB it is the store shared by all files. */
    ghost function Target(): object {
      match this
      case FileSystem(fs) => fs
      case IndexedDb(db) => db.repository
    }

    ghost predicate Valid()
      reads Target()
    {
      IndexedDb? ==> db.repository.Valid()
    }

    ghost predicate Open()
      reads Target()
    {
      FileSystem? ==> !fs.closed
    }

    ghost function State(): Sinks.SinkState
      requires Valid()
      reads Target()
    {
      match this
      case FileSystem(fs) => Sinks.Disk(fs.stream)
      case IndexedDb(db) => Sinks.Keyed(db.repository.FileRows(db.fileId))
    }
  }

  /** Rows of other files, as far as the sink shares a store with them, are what they were. */
  twostate predicate OthersUntouched(sink: ChunkSink)
    reads sink.Target()
  {
    sink.IndexedDb? ==>
      && old(sink.db.repository.Valid()) && sink.db.repository.Valid()
      && forall g :: g != sink.db.fileId ==> sink.db.repository.FileRows(g) == old(sink.db.repository.FileRows(g))
  }

  class ChunkReceiver {
    const chunkSize: nat
    const totalChunks: nat
    const cipher: Option<Cipher>
    const hasher: IncrementalSha256
    const sink: ChunkSink
    var receivedChunks: seq<nat>
    var digested: bool
    var progress: nat

    ghost predicate Valid()
      reads this, hasher, sink.Target()
    {
      && sink.Valid()
      && sink.Target() != this && sink.Target() != hasher
      && (!digested ==> !hasher.finished && sink.Open())
    }

    ghost function State(): FileRx
      requires Valid()
      reads this, hasher, sink.Target()
    {
      FileRx(chunkSize, totalChunks, receivedChunks, hasher.absorbed, digested, sink.State(), progress)
    }

    constructor (chunkSize: nat, totalChunks: nat, cipher: Option<Cipher>, h: Digest, sink: ChunkSink)
      requires sink.Valid() && sink.Open()
      ensures Valid() && fresh(hasher)
      ensures this.cipher == cipher && this.sink == sink && hasher.h == h
      ensures State() == Fresh(chunkSize, totalChunks, sink.State())
    {
      this.chunkSize, this.totalChunks, this.cipher, this.sink := chunkSize, totalChunks, cipher, sink;
      hasher := new IncrementalSha256(h);
      receivedChunks, digested, progress := [], false, 0;
    }

    method HandleChunk(chunkIndex: nat, iv: Option<seq<byte>>, payload: seq<byte>, ok: bool)
      requires Valid()
      modifies this, hasher, sink.Target()
      ensures Valid() && OthersUntouched(sink)
      ensures State() == AfterChunk(old(State()), cipher, chunkIndex, iv, payload, ok)
    {
      if digested || chunkIndex in receivedChunks {
        return;
      }
      var plaintext := Decode(cipher, iv, payload);
      if plaintext.None? {
        return; // decryption rejects
      }
      var byteOffset := Start(chunkSize, chunkIndex);
      match sink {
        case FileSystem(fs) => fs.Write(byteOffset, plaintext.value, ok);
        case IndexedDb(db) => db.Write(chunkIndex, plaintext.value, ok);
      }
      if !ok {
        return; // the write rejects before the hash is touched
      }
      hasher.Update(plaintext.value);
      receivedChunks := receivedChunks + [chunkIndex];
      progress := progress + |plaintext.value|;
    }

    method ResumeFromChunk() returns (n: nat)
      ensures n == FirstGap(receivedChunks)
    {
      n := 0;
      while n in receivedChunks
        invariant forall i: nat :: i < n ==> i in receivedChunks
        decreases CountFrom(receivedChunks, n)
      {
        FewerAhead(receivedChunks, n);
        n := n + 1;
      }
      FirstGapIsUnique(receivedChunks, n);
    }

    method DigestHex() returns (hex: string)
      requires Valid() && !digested
      modifies this, hasher
      ensures Valid()
      ensures State() == old(State()).(digested := true)
      ensures hex == BytesToHex(hasher.h(hasher.absorbed))
    {
      digested := true;
      hex := hasher.DigestHex();
    }

    /** Some(bytes): what the user ends up with.  None: the sink rejects. */
    method Finalize(ok: bool) returns (saved: Option<seq<byte>>)
      requires Valid() && digested && sink.Open()
      modifies this, sink.Target()
      ensures Valid() && OthersUntouched(sink)
      ensures saved == if ok then Some(Sinks.Output(old(State()).sink)) else None
      ensures State() == old(State()).(sink := AfterFinalize(old(State()).sink, ok))
    {
      match sink
      case FileSystem(fs) =>
        fs.Finalize(ok);
        saved := if ok then Some(fs.stream) else None;
      case IndexedDb(db) =>
        saved := db.Finalize(ok);
    }
  }

  /** Finalizing a keyed store deletes its rows; a file stream keeps what was written. */
  function AfterFinalize(sink: Sinks.SinkState, ok: bool): Sinks.SinkState {
    if ok && sink.Keyed? then Sinks.Keyed(map[]) else sink
  }
}
