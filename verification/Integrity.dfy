/**
 * Safety over every run of Transfer, failed platform calls included: each binary
 * frame is handled with its own metadata, and a file reported COMPLETED was handed
 * over byte for byte.
 */
module Integrity {
  import opened Basics
  import opened Chunking
  import opened Hashing
  import opened Encryption
  import opened Wire
  import opened Receiving
  import opened ReceiverState
  import opened Transfer
  import Pump
  import Sinks

  // ----- pairing -----

  /** The two frames of chunk k of file j. */
  ghost predicate IsChunk(w: World, meta: Meta, data: seq<byte>, j: nat, k: nat)
    requires w.Valid()
  {
    j < |w.files| && k < w.files[j].Total() && meta == Pump.MetaOf(w.Job(j), k) && data == Pump.Payload(w.Job(j), k)
  }

  ghost predicate SomeChunk(w: World, meta: Meta, data: seq<byte>)
    requires w.Valid()
  {
    exists j: nat, k: nat :: IsChunk(w, meta, data, j, k)
  }

  ghost predicate IsChecksum(w: World, id: string, checksum: string) {
    exists j :: 0 <= j < |w.files| && w.files[j].id == id && checksum == Pump.WholeChecksum(w.Job(j))
  }

  /** Handling msgs in order with `pending` as the remembered metadata, every binary frame meets its own. */
  ghost predicate Paired(w: World, pending: Option<Meta>, msgs: seq<FileMsg>)
    requires w.Valid()
    decreases |msgs|
  {
    msgs == [] ||
    match msgs[0]
    case ChunkMeta(meta) => Paired(w, Some(meta), msgs[1..])
    case Binary(data) => pending.Some? && SomeChunk(w, pending.value, data) && Paired(w, None, msgs[1..])
    case FileComplete(id, checksum) => IsChecksum(w, id, checksum) && Paired(w, pending, msgs[1..])
    case TransferComplete(_) => Paired(w, pending, msgs[1..])
  }

  /** Losing a suffix, even between a metadata frame and its binary frame, breaks no pair. */
  lemma {:induction false} PairedPrefix(w: World, pending: Option<Meta>, a: seq<FileMsg>, b: seq<FileMsg>)
    requires w.Valid() && Paired(w, pending, a + b)
    ensures Paired(w, pending, a)
    decreases |a|
  {
    if a != [] {
      assert (a + b)[0] == a[0] && (a + b)[1..] == a[1..] + b;
      var p := match a[0]
               case ChunkMeta(meta) => Some(meta)
               case Binary(_) => None
               case _ => pending;
      PairedPrefix(w, p, a[1..], b);
    }
  }

  /** Frames that pair up by themselves can follow anything: an orphaned metadata frame is overwritten first. */
  lemma {:induction false} PairedAppend(w: World, pending: Option<Meta>, a: seq<FileMsg>, b: seq<FileMsg>)
    requires w.Valid() && Paired(w, pending, a) && forall p :: Paired(w, p, b)
    ensures Paired(w, pending, a + b)
    decreases |a|
  {
    if a == [] {
      assert a + b == b;
    } else {
      assert (a + b)[0] == a[0] && (a + b)[1..] == a[1..] + b;
      var p := match a[0]
               case ChunkMeta(meta) => Some(meta)
               case Binary(_) => None
               case _ => pending;
      PairedAppend(w, p, a[1..], b);
    }
  }

  lemma ChunkPaired(w: World, j: nat, k: nat, p: Option<Meta>)
    requires w.Valid() && j < |w.files| && k < w.files[j].Total()
    ensures Paired(w, p, Pump.ChunkFrames(w.Job(j), k))
  {
    var msgs := Pump.ChunkFrames(w.Job(j), k);
    var meta, data := Pump.MetaOf(w.Job(j), k), Pump.Payload(w.Job(j), k);
    assert IsChunk(w, meta, data, j, k);
    assert msgs[1..] == [Binary(data)] && msgs[1..][1..] == [];
    assert Paired(w, Some(meta), msgs[1..]);
  }

  lemma AnnouncementPaired(w: World, j: nat, pump: Pump.State, p: Option<Meta>)
    requires w.Valid() && j < |w.files|
    requires pump.point.Done? && pump.point.outcome.Completed? ==> pump.point.outcome.checksum == Pump.WholeChecksum(w.Job(j))
    ensures Paired(w, p, Announcement(w, j, pump))
  {
    var msgs := Announcement(w, j, pump);
    if msgs != [] {
      assert IsChecksum(w, w.files[j].id, Pump.WholeChecksum(w.Job(j)));
      assert msgs[1..] == [];
    }
  }

  /** Whatever the loop's next turn sends pairs up by itself. */
  lemma EmittedPaired(w: World, s: Sender, lost: set<nat>, bytes: nat, p: Option<Meta>)
    requires w.Valid() && Live(w, s.loop) && LoopOk(w, s.loop)
    ensures Paired(w, p, NextFrames(w, s, lost, bytes))
  {
    match s.loop {
      case Between(i, _) =>
        assert [TransferComplete(lost)][1..] == [];
      case Pumping(i, resume, pump) =>
        var pump' := PumpAfter(w, s.loop, bytes);
        PumpAfterIsOk(w, s.loop, bytes);
        if pump.point.Reading? { ChunkPaired(w, i, pump.i, p); }
        forall q ensures Paired(w, q, Announcement(w, i, pump')) { AnnouncementPaired(w, i, pump', q); }
        PairedAppend(w, p, Pump.Sends(w.Job(i), pump), Announcement(w, i, pump'));
    }
  }

  // ----- the receiver -----

  /** File j at the receiver: genuine chunks only, and COMPLETED only with the right bytes (or a hash collision). */
  ghost predicate FileOk(w: World, rx: RxState, j: nat)
    requires w.Valid() && j < |w.files| && w.files[j].id in rx.receivers
  {
    var f := w.files[j];
    var r := rx.receivers[f.id];
    && Genuine(f, r)
    && (r.digested <==> f.id in rx.completed)
    && (IsCompleted(rx, f.id) ==>
          && f.id in rx.completed && f.id in rx.saved
          && (rx.saved[f.id] == f.content || Collide(w.env.h, r.hashed, f.content)))
  }

  /** The user is shown that the file arrived and was verified. */
  ghost predicate IsCompleted(rx: RxState, id: string) {
    id in rx.status && rx.status[id] == Status.Completed
  }

  ghost predicate RxOk(w: World, rx: RxState)
    requires w.Valid()
  {
    && rx.receivers.Keys == w.Ids()
    && rx.completed <= w.Ids()
    && (forall j :: 0 <= j < |w.files| ==> w.files[j].id in rx.receivers && FileOk(w, rx, j))
  }

  lemma FreshIsOk(w: World, rx: RxState)
    requires w.Valid() && FreshReceiver(w, rx)
    ensures RxOk(w, rx)
  {
    forall j | 0 <= j < |w.files|
      ensures w.files[j].id in rx.receivers && FileOk(w, rx, j)
    {
      var f := w.files[j];
      assert f.id in w.Ids();
      assert IsFresh(f, rx.receivers[f.id]);
      var onDisk :| rx.receivers[f.id] == Fresh(f.chunkSize, f.Total(), Sinks.Empty(onDisk));
      FreshIsGenuine(f, onDisk);
    }
  }

  /** The receiver recovers a chunk's plaintext from its two frames. */
  lemma ChunkDecodes(w: World, j: nat, k: nat)
    requires w.Valid() && j < |w.files|
    ensures Decode(w.env.cipher, Pump.MetaOf(w.Job(j), k).iv, Pump.Payload(w.Job(j), k)) == Some(w.files[j].Chunk(k))
  {
    if w.env.cipher.Some? {
      var c := w.env.cipher.value;
      assert c.open(Iv(c.salt, j, k), c.seal(Iv(c.salt, j, k), w.files[j].Chunk(k))) == Some(w.files[j].Chunk(k));
    }
  }

  /** One file changes, the rest of the receiver stays: enough for all files to stay in order. */
  lemma OneFileChanged(w: World, rx: RxState, rx': RxState, j: nat)
    requires w.Valid() && RxOk(w, rx) && j < |w.files|
    requires w.files[j].id in rx'.receivers && FileOk(w, rx', j)
    requires rx'.receivers.Keys == rx.receivers.Keys && rx'.completed <= w.Ids()
    requires forall id :: id in rx.receivers && id != w.files[j].id ==>
               && rx'.receivers[id] == rx.receivers[id]
               && (id in rx'.completed <==> id in rx.completed)
               && (IsCompleted(rx', id) <==> IsCompleted(rx, id))
               && (id in rx.saved ==> id in rx'.saved && rx'.saved[id] == rx.saved[id])
    ensures RxOk(w, rx')
  {
    forall i | 0 <= i < |w.files|
      ensures w.files[i].id in rx'.receivers && FileOk(w, rx', i)
    {
      if i != j {
        assert w.files[i].id != w.files[j].id;
        assert FileOk(w, rx, i);
      }
    }
  }

  lemma BinaryKeepsRxOk(w: World, rx: RxState, data: seq<byte>, ok: bool)
    requires w.Valid() && RxOk(w, rx) && rx.pending.Some? && SomeChunk(w, rx.pending.value, data)
    ensures RxOk(w, OnBinary(w.env, rx, data, ok))
  {
    var meta := rx.pending.value;
    var j: nat, k: nat :| IsChunk(w, meta, data, j, k);
    assert w.files[j].id in w.Ids();
    ChunkDecodes(w, j, k);
    var st1 := rx.(pending := None);
    PendingIsIrrelevant(w, rx, None);
    if Wanted(rx.receivers[meta.fileId], k) && ok {
      AcceptKeepsRxOk(w, st1, meta, j, k);
    }
  }

  lemma AcceptKeepsRxOk(w: World, rx: RxState, meta: Meta, j: nat, k: nat)
    requires w.Valid() && RxOk(w, rx) && j < |w.files| && k < w.files[j].Total()
    requires meta.fileId == w.files[j].id && meta.chunkIndex == k && meta.fileId in rx.receivers
    requires Wanted(rx.receivers[meta.fileId], k)
    ensures RxOk(w, AcceptInto(rx, meta, w.files[j].Chunk(k)))
  {
    assert FileOk(w, rx, j);
    AcceptKeepsGenuine(w.files[j], rx.receivers[meta.fileId], k);
    OneFileChanged(w, rx, AcceptInto(rx, meta, w.files[j].Chunk(k)), j);
  }

  lemma CompleteKeepsRxOk(w: World, rx: RxState, id: string, checksum: string, ok: bool)
    requires w.Valid() && RxOk(w, rx) && IsChecksum(w, id, checksum)
    ensures RxOk(w, OnFileComplete(w.env, rx, id, checksum, ok))
  {
    var j :| 0 <= j < |w.files| && w.files[j].id == id && checksum == Pump.WholeChecksum(w.Job(j));
    assert id in w.Ids();
    assert FileOk(w, rx, j);
    if id !in rx.completed {
      BeginVerifyKeepsRxOk(w, rx, j);
      VerdictOk(w, rx, j);
      var verdict := Match(BytesToHex(w.env.h(rx.receivers[id].hashed)), checksum);
      if verdict.Some? && ok { FinishVerifyKeepsRxOk(w, BeginVerify(rx, id), j, verdict.value); }
    }
  }

  lemma BeginVerifyKeepsRxOk(w: World, rx: RxState, j: nat)
    requires w.Valid() && RxOk(w, rx) && j < |w.files| && w.files[j].id !in rx.completed
    ensures w.files[j].id in rx.receivers && RxOk(w, BeginVerify(rx, w.files[j].id))
  {
    assert FileOk(w, rx, j);
    assert w.files[j].id in w.Ids();
    OneFileChanged(w, rx, BeginVerify(rx, w.files[j].id), j);
  }

  /** A positive verdict is right: what is saved is the file, or the digests collide. */
  lemma VerdictOk(w: World, rx: RxState, j: nat)
    requires w.Valid() && j < |w.files| && w.files[j].id in rx.receivers && FileOk(w, rx, j)
    requires w.files[j].id !in rx.completed
    ensures var f := w.files[j];
            var r := rx.receivers[f.id];
            Match(BytesToHex(w.env.h(r.hashed)), Pump.WholeChecksum(w.Job(j))) == Some(true) ==>
              Sinks.Output(r.sink) == f.content || Collide(w.env.h, r.hashed, f.content)
  {
    var f := w.files[j];
    var r := rx.receivers[f.id];
    MatchIsDigestEquality(w.env.h(r.hashed), w.env.h(f.content));
    if w.env.h(r.hashed) == w.env.h(f.content) {
      DigestProvesContent(w.env.h, f, r);
    }
  }

  lemma FinishVerifyKeepsRxOk(w: World, rx: RxState, j: nat, verified: bool)
    requires w.Valid() && RxOk(w, rx) && j < |w.files| && w.files[j].id in rx.completed && w.files[j].id in rx.receivers
    requires var r := rx.receivers[w.files[j].id];
             verified ==> Sinks.Output(r.sink) == w.files[j].content || Collide(w.env.h, r.hashed, w.files[j].content)
    ensures RxOk(w, FinishVerify(rx, w.files[j].id, verified))
  {
    assert FileOk(w, rx, j);
    OneFileChanged(w, rx, FinishVerify(rx, w.files[j].id, verified), j);
  }

  // ----- every run -----

  /** While a re-offer or its answer is under way it names a file of the queue, no loop runs and nothing is on the wire. */
  predicate ControlOpens(w: World, s: State) {
    s.control.NoControl? || (s.control.i < |w.files| && s.snd.loop.Waiting? && s.wire == [])
  }

  ghost predicate Inv(w: World, s: State)
    requires w.Valid()
  {
    SenderOk(w, s.snd) && ControlOpens(w, s) && RxOk(w, s.rx) && Paired(w, s.rx.pending, Pipe(s))
  }

  lemma HandlerKeepsRxOk(w: World, rx: RxState, m: FileMsg, tail: seq<FileMsg>, ok: bool)
    requires w.Valid() && RxOk(w, rx) && Paired(w, rx.pending, [m] + tail)
    ensures RxOk(w, OnMessage(w.env, rx, m, ok)) && Paired(w, OnMessage(w.env, rx, m, ok).pending, tail)
  {
    assert ([m] + tail)[0] == m && ([m] + tail)[1..] == tail;
    match m
    case ChunkMeta(meta) => PendingIsIrrelevant(w, rx, Some(meta));
    case Binary(data) => BinaryKeepsRxOk(w, rx, data, ok);
    case FileComplete(id, checksum) => CompleteKeepsRxOk(w, rx, id, checksum, ok);
    case TransferComplete(_) => DoneIsIrrelevant(w, rx);
  }

  lemma HandleKeepsPaired(w: World, s: State, ok: bool)
    requires w.Valid() && Inv(w, s) && s.inbox != []
    ensures RxOk(w, DoHandle(w, s, ok).rx) && Paired(w, DoHandle(w, s, ok).rx.pending, Pipe(DoHandle(w, s, ok)))
  {
    var tail := s.inbox[1..] + s.wire;
    assert Pipe(s) == [s.inbox[0]] + tail;
    HandlerKeepsRxOk(w, s.rx, s.inbox[0], tail, ok);
  }

  lemma PendingIsIrrelevant(w: World, rx: RxState, p: Option<Meta>)
    requires w.Valid() && RxOk(w, rx)
    ensures RxOk(w, rx.(pending := p))
  {
    OneFileChanged(w, rx, rx.(pending := p), 0);
  }

  lemma DoneIsIrrelevant(w: World, rx: RxState)
    requires w.Valid() && RxOk(w, rx)
    ensures RxOk(w, rx.(transferDone := true))
  {
    OneFileChanged(w, rx, rx.(transferDone := true), 0);
  }

  /** All other steps leave the receiver alone and at most drop what is on the wire. */
  lemma OtherSteps(w: World, s: State, step: Step)
    requires w.Valid() && !step.Emit? && !step.Handle?
    ensures Next(w, s, step).rx == s.rx
    ensures Pipe(Next(w, s, step)) == Pipe(s) || Pipe(Next(w, s, step)) == s.inbox
  {
    var s' := Next(w, s, step);
    if step.Deliver? {
      if s.wire != [] { DeliverKeepsPipe(w, s); }
    } else if Outer(step) {
      var e := OuterIs(w, s, step);
    } else if Cuts(step) {
      CutsIs(w, s, step);
      if s'.wire != s.wire { assert Pipe(s') == s.inbox; }
    }
  }

  lemma OtherKeepsControl(w: World, s: State, step: Step)
    requires w.Valid() && ControlOpens(w, s) && !step.Emit? && !step.Handle?
    ensures ControlOpens(w, Next(w, s, step))
  {
    if Outer(step) {
      var e := OuterIs(w, s, step);
    } else if Cuts(step) {
      CutsIs(w, s, step);
    }
  }

  lemma EmitKeepsPaired(w: World, s: State, bytes: nat)
    requires w.Valid() && LoopOk(w, s.snd.loop) && Paired(w, s.rx.pending, Pipe(s)) && Live(w, s.snd.loop) && s.snd.open
    ensures Paired(w, s.rx.pending, Pipe(DoEmit(w, s, bytes)))
  {
    var msgs := NextFrames(w, s.snd, s.lost, bytes);
    forall p ensures Paired(w, p, msgs) { EmittedPaired(w, s.snd, s.lost, bytes, p); }
    PairedAppend(w, s.rx.pending, Pipe(s), msgs);
    assert Pipe(DoEmit(w, s, bytes)) == Pipe(s) + msgs;
  }

  lemma NextKeepsInv(w: World, s: State, step: Step)
    requires w.Valid() && Inv(w, s)
    ensures Inv(w, Next(w, s, step))
  {
    NextKeepsSenderOk(w, s, step);
    if step.Emit? {
      if Live(w, s.snd.loop) && s.snd.open { EmitKeepsPaired(w, s, step.bytes); }
    } else if step.Handle? {
      if s.inbox != [] { HandleKeepsPaired(w, s, step.ok); }
    } else {
      OtherSteps(w, s, step);
      OtherKeepsControl(w, s, step);
      PairedPrefix(w, s.rx.pending, s.inbox, s.wire);
    }
  }

  lemma {:induction false} RunKeepsInv(w: World, s: State, steps: seq<Step>)
    requires w.Valid() && Inv(w, s)
    ensures Inv(w, Run(w, s, steps))
  {
    if steps != [] {
      RunKeepsInv(w, s, steps[..|steps| - 1]);
      NextKeepsInv(w, Run(w, s, steps[..|steps| - 1]), steps[|steps| - 1]);
    }
  }

  lemma Reachable(w: World, rx: RxState, steps: seq<Step>)
    requires w.Valid() && FreshReceiver(w, rx)
    ensures Inv(w, Run(w, Initially(w, rx), steps))
  {
    FreshIsOk(w, rx);
    StartIsOk(w, 0, map[], 0);
    RunKeepsInv(w, Initially(w, rx), steps);
  }

  /**
   * In every run, with any losses, replays, stale resume points and rejected
   * platform calls: a file shown as completed was saved with exactly the sender's
   * bytes, unless the bytes received and the file collide under the hash.
   */
  lemma CompletedMeansExactBytes(w: World, rx: RxState, steps: seq<Step>, j: nat)
    requires w.Valid() && FreshReceiver(w, rx) && j < |w.files|
    ensures var s := Run(w, Initially(w, rx), steps);
            var f := w.files[j];
            IsCompleted(s.rx, f.id) ==>
              && f.id in s.rx.saved && f.id in s.rx.receivers
              && (s.rx.saved[f.id] == f.content || Collide(w.env.h, s.rx.receivers[f.id].hashed, f.content))
  {
    Reachable(w, rx, steps);
    assert FileOk(w, Run(w, Initially(w, rx), steps).rx, j);
  }

  /** In every run, a binary frame about to be handled is the chunk that the remembered metadata describes. */
  lemma BinaryMeetsItsMetadata(w: World, rx: RxState, steps: seq<Step>)
    requires w.Valid() && FreshReceiver(w, rx)
    ensures var s := Run(w, Initially(w, rx), steps);
            s.inbox != [] && s.inbox[0].Binary? ==> s.rx.pending.Some? && SomeChunk(w, s.rx.pending.value, s.inbox[0].data)
  {
    Reachable(w, rx, steps);
    var s := Run(w, Initially(w, rx), steps);
    if s.inbox != [] { assert Pipe(s)[0] == s.inbox[0]; }
  }

  /** What the user and the digest can see of a file. */
  ghost predicate SameFile(rx: RxState, rx': RxState, id: string) {
    && (id in rx.completed ==> id in rx'.completed)
    && id in rx.receivers && id in rx'.receivers && rx'.receivers[id] == rx.receivers[id]
    && (id in rx'.saved <==> id in rx.saved) && (id in rx.saved ==> rx'.saved[id] == rx.saved[id])
    && (id in rx'.status <==> id in rx.status) && (id in rx.status ==> rx'.status[id] == rx.status[id])
  }

  lemma HandlerFreezes(env: Env, rx: RxState, m: FileMsg, ok: bool, id: string)
    requires id in rx.completed && id in rx.receivers && rx.receivers[id].digested
    ensures SameFile(rx, OnMessage(env, rx, m, ok), id)
  {
    match m {
      case ChunkMeta(_) =>
      case Binary(data) => BinaryEffect(env, rx, data, ok);
      case FileComplete(other, checksum) => CompleteEffect(env, rx, other, checksum, ok);
      case TransferComplete(_) =>
    }
    assert Untouched(rx, OnMessage(env, rx, m, ok), id);
  }

  lemma RxStays(w: World, s: State, step: Step)
    requires w.Valid() && !(step.Handle? && s.inbox != [])
    ensures Next(w, s, step).rx == s.rx
  {
    if !step.Emit? && !step.Handle? { OtherSteps(w, s, step); }
  }

  lemma StaysSame(rx: RxState, id: string)
    requires id in rx.receivers
    ensures SameFile(rx, rx, id)
  {}

  lemma StepFreezes(w: World, s: State, step: Step, id: string)
    requires w.Valid() && RxOk(w, s.rx) && id in s.rx.completed
    ensures SameFile(s.rx, Next(w, s, step).rx, id)
  {
    var j :| 0 <= j < |w.files| && w.files[j].id == id;
    assert FileOk(w, s.rx, j);
    if step.Handle? && s.inbox != [] {
      HandlerFreezes(w.env, s.rx, s.inbox[0], step.ok, id);
    } else {
      RxStays(w, s, step);
      StaysSame(s.rx, id);
    }
  }

  /** A finished file is frozen: no later frame, replayed or not, changes its hash, the bytes handed over or its verdict. */
  lemma {:induction false} FinishedFileIsFrozen(w: World, rx: RxState, steps: seq<Step>, more: seq<Step>, id: string)
    requires w.Valid() && FreshReceiver(w, rx)
    requires id in Run(w, Initially(w, rx), steps).rx.completed
    ensures var s := Run(w, Initially(w, rx), steps);
            SameFile(s.rx, Run(w, s, more).rx, id)
    decreases |more|
  {
    Reachable(w, rx, steps);
    var s := Run(w, Initially(w, rx), steps);
    if more == [] {
      StepFreezes(w, s, Deliver, id);
    } else {
      FinishedFileIsFrozen(w, rx, steps, more[..|more| - 1], id);
      RunKeepsInv(w, s, more[..|more| - 1]);
      StepFreezes(w, Run(w, s, more[..|more| - 1]), more[|more| - 1], id);
    }
  }

  // ----- initialisation vectors -----

  ghost predicate SealingsOk(w: World, s: State)
    requires w.Valid()
  {
    forall e :: e in s.sealings ==> SealingOk(w, e)
  }

  ghost predicate SealingOk(w: World, e: Sealing)
    requires w.Valid()
  {
    && w.env.cipher.Some? && e.fileIndex < |w.files| && e.chunkIndex < w.files[e.fileIndex].Total()
    && e.iv == Iv(w.env.cipher.value.salt, e.fileIndex, e.chunkIndex)
    && e.plain == w.files[e.fileIndex].Chunk(e.chunkIndex)
  }

  lemma StepKeepsSealings(w: World, s: State, step: Step)
    requires w.Valid() && SenderOk(w, s.snd) && SealingsOk(w, s)
    ensures SealingsOk(w, Next(w, s, step))
  {
    if !step.Emit? {
      assert Next(w, s, step).sealings == s.sealings;
    }
  }

  lemma {:induction false} RunKeepsSealings(w: World, rx: RxState, steps: seq<Step>)
    requires w.Valid()
    ensures SealingsOk(w, Run(w, Initially(w, rx), steps)) && SenderOk(w, Run(w, Initially(w, rx), steps).snd)
  {
    StartIsOk(w, 0, map[], 0);
    if steps != [] {
      var init, step := steps[..|steps| - 1], steps[|steps| - 1];
      RunKeepsSealings(w, rx, init);
      StepKeepsSealings(w, Run(w, Initially(w, rx), init), step);
      NextKeepsSenderOk(w, Run(w, Initially(w, rx), init), step);
    }
  }

  /**
   * Over a whole encrypted transfer with all its resumes, two encryptions under one
   * IV are one and the same: same file, same chunk, same plaintext.
   */
  lemma IvReuseIsReplay(w: World, rx: RxState, steps: seq<Step>, a: Sealing, b: Sealing)
    requires w.Valid() && |w.files| <= UINT32_VALUES
    requires forall j :: 0 <= j < |w.files| ==> w.files[j].Total() <= UINT32_VALUES
    requires a in Run(w, Initially(w, rx), steps).sealings && b in Run(w, Initially(w, rx), steps).sealings
    ensures a.iv == b.iv <==> a == b
  {
    RunKeepsSealings(w, rx, steps);
    assert SealingOk(w, a) && SealingOk(w, b);
    if a.iv == b.iv {
      IvInjective(w.env.cipher.value.salt, a.fileIndex, a.chunkIndex, b.fileIndex, b.chunkIndex);
    }
  }

  /** Chunk sizes as the sender selects them keep every file of up to 2^50 bytes within that limit, on any device. */
  lemma SelectedSizesKeepIvsUnique(w: World, deviceMemoryGb: Option<real>)
    requires w.Valid()
    requires forall j :: 0 <= j < |w.files| ==>
               w.files[j].chunkSize == SelectChunkSize(|w.files[j].content|, None, deviceMemoryGb)
               && |w.files[j].content| <= 0x4_0000_0000_0000
    ensures forall j :: 0 <= j < |w.files| ==> w.files[j].Total() <= UINT32_VALUES
  {
    forall j | 0 <= j < |w.files|
      ensures w.files[j].Total() <= UINT32_VALUES
    {
      ChunkIndicesFit(|w.files[j].content|, deviceMemoryGb);
    }
  }
}
