/**
 * What one step of Transfer keeps when the receiver's platform calls are fulfilled:
 * chunks are taken in order, although resume points may be stale and finished files
 * are replayed from chunk 0.
 */
module Resume {
  import opened Basics
  import opened Chunking
  import opened Hashing
  import opened Wire
  import opened Receiving
  import opened ReceiverState
  import opened Transfer
  import opened Schedules
  import Integrity
  import Pump
  import Sinks

  // ----- in order at the receiver -----

  /** How many chunks of file j were taken. */
  function Count(w: World, rx: RxState, j: nat): nat
    requires j < |w.files|
  {
    if w.files[j].id in rx.receivers then |rx.receivers[w.files[j].id].received| else 0
  }

  /** File j has its first chunks, taken in order; once finalized it has them all and was verified. */
  ghost predicate FileInOrder(w: World, rx: RxState, j: nat)
    requires j < |w.files|
  {
    var f := w.files[j];
    && f.Valid() && f.id in rx.receivers
    && rx.receivers[f.id].received == Iota(Count(w, rx, j))
    && Count(w, rx, j) <= f.Total()
    && (f.id in rx.completed ==>
          Count(w, rx, j) == f.Total() && Integrity.IsCompleted(rx, f.id) && f.id in rx.saved && rx.saved[f.id] == f.content)
  }

  ghost predicate InOrder(w: World, rx: RxState) {
    forall j :: 0 <= j < |w.files| ==> FileInOrder(w, rx, j)
  }

  /** No file has fewer chunks than before. */
  ghost predicate Grown(w: World, rx: RxState, rx': RxState) {
    forall j :: 0 <= j < |w.files| ==> Count(w, rx, j) <= Count(w, rx', j)
  }

  /** A frame that fits: the chunk at the first gap or one already taken; completion only after the last chunk. */
  ghost predicate Expected(rx: RxState, m: FileMsg) {
    match m
    case Binary(_) =>
      rx.pending.Some? && rx.pending.value.fileId in rx.receivers
      && rx.pending.value.chunkIndex <= |rx.receivers[rx.pending.value.fileId].received|
    case FileComplete(id, _) => id in rx.receivers && |rx.receivers[id].received| == rx.receivers[id].totalChunks
    case _ => true
  }

  /** Each frame fits when its turn comes. */
  ghost predicate Fits(env: Env, rx: RxState, msgs: seq<FileMsg>)
    decreases |msgs|
  {
    msgs == [] || (Expected(rx, msgs[0]) && Fits(env, OnMessage(env, rx, msgs[0], true), msgs[1..]))
  }

  lemma {:induction false} FitsPrefix(env: Env, rx: RxState, a: seq<FileMsg>, b: seq<FileMsg>)
    requires Fits(env, rx, a + b)
    ensures Fits(env, rx, a)
    decreases |a|
  {
    if a != [] {
      assert (a + b)[0] == a[0] && (a + b)[1..] == a[1..] + b;
      FitsPrefix(env, OnMessage(env, rx, a[0], true), a[1..], b);
    }
  }

  lemma {:induction false} FitsAppend(env: Env, rx: RxState, a: seq<FileMsg>, b: seq<FileMsg>)
    requires Fits(env, rx, a) && Fits(env, HandleAll(env, rx, a), b)
    ensures Fits(env, rx, a + b)
    decreases |a|
  {
    if a == [] {
      assert a + b == b;
    } else {
      assert (a + b)[0] == a[0] && (a + b)[1..] == a[1..] + b;
      FitsAppend(env, OnMessage(env, rx, a[0], true), a[1..], b);
    }
  }

  /** One file changes as it may, the others stay. */
  lemma OneFileInOrder(w: World, rx: RxState, rx': RxState, j: nat)
    requires w.Valid() && InOrder(w, rx) && j < |w.files|
    requires FileInOrder(w, rx', j) && Count(w, rx, j) <= Count(w, rx', j)
    requires forall id :: id in rx.receivers && id != w.files[j].id ==>
               && id in rx'.receivers && rx'.receivers[id] == rx.receivers[id]
               && (id in rx'.completed <==> id in rx.completed)
               && (Integrity.IsCompleted(rx', id) <==> Integrity.IsCompleted(rx, id))
               && (id in rx.saved ==> id in rx'.saved && rx'.saved[id] == rx.saved[id])
    ensures InOrder(w, rx') && Grown(w, rx, rx')
  {
    forall i | 0 <= i < |w.files|
      ensures FileInOrder(w, rx', i) && Count(w, rx, i) <= Count(w, rx', i)
    {
      assert FileInOrder(w, rx, i);
    }
  }

  lemma BinaryInOrder(w: World, rx: RxState, data: seq<byte>)
    requires w.Valid() && Integrity.RxOk(w, rx) && InOrder(w, rx) && Expected(rx, Binary(data))
    requires Integrity.SomeChunk(w, rx.pending.value, data)
    ensures InOrder(w, OnBinary(w.env, rx, data, true)) && Grown(w, rx, OnBinary(w.env, rx, data, true))
  {
    var j: nat, k: nat :| Integrity.IsChunk(w, rx.pending.value, data, j, k);
    ChunkTaken(w, rx, data, j, k);
  }

  /** A fitting chunk of file j is taken if it is new; either way the file then has it. */
  lemma ChunkTaken(w: World, rx: RxState, data: seq<byte>, j: nat, k: nat)
    requires w.Valid() && Integrity.RxOk(w, rx) && InOrder(w, rx) && Expected(rx, Binary(data))
    requires Integrity.IsChunk(w, rx.pending.value, data, j, k)
    ensures var rx' := OnBinary(w.env, rx, data, true);
            InOrder(w, rx') && Grown(w, rx, rx') && Count(w, rx', j) > k
  {
    var meta, f, rx1 := rx.pending.value, w.files[j], rx.(pending := None);
    Integrity.ChunkDecodes(w, j, k);
    assert FileInOrder(w, rx, j) && Integrity.FileOk(w, rx, j);
    InIota(Count(w, rx, j), k);
    SameFilesInOrder(w, rx, rx1);
    if Wanted(rx.receivers[f.id], k) {
      NextChunkInOrder(w, rx1, meta, j, k);
    }
  }

  lemma NextChunkInOrder(w: World, rx: RxState, meta: Meta, j: nat, k: nat)
    requires w.Valid() && InOrder(w, rx) && j < |w.files| && k < w.files[j].Total()
    requires meta.fileId == w.files[j].id && meta.chunkIndex == k == Count(w, rx, j)
    requires meta.fileId in rx.receivers
    ensures var rx' := AcceptInto(rx, meta, w.files[j].Chunk(k));
            InOrder(w, rx') && Grown(w, rx, rx') && Count(w, rx', j) == k + 1
  {
    assert FileInOrder(w, rx, j);
    assert Iota(k + 1) == Iota(k) + [k];
    OneFileInOrder(w, rx, AcceptInto(rx, meta, w.files[j].Chunk(k)), j);
  }

  lemma CompleteInOrder(w: World, rx: RxState, j: nat)
    requires w.Valid() && Integrity.RxOk(w, rx) && InOrder(w, rx) && j < |w.files|
    requires Count(w, rx, j) == w.files[j].Total()
    ensures var rx' := OnFileComplete(w.env, rx, w.files[j].id, Pump.WholeChecksum(w.Job(j)), true);
            InOrder(w, rx') && Grown(w, rx, rx')
  {
    assert FileInOrder(w, rx, j) && Integrity.FileOk(w, rx, j);
    if w.files[j].id !in rx.completed {
      AllChunksMakeTheFile(w, rx, j);
      VerifiedInOrder(w, rx, j);
    } else {
      SameFilesInOrder(w, rx, rx);
    }
  }

  lemma VerifiedInOrder(w: World, rx: RxState, j: nat)
    requires w.Valid() && InOrder(w, rx) && j < |w.files| && w.files[j].id in rx.receivers
    requires Count(w, rx, j) == w.files[j].Total() && Sinks.Output(rx.receivers[w.files[j].id].sink) == w.files[j].content
    ensures var rx' := FinishVerify(BeginVerify(rx, w.files[j].id), w.files[j].id, true);
            InOrder(w, rx') && Grown(w, rx, rx')
  {
    assert FileInOrder(w, rx, j);
    OneFileInOrder(w, rx, FinishVerify(BeginVerify(rx, w.files[j].id), w.files[j].id, true), j);
  }

  /** With every chunk taken in order, the verdict is positive and the output is the file: no collision to fear. */
  lemma AllChunksMakeTheFile(w: World, rx: RxState, j: nat)
    requires w.Valid() && j < |w.files| && FileInOrder(w, rx, j) && Integrity.FileOk(w, rx, j)
    requires Count(w, rx, j) == w.files[j].Total() && w.files[j].id !in rx.completed
    ensures var r := rx.receivers[w.files[j].id];
            && Match(BytesToHex(w.env.h(r.hashed)), Pump.WholeChecksum(w.Job(j))) == Some(true)
            && Sinks.Output(r.sink) == w.files[j].content
  {
    var f := w.files[j];
    var r := rx.receivers[f.id];
    JoinInOrder(f, f.Total());
    BeforeAll(f);
    MatchIsDigestEquality(w.env.h(r.hashed), w.env.h(f.content));
    forall i: nat | i < f.Total() ensures i in r.received { InIota(f.Total(), i); }
    Sinks.CompleteSink(f, r.sink, r.received);
  }

  lemma HandledInOrder(w: World, rx: RxState, m: FileMsg, tail: seq<FileMsg>)
    requires w.Valid() && Integrity.RxOk(w, rx) && Integrity.Paired(w, rx.pending, [m] + tail)
    requires InOrder(w, rx) && Expected(rx, m)
    ensures InOrder(w, OnMessage(w.env, rx, m, true)) && Grown(w, rx, OnMessage(w.env, rx, m, true))
  {
    assert ([m] + tail)[0] == m;
    match m
    case ChunkMeta(meta) => SameFilesInOrder(w, rx, rx.(pending := Some(meta)));
    case Binary(data) => BinaryInOrder(w, rx, data);
    case FileComplete(id, checksum) =>
      var j :| 0 <= j < |w.files| && w.files[j].id == id && checksum == Pump.WholeChecksum(w.Job(j));
      assert Integrity.FileOk(w, rx, j);
      CompleteInOrder(w, rx, j);
    case TransferComplete(_) => SameFilesInOrder(w, rx, rx.(transferDone := true));
  }

  lemma SameFilesInOrder(w: World, rx: RxState, rx': RxState)
    requires w.Valid() && InOrder(w, rx)
    requires rx'.receivers == rx.receivers && rx'.completed == rx.completed && rx'.status == rx.status && rx'.saved == rx.saved
    ensures InOrder(w, rx') && Grown(w, rx, rx')
  {
    assert FileInOrder(w, rx, 0);
    OneFileInOrder(w, rx, rx', 0);
  }

  lemma {:induction false} HandleAllInOrder(w: World, rx: RxState, msgs: seq<FileMsg>)
    requires w.Valid() && Integrity.RxOk(w, rx) && Integrity.Paired(w, rx.pending, msgs)
    requires InOrder(w, rx) && Fits(w.env, rx, msgs)
    ensures var rx' := HandleAll(w.env, rx, msgs);
            Integrity.RxOk(w, rx') && InOrder(w, rx') && Grown(w, rx, rx')
    decreases |msgs|
  {
    if msgs != [] {
      var rx1 := OnMessage(w.env, rx, msgs[0], true);
      assert msgs == [msgs[0]] + msgs[1..];
      Integrity.HandlerKeepsRxOk(w, rx, msgs[0], msgs[1..], true);
      HandledInOrder(w, rx, msgs[0], msgs[1..]);
      HandleAllInOrder(w, rx1, msgs[1..]);
    }
  }

  // ----- the loop -----

  /** The first file that the loop has not begun. */
  function NextFile(loop: Loop): nat
    requires loop.Running()
  {
    if loop.Pumping? then loop.i + 1 else loop.i
  }

  /** Wherever the loop starts or stands in a file, the receiver has everything before it. */
  ghost predicate Aligned(w: World, loop: Loop, rx: RxState)
    requires loop.Running()
  {
    && (loop.Pumping? && loop.i < |w.files| ==> loop.pump.i <= Count(w, rx, loop.i))
    && (forall j :: NextFile(loop) <= j < |w.files| ==> StartOf(w, j, loop.resume) <= Count(w, rx, j))
  }

  /** What a pump's turn sends fits, and the receiver then has one chunk more, or as many. */
  lemma SendsFit(w: World, i: nat, pump: Pump.State, rx: RxState)
    requires w.Valid() && i < |w.files| && Integrity.RxOk(w, rx) && InOrder(w, rx)
    requires pump.i <= Count(w, rx, i) && (pump.point.Reading? ==> pump.i < w.files[i].Total())
    ensures var msgs := Pump.Sends(w.Job(i), pump);
            var rx' := HandleAll(w.env, rx, msgs);
            && Fits(w.env, rx, msgs) && Integrity.RxOk(w, rx') && InOrder(w, rx') && Grown(w, rx, rx')
            && (pump.point.Reading? ==> pump.i < Count(w, rx', i))
  {
    if pump.point.Reading? {
      ChunkFits(w, i, pump.i, rx);
      Integrity.ChunkPaired(w, i, pump.i, rx.pending);
      HandleAllInOrder(w, rx, Pump.Sends(w.Job(i), pump));
    } else {
      SameFilesInOrder(w, rx, rx);
    }
  }

  lemma ChunkFits(w: World, i: nat, k: nat, rx: RxState)
    requires w.Valid() && Integrity.RxOk(w, rx) && InOrder(w, rx)
    requires i < |w.files| && k < w.files[i].Total() && k <= Count(w, rx, i)
    ensures var msgs := Pump.ChunkFrames(w.Job(i), k);
            Fits(w.env, rx, msgs) && k < Count(w, HandleAll(w.env, rx, msgs), i)
  {
    var meta, data := Pump.MetaOf(w.Job(i), k), Pump.Payload(w.Job(i), k);
    var rx1 := rx.(pending := Some(meta));
    Integrity.PendingIsIrrelevant(w, rx, Some(meta));
    SameFilesInOrder(w, rx, rx1);
    assert Integrity.IsChunk(w, meta, data, i, k);
    assert FileInOrder(w, rx, i);
    ChunkTaken(w, rx1, data, i, k);
    TwoFrames(w.env, rx, ChunkMeta(meta), Binary(data));
  }

  /** A pump that completes its file announces it to a receiver that has all of it. */
  lemma AnnouncementFits(w: World, i: nat, pump: Pump.State, rx: RxState)
    requires w.Valid() && i < |w.files| && EndsRight(w, i, pump)
    requires Integrity.RxOk(w, rx) && InOrder(w, rx) && pump.i <= Count(w, rx, i)
    ensures var msgs := Announcement(w, i, pump);
            Fits(w.env, rx, msgs) && Grown(w, rx, HandleAll(w.env, rx, msgs))
  {
    if Announcement(w, i, pump) == [] {
      SameFilesInOrder(w, rx, rx);
    } else {
      var m := FileComplete(w.files[i].id, Pump.WholeChecksum(w.Job(i)));
      assert FileInOrder(w, rx, i) && Integrity.FileOk(w, rx, i);
      CompleteInOrder(w, rx, i);
      OneFrame(w.env, rx, m);
    }
  }

  /** The next frames fit a receiver that has everything before the loop, and keep it aligned. */
  lemma EmittedFits(w: World, s: Sender, lost: set<nat>, bytes: nat, rx: RxState)
    requires w.Valid() && Live(w, s.loop) && LoopOk(w, s.loop) && Aligned(w, s.loop, rx)
    requires Integrity.RxOk(w, rx) && InOrder(w, rx)
    ensures Fits(w.env, rx, NextFrames(w, s, lost, bytes))
    ensures AfterEmit(w, s, bytes).loop.Running() ==>
              Aligned(w, AfterEmit(w, s, bytes).loop, HandleAll(w.env, rx, NextFrames(w, s, lost, bytes)))
  {
    if s.loop.Pumping? {
      TurnFacts(w, s.loop, bytes);
      PumpTurnFits(w, s.loop.i, s.loop.pump, PumpAfter(w, s.loop, bytes), rx);
      AlignedFurther(w, s, bytes, rx, HandleAll(w.env, rx, NextFrames(w, s, lost, bytes)));
    } else {
      BetweenFits(w, s, lost, bytes, rx);
    }
  }

  lemma BetweenFits(w: World, s: Sender, lost: set<nat>, bytes: nat, rx: RxState)
    requires w.Valid() && s.loop.Between? && Aligned(w, s.loop, rx)
    ensures Fits(w.env, rx, NextFrames(w, s, lost, bytes))
    ensures AfterEmit(w, s, bytes).loop.Running() ==>
              Aligned(w, AfterEmit(w, s, bytes).loop, HandleAll(w.env, rx, NextFrames(w, s, lost, bytes)))
  {
    if s.loop.i >= |w.files| && !s.cancelled { OneFrame(w.env, rx, TransferComplete(lost)); }
  }

  lemma AlignedFurther(w: World, s: Sender, bytes: nat, rx: RxState, rx': RxState)
    requires w.Valid() && Live(w, s.loop) && s.loop.Pumping? && Aligned(w, s.loop, rx)
    requires Grown(w, rx, rx') && PumpAfter(w, s.loop, bytes).i <= Count(w, rx', s.loop.i)
    ensures Aligned(w, AfterEmit(w, s, bytes).loop, rx')
  {}

  lemma PumpTurnFits(w: World, i: nat, pump: Pump.State, pump': Pump.State, rx: RxState)
    requires w.Valid() && i < |w.files| && EndsRight(w, i, pump') && (pump.point.Reading? ==> pump.i < w.files[i].Total())
    requires pump'.i == (if pump.point.Reading? then pump.i + 1 else pump.i) && pump.i <= Count(w, rx, i)
    requires Integrity.RxOk(w, rx) && InOrder(w, rx)
    ensures var msgs := Pump.Sends(w.Job(i), pump) + Announcement(w, i, pump');
            var rx' := HandleAll(w.env, rx, msgs);
            Fits(w.env, rx, msgs) && Grown(w, rx, rx') && pump'.i <= Count(w, rx', i)
  {
    var chunk, last := Pump.Sends(w.Job(i), pump), Announcement(w, i, pump');
    var rx1 := HandleAll(w.env, rx, chunk);
    SendsFit(w, i, pump, rx);
    AnnouncementFits(w, i, pump', rx1);
    FitsAppend(w.env, rx, chunk, last);
    HandleAllAppend(w.env, rx, chunk, last);
    GrownFurther(w, rx, rx1, HandleAll(w.env, rx1, last));
  }

  lemma GrownFurther(w: World, a: RxState, b: RxState, c: RxState)
    requires Grown(w, a, b) && Grown(w, b, c)
    ensures Grown(w, a, c)
  {}

  lemma TwoFrames(env: Env, rx: RxState, a: FileMsg, b: FileMsg)
    ensures var rx1 := OnMessage(env, rx, a, true);
            && (Fits(env, rx, [a, b]) <==> Expected(rx, a) && Expected(rx1, b))
            && HandleAll(env, rx, [a, b]) == OnMessage(env, rx1, b, true)
  {
    assert [a, b][0] == a && [a, b][1..] == [b];
    OneFrame(env, OnMessage(env, rx, a, true), b);
  }

  lemma OneFrame(env: Env, rx: RxState, a: FileMsg)
    ensures Fits(env, rx, [a]) <==> Expected(rx, a)
    ensures HandleAll(env, rx, [a]) == OnMessage(env, rx, a, true)
  {
    assert [a][0] == a && [a][1..] == [];
  }

  // ----- the invariant -----

  /** The receiver after everything on its way was handled. */
  ghost function Ahead(w: World, s: State): RxState {
    HandleAll(w.env, s.rx, Pipe(s))
  }

  ghost predicate ControlOk(w: World, s: State) {
    match s.control
    case NoControl => true
    case Offered(i) => i < |w.files|
    case Accepted(i, chunk) => i < |w.files| && chunk <= Count(w, s.rx, i)
  }

  ghost predicate Ordered(w: World, s: State)
    requires w.Valid()
  {
    && InOrder(w, s.rx) && Fits(w.env, s.rx, Pipe(s)) && ControlOk(w, s)
    && (s.snd.open && s.snd.loop.Running() ==> Aligned(w, s.snd.loop, Ahead(w, s)))
  }

  lemma OrderedAfterEmit(w: World, s: State, s': State, msgs: seq<FileMsg>)
    requires w.Valid() && Ordered(w, s)
    requires s'.rx == s.rx && s'.control == s.control && Pipe(s') == Pipe(s) + msgs
    requires Fits(w.env, Ahead(w, s), msgs)
    requires s'.snd.loop.Running() ==> Aligned(w, s'.snd.loop, HandleAll(w.env, Ahead(w, s), msgs))
    ensures Ordered(w, s')
  {
    FitsAppend(w.env, s.rx, Pipe(s), msgs);
    HandleAllAppend(w.env, s.rx, Pipe(s), msgs);
  }

  /** What is on its way takes nothing back. */
  lemma AheadHasMore(w: World, s: State)
    requires w.Valid() && Integrity.Inv(w, s) && Ordered(w, s)
    ensures Grown(w, s.rx, Ahead(w, s)) && Integrity.RxOk(w, Ahead(w, s)) && InOrder(w, Ahead(w, s))
  {
    HandleAllInOrder(w, s.rx, Pipe(s));
  }

  lemma EmitFitsAhead(w: World, s: State, bytes: nat)
    requires w.Valid() && Integrity.Inv(w, s) && Ordered(w, s) && Live(w, s.snd.loop) && s.snd.open
    ensures var msgs := NextFrames(w, s.snd, s.lost, bytes);
            && Fits(w.env, Ahead(w, s), msgs)
            && (AfterEmit(w, s.snd, bytes).loop.Running() ==>
                  Aligned(w, AfterEmit(w, s.snd, bytes).loop, HandleAll(w.env, Ahead(w, s), msgs)))
  {
    AheadHasMore(w, s);
    EmittedFits(w, s.snd, s.lost, bytes, Ahead(w, s));
  }

  lemma EmitKeepsOrdered(w: World, s: State, bytes: nat)
    requires w.Valid() && Integrity.Inv(w, s) && Ordered(w, s) && Live(w, s.snd.loop)
    ensures Ordered(w, DoEmit(w, s, bytes))
  {
    if s.snd.open {
      EmitFitsAhead(w, s, bytes);
      EmitAppends(w, s, bytes);
      OrderedAfterEmit(w, s, DoEmit(w, s, bytes), NextFrames(w, s.snd, s.lost, bytes));
    } else {
      assert Pipe(DoEmit(w, s, bytes)) == Pipe(s);
    }
  }

  lemma EmitAppends(w: World, s: State, bytes: nat)
    requires w.Valid() && Live(w, s.snd.loop) && s.snd.open
    ensures Pipe(DoEmit(w, s, bytes)) == Pipe(s) + NextFrames(w, s.snd, s.lost, bytes)
    ensures DoEmit(w, s, bytes).rx == s.rx && DoEmit(w, s, bytes).control == s.control
    ensures DoEmit(w, s, bytes).snd == AfterEmit(w, s.snd, bytes)
  {
    assert s.inbox + (s.wire + NextFrames(w, s.snd, s.lost, bytes)) == s.inbox + s.wire + NextFrames(w, s.snd, s.lost, bytes);
  }

  lemma HeadOfAhead(env: Env, rx: RxState, m: FileMsg, tail: seq<FileMsg>)
    requires Fits(env, rx, [m] + tail)
    ensures Expected(rx, m)
    ensures Fits(env, OnMessage(env, rx, m, true), tail)
    ensures HandleAll(env, rx, [m] + tail) == HandleAll(env, OnMessage(env, rx, m, true), tail)
  {
    assert ([m] + tail)[0] == m && ([m] + tail)[1..] == tail;
  }

  lemma OrderedAfterHandle(w: World, s: State, s': State)
    requires w.Valid() && Ordered(w, s)
    requires s'.snd == s.snd && s'.control == s.control
    requires InOrder(w, s'.rx) && Grown(w, s.rx, s'.rx) && Fits(w.env, s'.rx, Pipe(s')) && Ahead(w, s') == Ahead(w, s)
    ensures Ordered(w, s')
  {}

  lemma HandleKeepsOrdered(w: World, s: State)
    requires w.Valid() && Integrity.Inv(w, s) && Ordered(w, s) && s.inbox != []
    ensures Ordered(w, DoHandle(w, s, true))
  {
    var m, tail := s.inbox[0], s.inbox[1..] + s.wire;
    assert Pipe(s) == [m] + tail;
    HeadOfAhead(w.env, s.rx, m, tail);
    HandledInOrder(w, s.rx, m, tail);
    OrderedAfterHandle(w, s, DoHandle(w, s, true));
  }

  lemma AnswerKeepsOrdered(w: World, s: State)
    requires w.Valid() && Ordered(w, s)
    ensures Ordered(w, Next(w, s, AnswerOffer))
  {
    if s.control.Offered? {
      var i := s.control.i;
      assert FileInOrder(w, s.rx, i);
      FirstGapIsUnique(s.rx.receivers[w.files[i].id].received, Count(w, s.rx, i)) by {
        forall k: nat | k < Count(w, s.rx, i) ensures k in s.rx.receivers[w.files[i].id].received {
          assert Iota(Count(w, s.rx, i))[k] == k;
        }
      }
    }
    assert Pipe(Next(w, s, AnswerOffer)) == Pipe(s);
  }

  lemma StartAligned(w: World, i: nat, chunk: nat, rx: RxState, ahead: RxState)
    requires w.Valid() && i < |w.files| && chunk <= Count(w, rx, i) && Grown(w, rx, ahead)
    ensures Aligned(w, StartFile(w, 0, map[w.files[i].id := chunk], 0), ahead)
  {}

  lemma AcceptMovesLoop(w: World, s: State)
    requires w.Valid()
    ensures var s' := Next(w, s, TakeAccept);
            && s'.rx == s.rx && s'.inbox == s.inbox && s'.wire == s.wire && s'.snd.open == s.snd.open
            && (s' == s
                || (s'.control.NoControl? && s.control.Accepted? && s.control.i < |w.files|
                    && s'.snd.loop == StartFile(w, 0, map[w.files[s.control.i].id := s.control.chunk], 0)))
  {}

  /** A stale resume point is a lower bound of what the receiver has by the time the loop's frames are handled. */
  lemma AcceptKeepsOrdered(w: World, s: State)
    requires w.Valid() && Integrity.Inv(w, s) && Ordered(w, s)
    ensures Ordered(w, Next(w, s, TakeAccept))
  {
    AcceptMovesLoop(w, s);
    AheadHasMore(w, s);
    if s.control.Accepted? { StartAligned(w, s.control.i, s.control.chunk, s.rx, Ahead(w, s)); }
  }

  /** An event from outside moves no pump on. */
  lemma SignalKeepsAligned(w: World, loop: Loop, e: Pump.Event, rx: RxState)
    requires !e.Advance? && (loop.Running() ==> Aligned(w, loop, rx))
    ensures SignalPump(loop, e).Running() ==> Aligned(w, SignalPump(loop, e), rx)
  {}

  lemma OuterKeepsOrdered(w: World, s: State, step: Step)
    requires w.Valid() && Ordered(w, s) && Outer(step)
    ensures Ordered(w, Next(w, s, step))
  {
    var e := OuterIs(w, s, step);
    if s.snd.open { SignalKeepsAligned(w, s.snd.loop, e, Ahead(w, s)); }
  }

  /** Losing the channel: the loop may run on, but nothing it sends arrives. */
  lemma OrderedAfterCut(w: World, s: State, s': State)
    requires w.Valid() && Ordered(w, s) && Pipe(s') == s.inbox && s'.rx == s.rx && ControlOk(w, s')
    requires s'.snd.open ==> !s'.snd.loop.Running()
    ensures Ordered(w, s')
  {
    FitsPrefix(w.env, s.rx, s.inbox, s.wire);
  }

  lemma CutKeepsOrdered(w: World, s: State, s': State)
    requires w.Valid() && Ordered(w, s) && CutTo(w, s, s')
    ensures Ordered(w, s')
  {
    if s'.wire == [] && (s'.snd.open ==> s'.snd.loop.Waiting?) && (s'.control.NoControl? || s'.control.i < |w.files|) {
      assert Pipe(s') == s.inbox;
      if s'.control.NoControl? || s'.control.Offered? { OrderedAfterCut(w, s, s'); }
    }
  }

  lemma NextKeepsOrdered(w: World, s: State, step: Step)
    requires w.Valid() && Integrity.Inv(w, s) && Ordered(w, s) && !Next(w, s, step).faulty
    ensures Ordered(w, Next(w, s, step))
  {
    match step {
      case Emit(bytes) => if Live(w, s.snd.loop) { EmitKeepsOrdered(w, s, bytes); }
      case Handle(ok) => if s.inbox != [] { HandleKeepsOrdered(w, s); }
      case Deliver => if s.wire != [] { DeliverKeepsPipe(w, s); }
      case AnswerOffer => AnswerKeepsOrdered(w, s);
      case TakeAccept => AcceptKeepsOrdered(w, s);
      case Flow(_) => OuterKeepsOrdered(w, s, step);
      case ConnectionLoss => OuterKeepsOrdered(w, s, step);
      case LinkLost => OuterKeepsOrdered(w, s, step);
      case Notified(_) => OuterKeepsOrdered(w, s, step);
      case LoopRejected => OuterKeepsOrdered(w, s, step);
      case _ =>
        CutsIs(w, s, step);
        CutKeepsOrdered(w, s, Next(w, s, step));
    }
  }
}
