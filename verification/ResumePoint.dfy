/**
 * How stale a resume point is: the answer to a re-offer is read while frames of the
 * old connection still wait in the receiver's queue.
 */
module ResumePoint {
  import opened Basics
  import opened Wire
  import opened Receiving
  import opened ReceiverState
  import opened Transfer
  import opened Schedules
  import opened Resume
  import Integrity
  import GivingUp
  import Recovery
  import Pump

  /** The chunks of a file whose payload is among msgs, with `pending` remembered before them. */
  ghost function ChunksOf(pending: Option<Meta>, msgs: seq<FileMsg>, id: string): set<nat>
    decreases |msgs|
  {
    if msgs == [] then {}
    else
      match msgs[0]
      case ChunkMeta(meta) => ChunksOf(Some(meta), msgs[1..], id)
      case Binary(_) =>
        (if pending.Some? && pending.value.fileId == id then {pending.value.chunkIndex} else {}) + ChunksOf(None, msgs[1..], id)
      case _ => ChunksOf(pending, msgs[1..], id)
  }

  ghost predicate AllTaken(w: World, rx: RxState, msgs: seq<FileMsg>, j: nat)
    requires j < |w.files|
  {
    forall k :: k in ChunksOf(rx.pending, msgs, w.files[j].id) ==> k < Count(w, rx, j)
  }

  // ----- what the waiting frames add -----

  /** Frames without a payload of the file leave it alone. */
  lemma OtherFrameCounts(w: World, rx: RxState, m: FileMsg, j: nat)
    requires j < |w.files|
    requires m.Binary? && rx.pending.Some? ==> rx.pending.value.fileId != w.files[j].id
    ensures Count(w, OnMessage(w.env, rx, m, true), j) == Count(w, rx, j)
  {
    match m {
      case ChunkMeta(_) =>
      case Binary(_) =>
      case FileComplete(id, checksum) => CompletionCounts(w, rx, id, checksum, j);
      case TransferComplete(_) =>
    }
  }

  lemma CompletionCounts(w: World, rx: RxState, id: string, checksum: string, j: nat)
    requires j < |w.files|
    ensures Count(w, OnFileComplete(w.env, rx, id, checksum, true), j) == Count(w, rx, j)
  {
    CompleteEffect(w.env, rx, id, checksum, true);
    if id != w.files[j].id { assert Untouched(rx, OnFileComplete(w.env, rx, id, checksum, true), w.files[j].id); }
  }

  /** A chunk that was taken before adds nothing. */
  lemma ReplayCounts(w: World, rx: RxState, data: seq<byte>, j: nat)
    requires w.Valid() && j < |w.files| && FileInOrder(w, rx, j)
    requires rx.pending.Some? && rx.pending.value.fileId == w.files[j].id && rx.pending.value.chunkIndex < Count(w, rx, j)
    ensures Count(w, OnMessage(w.env, rx, Binary(data), true), j) == Count(w, rx, j)
  {
    InIota(Count(w, rx, j), rx.pending.value.chunkIndex);
  }

  /** Handling the waiting frames adds chunks of file j exactly if one of them carries a chunk not taken yet. */
  lemma {:induction false} CountStaysIff(w: World, rx: RxState, msgs: seq<FileMsg>, j: nat)
    requires w.Valid() && j < |w.files| && Integrity.RxOk(w, rx) && InOrder(w, rx)
    requires Fits(w.env, rx, msgs) && Integrity.Paired(w, rx.pending, msgs)
    ensures Count(w, HandleAll(w.env, rx, msgs), j) == Count(w, rx, j) <==> AllTaken(w, rx, msgs, j)
    decreases |msgs|
  {
    if msgs != [] {
      var m, tail := msgs[0], msgs[1..];
      var rx1 := OnMessage(w.env, rx, m, true);
      assert msgs == [m] + tail;
      Integrity.HandlerKeepsRxOk(w, rx, m, tail, true);
      HandledInOrder(w, rx, m, tail);
      HandleAllInOrder(w, rx1, tail);
      CountStaysIff(w, rx1, tail, j);
      HeadCounts(w, rx, m, tail, j);
    }
  }

  lemma HeadCounts(w: World, rx: RxState, m: FileMsg, tail: seq<FileMsg>, j: nat)
    requires w.Valid() && j < |w.files| && Integrity.RxOk(w, rx) && InOrder(w, rx)
    requires Expected(rx, m) && Integrity.Paired(w, rx.pending, [m] + tail)
    requires Grown(w, rx, OnMessage(w.env, rx, m, true))
    ensures var rx1 := OnMessage(w.env, rx, m, true);
            && Count(w, rx, j) <= Count(w, rx1, j)
            && (AllTaken(w, rx, [m] + tail, j) <==> Count(w, rx1, j) == Count(w, rx, j) && AllTaken(w, rx1, tail, j))
  {
    var rx1 := OnMessage(w.env, rx, m, true);
    assert ([m] + tail)[0] == m && ([m] + tail)[1..] == tail;
    HeadChunks(rx, m, tail, w.env, w.files[j].id);
    if m.Binary? && rx.pending.value.fileId == w.files[j].id {
      var i: nat, k: nat :| Integrity.IsChunk(w, rx.pending.value, m.data, i, k);
      assert i == j && FileInOrder(w, rx, j);
      ChunkTaken(w, rx, m.data, j, k);
      if k < Count(w, rx, j) { ReplayCounts(w, rx, m.data, j); }
    } else {
      OtherFrameCounts(w, rx, m, j);
    }
  }

  lemma HeadChunks(rx: RxState, m: FileMsg, tail: seq<FileMsg>, env: Env, id: string)
    requires m.Binary? ==> rx.pending.Some?
    ensures ChunksOf(rx.pending, [m] + tail, id)
            == (if m.Binary? && rx.pending.value.fileId == id then {rx.pending.value.chunkIndex} else {})
               + ChunksOf(OnMessage(env, rx, m, true).pending, tail, id)
  {
    assert ([m] + tail)[0] == m && ([m] + tail)[1..] == tail;
  }

  // ----- until the loop gets to the file -----

  /** The loop has sent nothing of file j from chunk `from` on. */
  predicate NotBegun(loop: Loop, j: nat, from: nat) {
    loop.Running() && (loop.i < j || (loop.i == j && (loop.Pumping? ==> loop.pump.i <= from)))
  }

  /** A running loop that restarted with the resume point `from` for file j. */
  ghost predicate Restarted(w: World, t: State, j: nat, from: nat)
    requires w.Valid() && j < |w.files|
  {
    && Integrity.Inv(w, t) && Ordered(w, t) && t.snd.open
    && (t.snd.loop.Running() ==> StartOf(w, j, t.snd.loop.resume) == from)
  }

  lemma OtherChunkCounts(w: World, i: nat, k: nat, rx: RxState, j: nat)
    requires w.Valid() && i < |w.files| && j < |w.files| && i != j
    ensures Count(w, HandleAll(w.env, rx, Pump.ChunkFrames(w.Job(i), k)), j) == Count(w, rx, j)
  {
    var meta, data := Pump.MetaOf(w.Job(i), k), Pump.Payload(w.Job(i), k);
    assert meta.fileId == w.files[i].id != w.files[j].id;
    TwoFrames(w.env, rx, ChunkMeta(meta), Binary(data));
    OtherFrameCounts(w, rx, ChunkMeta(meta), j);
    OtherFrameCounts(w, rx.(pending := Some(meta)), Binary(data), j);
  }

  lemma AnnouncementCounts(w: World, i: nat, pump: Pump.State, rx: RxState, j: nat)
    requires w.Valid() && i < |w.files| && j < |w.files|
    ensures Count(w, HandleAll(w.env, rx, Announcement(w, i, pump)), j) == Count(w, rx, j)
  {
    var last := Announcement(w, i, pump);
    if last != [] {
      OneFrame(w.env, rx, last[0]);
      OtherFrameCounts(w, rx, last[0], j);
    }
  }

  lemma OtherFileCounts(w: World, i: nat, pump: Pump.State, pump': Pump.State, rx: RxState, j: nat)
    requires w.Valid() && i < |w.files| && j < |w.files| && i != j
    ensures Count(w, HandleAll(w.env, rx, Pump.Sends(w.Job(i), pump) + Announcement(w, i, pump')), j) == Count(w, rx, j)
  {
    var chunk, last := Pump.Sends(w.Job(i), pump), Announcement(w, i, pump');
    HandleAllAppend(w.env, rx, chunk, last);
    if pump.point.Reading? { OtherChunkCounts(w, i, pump.i, rx, j); }
    AnnouncementCounts(w, i, pump', HandleAll(w.env, rx, chunk), j);
  }

  lemma EmitBeforeFile(w: World, t: State, bytes: nat, j: nat, from: nat)
    requires w.Valid() && j < |w.files| && Live(w, t.snd.loop) && LoopOk(w, t.snd.loop) && t.snd.open
    requires StartOf(w, j, t.snd.loop.resume) == from
    requires NotBegun(AfterEmit(w, t.snd, bytes).loop, j, from)
    ensures Count(w, Ahead(w, DoEmit(w, t, bytes)), j) == Count(w, Ahead(w, t), j) && NotBegun(t.snd.loop, j, from)
  {
    var msgs := NextFrames(w, t.snd, t.lost, bytes);
    NothingOfTheFile(w, t.snd, t.lost, bytes, Ahead(w, t), j, from);
    assert Pipe(DoEmit(w, t, bytes)) == Pipe(t) + msgs;
    HandleAllAppend(w.env, t.rx, Pipe(t), msgs);
  }

  lemma NothingOfTheFile(w: World, s: Sender, lost: set<nat>, bytes: nat, rx: RxState, j: nat, from: nat)
    requires w.Valid() && j < |w.files| && Live(w, s.loop) && LoopOk(w, s.loop) && StartOf(w, j, s.loop.resume) == from
    requires NotBegun(AfterEmit(w, s, bytes).loop, j, from)
    ensures Count(w, HandleAll(w.env, rx, NextFrames(w, s, lost, bytes)), j) == Count(w, rx, j) && NotBegun(s.loop, j, from)
  {
    if s.loop.Pumping? {
      PumpAfterIsOk(w, s.loop, bytes);
      if s.loop.i != j { OtherFileCounts(w, s.loop.i, s.loop.pump, PumpAfter(w, s.loop, bytes), rx, j); }
    }
  }

  lemma HandleKeepsAhead(w: World, t: State)
    requires w.Valid() && Fits(w.env, t.rx, Pipe(t)) && t.inbox != []
    ensures Ahead(w, DoHandle(w, t, true)) == Ahead(w, t)
  {
    var m, tail := t.inbox[0], t.inbox[1..] + t.wire;
    assert Pipe(t) == [m] + tail && Pipe(DoHandle(w, t, true)) == tail;
    HeadOfAhead(w.env, t.rx, m, tail);
  }

  lemma StepBeforeFile(w: World, t: State, step: Step, j: nat, from: nat)
    requires w.Valid() && j < |w.files| && Restarted(w, t, j, from) && QuietStep(step) && (step.Handle? ==> step.ok)
    requires NotBegun(Next(w, t, step).snd.loop, j, from)
    ensures Count(w, Ahead(w, Next(w, t, step)), j) == Count(w, Ahead(w, t), j) && NotBegun(t.snd.loop, j, from)
  {
    if step.Emit? {
      if Live(w, t.snd.loop) { EmitBeforeFile(w, t, step.bytes, j, from); }
    } else if step.Handle? {
      if t.inbox != [] { HandleKeepsAhead(w, t); }
    } else if step.Deliver? {
      if t.wire != [] { DeliverKeepsPipe(w, t); }
    } else {
      assert Pipe(Next(w, t, step)) == Pipe(t);
    }
  }

  lemma QuietKeepsResume(w: World, t: State, step: Step)
    requires w.Valid() && QuietStep(step)
    ensures var t' := Next(w, t, step);
            t'.snd.open == t.snd.open
            && (t'.snd.loop.Running() ==> t.snd.loop.Running() && t'.snd.loop.resume == t.snd.loop.resume)
  {
    if step.Emit? && Live(w, t.snd.loop) { EmitKeepsResume(w, t.snd, step.bytes); }
  }

  lemma EmitKeepsResume(w: World, s: Sender, bytes: nat)
    requires w.Valid() && Live(w, s.loop)
    ensures var s' := AfterEmit(w, s, bytes); s'.open == s.open && (s'.loop.Running() ==> s'.loop.resume == s.loop.resume)
  {}

  lemma StepStaysRestarted(w: World, t: State, step: Step, j: nat, from: nat)
    requires w.Valid() && j < |w.files| && Restarted(w, t, j, from) && !t.faulty && QuietStep(step) && (step.Handle? ==> step.ok)
    ensures Restarted(w, Next(w, t, step), j, from)
  {
    Integrity.NextKeepsInv(w, t, step);
    Recovery.QuietKeepsFaulty(w, t, step);
    NextKeepsOrdered(w, t, step);
    QuietKeepsResume(w, t, step);
  }

  lemma {:induction false} RunBeforeFile(w: World, t: State, more: seq<Step>, j: nat, from: nat)
    requires w.Valid() && j < |w.files| && Restarted(w, t, j, from) && !t.faulty && Quiet(more) && Fulfilled(more)
    ensures Restarted(w, Run(w, t, more), j, from) && !Run(w, t, more).faulty
    ensures NotBegun(Run(w, t, more).snd.loop, j, from) ==> Count(w, Ahead(w, Run(w, t, more)), j) == Count(w, Ahead(w, t), j)
  {
    if more != [] {
      var init, step := more[..|more| - 1], more[|more| - 1];
      assert step in more && forall x :: x in init ==> x in more;
      RunBeforeFile(w, t, init, j, from);
      StepStaysRestarted(w, Run(w, t, init), step, j, from);
      Recovery.QuietKeepsFaulty(w, Run(w, t, init), step);
      if NotBegun(Run(w, t, more).snd.loop, j, from) { StepBeforeFile(w, Run(w, t, init), step, j, from); }
    }
  }

  // ----- while the answer travels -----

  /** The answer to the re-offer of s is on its way, and the receiver goes on with its queue. */
  ghost predicate Travelling(w: World, a: State, b: State)
    requires w.Valid()
  {
    && Integrity.Inv(w, b) && Ordered(w, b) && !b.faulty
    && b.snd == a.snd && b.control == a.control && Ahead(w, b) == Ahead(w, a)
  }

  lemma TravellingStep(w: World, a: State, b: State, step: Step)
    requires w.Valid() && Travelling(w, a, b) && a.control.Accepted? && QuietStep(step) && (step.Handle? ==> step.ok)
    ensures Travelling(w, a, Next(w, b, step))
  {
    Integrity.NextKeepsInv(w, b, step);
    Recovery.QuietKeepsFaulty(w, b, step);
    NextKeepsOrdered(w, b, step);
    if step.Handle? && b.inbox != [] {
      HandleKeepsAhead(w, b);
    } else {
      WaitingStays(w, b, step);
    }
  }

  /** With no loop and nothing on the wire, only the receiver does anything. */
  lemma WaitingStays(w: World, b: State, step: Step)
    requires w.Valid() && b.snd.loop.Waiting? && b.wire == [] && QuietStep(step) && !(step.Handle? && b.inbox != [])
    ensures Next(w, b, step) == b
  {}

  lemma {:induction false} TravellingRun(w: World, a: State, pre: seq<Step>)
    requires w.Valid() && Travelling(w, a, a) && a.control.Accepted? && Quiet(pre) && Fulfilled(pre)
    ensures Travelling(w, a, Run(w, a, pre))
  {
    if pre != [] {
      var init, step := pre[..|pre| - 1], pre[|pre| - 1];
      assert step in pre && forall x :: x in init ==> x in pre;
      TravellingRun(w, a, init);
      TravellingStep(w, a, Run(w, a, init), step);
    }
  }

  // ----- the resume point -----

  lemma FirstGapOfPrefix(received: seq<nat>)
    requires received == Iota(|received|)
    ensures FirstGap(received) == |received|
  {
    InIota(|received|, |received|);
    forall k: nat | k < |received| ensures k in received { InIota(|received|, k); }
    FirstGapIsUnique(received, |received|);
  }

  lemma AnswerIsCount(w: World, s: State)
    requires w.Valid() && Integrity.Inv(w, s) && Ordered(w, s) && s.control.Offered?
    ensures var a := Next(w, s, AnswerOffer);
            s.control.i < |w.files| && a == s.(control := Accepted(s.control.i, Count(w, s.rx, s.control.i)))
  {
    var id := w.files[s.control.i].id;
    assert id in w.Ids();
    assert FileInOrder(w, s.rx, s.control.i);
    FirstGapOfPrefix(s.rx.receivers[id].received);
  }

  lemma AnswerTravels(w: World, s: State)
    requires w.Valid() && Integrity.Inv(w, s) && Ordered(w, s) && !s.faulty && s.control.Offered?
    ensures var a := Next(w, s, AnswerOffer); Travelling(w, a, a) && Ahead(w, a) == Ahead(w, s)
  {
    Integrity.NextKeepsInv(w, s, AnswerOffer);
    NextKeepsOrdered(w, s, AnswerOffer);
    AnswerIsCount(w, s);
    assert Pipe(Next(w, s, AnswerOffer)) == Pipe(s);
  }

  lemma TakenIs(w: World, b: State)
    requires w.Valid() && b.snd.open && b.control.Accepted? && b.control.i < |w.files|
    ensures Next(w, b, TakeAccept)
            == b.(control := NoControl, lost := {}, snd := AfterAccept(w, b.snd, map[w.files[b.control.i].id := b.control.chunk]))
  {}

  lemma TakenInOrder(w: World, b: State)
    requires w.Valid() && Integrity.Inv(w, b) && Ordered(w, b) && !b.faulty
    ensures Integrity.Inv(w, Next(w, b, TakeAccept)) && Ordered(w, Next(w, b, TakeAccept))
  {
    Integrity.NextKeepsInv(w, b, TakeAccept);
    NextKeepsOrdered(w, b, TakeAccept);
  }

  lemma TakenRestarts(w: World, b: State)
    requires w.Valid() && Integrity.Inv(w, b) && Ordered(w, b) && !b.faulty && b.snd.open && b.control.Accepted?
    ensures b.control.i < |w.files| && Restarted(w, Next(w, b, TakeAccept), b.control.i, b.control.chunk)
    ensures Ahead(w, Next(w, b, TakeAccept)) == Ahead(w, b) && !Next(w, b, TakeAccept).faulty
  {
    TakenInOrder(w, b);
    TakenIs(w, b);
    assert Pipe(Next(w, b, TakeAccept)) == Pipe(b);
  }

  /** The re-offer of s is answered; after `pre` the answer arrives, and the loop starts again. */
  ghost function Resumed(w: World, s: State, pre: seq<Step>): State
    requires w.Valid()
  {
    Next(w, Run(w, Next(w, s, AnswerOffer), pre), TakeAccept)
  }

  lemma AnswerRestarts(w: World, s: State, pre: seq<Step>)
    requires w.Valid() && Integrity.Inv(w, s) && Ordered(w, s) && !s.faulty && s.snd.open && s.control.Offered?
    requires Quiet(pre) && Fulfilled(pre)
    ensures s.control.i < |w.files| && Restarted(w, Resumed(w, s, pre), s.control.i, Count(w, s.rx, s.control.i))
    ensures Ahead(w, Resumed(w, s, pre)) == Ahead(w, s) && !Resumed(w, s, pre).faulty
  {
    var a := Next(w, s, AnswerOffer);
    AnswerIsCount(w, s);
    AnswerTravels(w, s);
    TravellingRun(w, a, pre);
    TakenRestarts(w, Run(w, a, pre));
  }

  lemma CurrentIff(w: World, s: State, pre: seq<Step>, more: seq<Step>, t: State)
    requires w.Valid() && Integrity.Inv(w, s) && Ordered(w, s) && !s.faulty && s.snd.open && s.control.Offered?
    requires Quiet(pre) && Fulfilled(pre) && Quiet(more) && Fulfilled(more) && t == Run(w, Resumed(w, s, pre), more)
    requires t.snd.loop.Pumping? && t.snd.loop.i == s.control.i && t.snd.loop.pump.i == Count(w, s.rx, s.control.i)
    ensures t.snd.loop.pump.i == Count(w, Ahead(w, t), s.control.i) <==> AllTaken(w, s.rx, s.inbox, s.control.i)
  {
    var j, from := s.control.i, Count(w, s.rx, s.control.i);
    AnswerRestarts(w, s, pre);
    RunBeforeFile(w, Resumed(w, s, pre), more, j, from);
    assert NotBegun(t.snd.loop, j, from);
    assert Pipe(s) == s.inbox;
    CountStaysIff(w, s.rx, s.inbox, j);
  }

  /**
   * A resume point is the number of chunks in order at the answer.  However far the
   * receiver gets with its queue while the answer travels and the loop comes to the
   * file: the point is still that number when the restarted loop's first chunk of the
   * file gets its turn, after all that is on its way before it, exactly if no frame
   * waiting in the queue at the answer carried a chunk of the file that had not been taken.
   */
  lemma ResumePointIsCurrentIff(w: World, rx: RxState, steps: seq<Step>, pre: seq<Step>, more: seq<Step>)
    requires w.Valid() && FreshReceiver(w, rx) && Quiet(pre) && Fulfilled(pre) && Quiet(more) && Fulfilled(more)
    requires var s := Run(w, Initially(w, rx), steps); !s.faulty && s.snd.open && s.control.Offered?
    ensures var s := Run(w, Initially(w, rx), steps);
            var t := Run(w, Resumed(w, s, pre), more);
            && s.control.i < |w.files|
            && (t.snd.loop.Pumping? && t.snd.loop.i == s.control.i && t.snd.loop.pump.i == Count(w, s.rx, s.control.i) ==>
                  (t.snd.loop.pump.i == Count(w, Ahead(w, t), s.control.i) <==> AllTaken(w, s.rx, s.inbox, s.control.i)))
  {
    Recovery.Reachable(w, rx, steps);
    var s := Run(w, Initially(w, rx), steps);
    var t := Run(w, Resumed(w, s, pre), more);
    if t.snd.loop.Pumping? && t.snd.loop.i == s.control.i && t.snd.loop.pump.i == Count(w, s.rx, s.control.i) {
      CurrentIff(w, s, pre, more, t);
    }
  }

  // ----- a stale one -----

  /** The first chunk is sent and delivered, then the connection is lost and restored while it waits in the queue. */
  const LATE_CHUNK: seq<Step> :=
    [Emit(0), Emit(0), Emit(0)] + [Emit(0), Deliver, Deliver] + [ConnectionLoss, AttemptReconnect(true), ChannelsReady]

  /** The turn after the first read: the chunk's frames, and perhaps FILE_COMPLETE behind them. */
  lemma FirstChunkSent(w: World, s: State)
    requires w.Valid() && s.snd.open && s.wire == []
    requires s.snd.loop == Pumping(0, map[], Pump.Init(0, false, false, 0).(point := Pump.Reading))
    ensures var t := Next(w, s, Emit(0));
            && 2 <= |t.wire| && t.wire[..2] == Pump.ChunkFrames(w.Job(0), 0)
            && t.inbox == s.inbox && t.rx == s.rx && t.faulty == s.faulty && t.control == s.control && t.linked == s.linked
            && t.snd == s.snd.(loop := t.snd.loop)
  {
    var chunk, last := Pump.ChunkFrames(w.Job(0), 0), Announcement(w, 0, PumpAfter(w, s.snd.loop, 0));
    assert Next(w, s, Emit(0)).wire == chunk + last;
  }

  lemma TwoDelivered(w: World, s: State)
    requires w.Valid() && s.inbox == [] && 2 <= |s.wire|
    ensures Next(w, Next(w, s, Deliver), Deliver) == s.(inbox := s.wire[..2], wire := s.wire[2..])
  {
    assert s.wire[..2] == [s.wire[0]] + [s.wire[1]] && s.wire[1..][1..] == s.wire[2..];
  }

  lemma FirstChunkDelivered(w: World, rx: RxState)
    requires w.Valid()
    ensures var t := Run(w, Initially(w, rx), [Emit(0), Emit(0), Emit(0)] + [Emit(0), Deliver, Deliver]);
            && t.inbox == Pump.ChunkFrames(w.Job(0), 0) && t.rx == rx && !t.faulty && t.control.NoControl? && t.linked
            && t.snd.attempts == 0 && t.snd.scheduled == 0 && !t.snd.cancelled && t.snd.transferState == TransferState.Transferring
            && t.snd.activeFileIndex == 0
  {
    var s0 := Initially(w, rx);
    GivingUp.ReadsFirstChunk(w, rx);
    var s := Run(w, s0, [Emit(0), Emit(0), Emit(0)]);
    RunAppend(w, s0, [Emit(0), Emit(0), Emit(0)], [Emit(0), Deliver, Deliver]);
    RunThree(w, s, Emit(0), Deliver, Deliver);
    FirstChunkSent(w, s);
    TwoDelivered(w, Next(w, s, Emit(0)));
  }

  lemma AttemptOffers(w: World, s: State)
    requires w.Valid() && s.snd.scheduled > 0 && !s.snd.cancelled && s.linked
    ensures Next(w, s, AttemptReconnect(true))
            == Cut(s).(snd := s.snd.(scheduled := s.snd.scheduled - 1, open := false, reconnecting := true), offered := true)
  {}

  lemma ReadyReoffers(w: World, s: State)
    requires w.Valid() && !s.snd.cancelled && s.snd.reconnecting && s.offered && s.snd.activeFileIndex < |w.files|
    ensures Next(w, s, ChannelsReady) == Cut(s).(snd := AfterReady(s.snd), offered := false, control := Offered(s.snd.activeFileIndex))
  {}

  lemma ReofferWhileWaiting(w: World, rx: RxState)
    requires w.Valid()
    ensures var s := Run(w, Initially(w, rx), LATE_CHUNK);
            && !s.faulty && s.snd.open && s.control == Offered(0) && s.rx == rx && Pipe(s) == Pump.ChunkFrames(w.Job(0), 0)
  {
    var s0, a := Initially(w, rx), [Emit(0), Emit(0), Emit(0)] + [Emit(0), Deliver, Deliver];
    var s := Run(w, s0, a);
    FirstChunkDelivered(w, rx);
    RunAppend(w, s0, a, [ConnectionLoss, AttemptReconnect(true), ChannelsReady]);
    RunThree(w, s, ConnectionLoss, AttemptReconnect(true), ChannelsReady);
    GivingUp.LossCounted(w, s);
    AttemptOffers(w, Next(w, s, ConnectionLoss));
    ReadyReoffers(w, Next(w, Next(w, s, ConnectionLoss), AttemptReconnect(true)));
  }

  /** The answer may be stale: here it is chunk 0, with chunk 0 already waiting in the receiver's queue. */
  lemma StaleResumePoint(w: World, rx: RxState)
    requires w.Valid() && FreshReceiver(w, rx)
    ensures var s := Run(w, Initially(w, rx), LATE_CHUNK);
            && !s.faulty && s.snd.open && s.control == Offered(0)
            && Next(w, s, AnswerOffer).control == Accepted(0, 0) && 0 < Count(w, Ahead(w, s), 0)
  {
    ReofferWhileWaiting(w, rx);
    Recovery.Reachable(w, rx, LATE_CHUNK);
    assert IsFresh(w.files[0], rx.receivers[w.files[0].id]);
    AnswerIsCount(w, Run(w, Initially(w, rx), LATE_CHUNK));
    ChunkFits(w, 0, 0, rx);
  }
}
