/**
 * The sending loop of one file (chunkPump.ts) as an interleaving machine: its
 * suspension points against pause, resume, cancel and the draining channel
 * buffer.
 */
module Pump {
  import opened Basics
  import opened Chunking
  import opened Hashing
  import opened Encryption
  import opened Wire

  const HIGH_WATERMARK: nat := 8 * 1024 * 1024
  const LOW_WATERMARK: nat := 1024 * 1024

  /** What one pump is constructed with. */
  datatype Job = Job(file: SourceFile, fileIndex: nat, env: Env) {
    ghost predicate Valid() { file.Valid() }
  }

  // ----- frames -----

  function Payload(job: Job, k: nat): seq<byte>
    requires job.Valid()
  {
    match job.env.cipher
    case None => job.file.Chunk(k)
    case Some(c) => c.seal(Iv(c.salt, job.fileIndex, k), job.file.Chunk(k))
  }

  function MetaOf(job: Job, k: nat): Meta
    requires job.Valid()
  {
    Meta(job.file.id, k, |Payload(job, k)|,
         match job.env.cipher
         case None => None
         case Some(c) => Some(Iv(c.salt, job.fileIndex, k)))
  }

  /** A chunk's metadata frame, then its binary frame. */
  function ChunkFrames(job: Job, k: nat): seq<FileMsg>
    requires job.Valid()
  {
    [ChunkMeta(MetaOf(job, k)), Binary(Payload(job, k))]
  }

  /** The frames of chunks from, from + 1, ..., to - 1. */
  function Frames(job: Job, from: nat, to: nat): seq<FileMsg>
    requires job.Valid()
  {
    if to <= from then [] else Frames(job, from, to - 1) + ChunkFrames(job, to - 1)
  }

  /** The hex digest of the whole file. */
  function WholeChecksum(job: Job): string {
    BytesToHex(job.env.h(job.file.content))
  }

  // ----- the machine -----

  datatype Outcome = Completed(checksum: string) | Cancelled

  /** Suspension points of `run`; the Ready points are continuations waiting to be scheduled. */
  datatype Point =
    | Prehash        // hashing the chunks below the start chunk
    | WaitResume     // queued in resumeWaiters
    | ResumeReady
    | WaitBuffer     // subscribed to the low-buffer event
    | BufferReady
    | Reading        // reading, and perhaps encrypting, chunk i
    | Done(outcome: Outcome)

  /** `waiters` counts the entries of resumeWaiters; `sent` is everything given to the channel. */
  datatype State = State(
    i: nat, point: Point, paused: bool, cancelled: bool, waiters: nat,
    hashed: seq<byte>, sent: seq<FileMsg>, buffered: nat)

  datatype Event =
    | Pause
    | Resume
    | Cancel
    | Drain(bytes: nat)        // the channel transmits
    | Advance(metaBytes: nat)  // the loop runs to its next suspension point; size of a metadata frame, should it send one

  function Init(from: nat, paused: bool, cancelled: bool, buffered: nat): State {
    State(from, Prehash, paused, cancelled, 0, [], [], buffered)
  }

  /** From the head of the loop to its first suspension point. */
  function LoopHead(job: Job, s: State): State
    requires job.Valid()
  {
    if s.i >= job.file.Total() then s.(point := Done(Completed(BytesToHex(job.env.h(s.hashed)))))
    else if s.cancelled then s.(point := Done(Cancelled))
    else if s.paused then s.(point := WaitResume, waiters := s.waiters + 1)
    else s.(point := ResumeReady)
  }

  function WakeWaiters(s: State): State {
    s.(paused := false, waiters := 0, point := if s.point.WaitResume? && s.waiters > 0 then ResumeReady else s.point)
  }

  /** The events from outside; they send nothing. */
  function Signal(s: State, e: Event): State
    requires !e.Advance?
  {
    match e
    case Pause => s.(paused := true)
    case Resume => WakeWaiters(s)
    case Cancel => WakeWaiters(s.(cancelled := true))
    case Drain(n) =>
      var left := if n <= s.buffered then s.buffered - n else 0;
      // the low event is delivered at the crossing
      if s.point.WaitBuffer? && left <= LOW_WATERMARK < s.buffered
      then s.(buffered := left, point := BufferReady)
      else s.(buffered := left)
  }

  /** The loop runs to its next suspension point. */
  function Advanced(job: Job, s: State, metaBytes: nat): State
    requires job.Valid()
  {
    match s.point
    case Prehash => LoopHead(job, s.(hashed := job.file.Before(s.i)))
    case ResumeReady =>
      if s.cancelled then s.(point := Done(Cancelled))
      else if s.buffered < HIGH_WATERMARK then s.(point := BufferReady)
      else s.(point := WaitBuffer)
    case BufferReady => if s.cancelled then s.(point := Done(Cancelled)) else s.(point := Reading)
    case Reading => LoopHead(job, SendChunk(job, s, metaBytes))
    case _ => s
  }

  function Step(job: Job, s: State, e: Event): State
    requires job.Valid()
  {
    if e.Advance? then Advanced(job, s, e.metaBytes) else Signal(s, e)
  }

  /** The frames that the loop gives to the channel on its way to the next suspension point. */
  function Sends(job: Job, s: State): seq<FileMsg>
    requires job.Valid()
  {
    if s.point.Reading? then ChunkFrames(job, s.i) else []
  }

  /** Chunk i is folded into the digest and given to the channel. */
  function SendChunk(job: Job, s: State, metaBytes: nat): State
    requires job.Valid()
  {
    s.(i := s.i + 1,
       hashed := s.hashed + job.file.Chunk(s.i),
       sent := s.sent + ChunkFrames(job, s.i),
       buffered := s.buffered + metaBytes + |Payload(job, s.i)|)
  }

  function Run(job: Job, s: State, events: seq<Event>): State
    requires job.Valid()
  {
    if events == [] then s else Step(job, Run(job, s, events[..|events| - 1]), events[|events| - 1])
  }

  // ----- what holds at every moment of every run -----

  ghost predicate Progress(job: Job, from: nat, s: State)
    requires job.Valid()
  {
    && from <= s.i && (s.i <= job.file.Total() || s.i == from)
    && s.sent == Frames(job, from, s.i)
    && (!s.point.Prehash? ==> s.hashed == job.file.Before(s.i))
    && (s.point.Prehash? ==> s.i == from && s.hashed == [])
    && (s.point.Done? || s.point.Prehash? || s.i < job.file.Total())
    && (s.point.Done? && s.point.outcome.Completed? ==>
          s.i >= job.file.Total() && s.point.outcome.checksum == WholeChecksum(job))
    && (s.point.Done? && s.point.outcome.Cancelled? ==> s.cancelled)
  }

  /** Not paused: nobody waits.  Paused: at most the loop itself waits, and only at its waiting point. */
  ghost predicate WaitersOk(s: State) {
    && s.waiters == (if s.point.WaitResume? then 1 else 0)
    && (s.point.WaitResume? ==> s.paused)
  }

  /** Below the high mark whenever a send may follow; above the low mark while waiting for the event. */
  ghost predicate BufferOk(s: State) {
    && (s.point.BufferReady? || s.point.Reading? ==> s.buffered < HIGH_WATERMARK)
    && (s.point.WaitBuffer? ==> LOW_WATERMARK < s.buffered)
  }

  ghost predicate Inv(job: Job, from: nat, s: State)
    requires job.Valid()
  {
    Progress(job, from, s) && WaitersOk(s) && BufferOk(s)
  }

  /** Past the end the prefix is the whole file. */
  lemma {:induction false} BeforePastEnd(f: SourceFile, n: nat)
    requires f.Valid() && f.Total() <= n
    ensures f.Before(n) == f.content
    decreases n
  {
    BeforeAll(f);
    if f.Total() < n {
      BeforePastEnd(f, n - 1);
      StartStep(f.chunkSize, n - 1);
    }
  }

  /** What the head of the loop relies on. */
  ghost predicate AtHead(job: Job, from: nat, s: State)
    requires job.Valid()
  {
    && from <= s.i && (s.i <= job.file.Total() || s.i == from)
    && s.sent == Frames(job, from, s.i)
    && s.hashed == job.file.Before(s.i)
    && s.waiters == 0
  }

  lemma LoopHeadKeepsInv(job: Job, from: nat, s: State)
    requires job.Valid() && AtHead(job, from, s)
    ensures Inv(job, from, LoopHead(job, s))
  {
    if s.i >= job.file.Total() { BeforePastEnd(job.file, s.i); }
  }

  lemma InitIsOk(job: Job, from: nat, buffered: nat)
    requires job.Valid()
    ensures Inv(job, from, Init(from, false, false, buffered))
  {}

  lemma SendReachesHead(job: Job, from: nat, s: State, metaBytes: nat)
    requires job.Valid() && Progress(job, from, s) && WaitersOk(s) && s.point.Reading?
    ensures AtHead(job, from, SendChunk(job, s, metaBytes))
  {
    BeforeStep(job.file, s.i);
  }

  lemma StepKeepsInv(job: Job, from: nat, s: State, e: Event)
    requires job.Valid() && Inv(job, from, s)
    ensures Inv(job, from, Step(job, s, e))
  {
    if e.Advance? && s.point.Prehash? {
      LoopHeadKeepsInv(job, from, s.(hashed := job.file.Before(s.i)));
    } else if e.Advance? && s.point.Reading? {
      SendReachesHead(job, from, s, e.metaBytes);
      LoopHeadKeepsInv(job, from, SendChunk(job, s, e.metaBytes));
    } else if e.Advance? {
      AdvanceKeepsInv(job, from, s, e.metaBytes);
    } else {
      SignalKeepsInv(job, from, s, e);
    }
  }

  lemma AdvanceKeepsInv(job: Job, from: nat, s: State, metaBytes: nat)
    requires job.Valid() && Inv(job, from, s) && !s.point.Prehash? && !s.point.Reading?
    ensures Inv(job, from, Step(job, s, Advance(metaBytes)))
  {}

  lemma SignalKeepsInv(job: Job, from: nat, s: State, e: Event)
    requires job.Valid() && Inv(job, from, s) && !e.Advance?
    ensures Inv(job, from, Step(job, s, e))
  {}

  lemma {:induction false} RunKeepsInv(job: Job, from: nat, s: State, events: seq<Event>)
    requires job.Valid() && Inv(job, from, s)
    ensures Inv(job, from, Run(job, s, events))
  {
    if events != [] {
      RunKeepsInv(job, from, s, events[..|events| - 1]);
      StepKeepsInv(job, from, Run(job, s, events[..|events| - 1]), events[|events| - 1]);
    }
  }

  /**
   * Whatever interleaving of pauses, resumes, cancellations and channel activity:
   * the frames sent are those of consecutive chunks from the start chunk on, and
   * an outcome "completed" means all of them, with the checksum of the whole file
   * whatever the start chunk was.
   */
  lemma PumpSendsTheTail(job: Job, from: nat, paused: bool, cancelled: bool, buffered: nat, events: seq<Event>)
    requires job.Valid()
    ensures var s := Run(job, Init(from, paused, cancelled, buffered), events);
            && s.sent == Frames(job, from, s.i)
            && (s.point.Done? && s.point.outcome.Completed? ==>
                  && s.sent == Frames(job, from, job.file.Total())
                  && s.point.outcome.checksum == WholeChecksum(job))
            && (s.point.Done? && s.point.outcome.Cancelled? ==> s.cancelled)
  {
    RunKeepsInv(job, from, Init(from, paused, cancelled, buffered), events);
    var s := Run(job, Init(from, paused, cancelled, buffered), events);
    if s.point.Done? && s.point.outcome.Completed? { FramesPastEnd(job, from, s); }
  }

  lemma FramesPastEnd(job: Job, from: nat, s: State)
    requires job.Valid() && Progress(job, from, s) && s.i >= job.file.Total()
    ensures s.sent == Frames(job, from, job.file.Total())
  {}

  // ----- pause and cancel -----

  /** Not paused implies no queued waiters, in every reachable state. */
  lemma NoWaitersUnlessPaused(job: Job, from: nat, paused: bool, cancelled: bool, buffered: nat, events: seq<Event>)
    requires job.Valid()
    ensures var s := Run(job, Init(from, paused, cancelled, buffered), events);
            (!s.paused ==> s.waiters == 0) && (s.waiters > 0 <==> s.point.WaitResume?)
  {
    RunKeepsInv(job, from, Init(from, paused, cancelled, buffered), events);
  }

  /** Chunks that a paused pump can still send before it is resumed. */
  function InFlight(s: State): nat {
    match s.point
    case ResumeReady => 1
    case WaitBuffer => 1
    case BufferReady => 1
    case Reading => 1
    case _ => 0
  }

  predicate NoResume(events: seq<Event>) {
    forall e :: e in events ==> !e.Resume? && !e.Cancel?
  }

  /** Between a pause and the next resume at most one more chunk is sent, and only if the loop was past its pause check. */
  lemma {:induction false} AtMostOneChunkWhilePaused(job: Job, s: State, events: seq<Event>)
    requires job.Valid() && s.paused && NoResume(events)
    ensures var t := Run(job, s, events); t.paused && t.i + InFlight(t) <= s.i + InFlight(s)
  {
    if events != [] {
      var init, e := events[..|events| - 1], events[|events| - 1];
      assert e in events && forall x :: x in init ==> x in events;
      AtMostOneChunkWhilePaused(job, s, init);
    }
  }

  /** After a cancel at most the chunk being read is still sent. */
  lemma {:induction false} AtMostOneChunkAfterCancel(job: Job, s: State, events: seq<Event>)
    requires job.Valid() && s.cancelled
    ensures var t := Run(job, s, events);
            t.cancelled && t.i + (if t.point.Reading? then 1 else 0) <= s.i + (if s.point.Reading? then 1 else 0)
  {
    if events != [] {
      AtMostOneChunkAfterCancel(job, s, events[..|events| - 1]);
    }
  }

  /** Whether a cancel now keeps the loop from completing: it does not once the last chunk is being read, or is behind. */
  predicate CancelBites(job: Job, s: State)
    requires job.Valid()
  {
    !(s.point.Reading? && s.i + 1 >= job.file.Total()) && !(s.point.Prehash? && s.i >= job.file.Total())
  }

  lemma CancelledStep(job: Job, s: State, e: Event)
    requires job.Valid() && s.cancelled && !s.point.Done?
    ensures var t := Step(job, s, e);
            && t.cancelled
            && if t.point.Done? then t.point.outcome.Cancelled? <==> CancelBites(job, s) else CancelBites(job, t) <==> CancelBites(job, s)
  {}

  lemma {:induction false} CancelledRun(job: Job, s: State, events: seq<Event>)
    requires job.Valid() && s.cancelled && !s.point.Done?
    ensures var t := Run(job, s, events);
            && t.cancelled
            && if t.point.Done? then t.point.outcome.Cancelled? <==> CancelBites(job, s) else CancelBites(job, t) <==> CancelBites(job, s)
  {
    if events != [] {
      var init := events[..|events| - 1];
      CancelledRun(job, s, init);
      if !Run(job, s, init).point.Done? { CancelledStep(job, Run(job, s, init), events[|events| - 1]); }
    }
  }

  /**
   * A cancelled loop does not always end cancelled: whatever follows, its outcome is
   * "cancelled" exactly if the last chunk was not yet being read at the cancel.
   */
  lemma CancelOutcomeIff(job: Job, s: State, events: seq<Event>)
    requires job.Valid() && !s.point.Done?
    ensures var t := Run(job, Step(job, s, Cancel), events);
            t.point.Done? ==> (t.point.outcome.Cancelled? <==> CancelBites(job, s))
  {
    CancelledRun(job, Step(job, s, Cancel), events);
  }

  // ----- how far the loop has come -----

  /** How far the loop is from sending its next chunk. */
  function Rank(p: Point): nat {
    match p
    case Prehash => 5
    case ResumeReady => 4
    case WaitBuffer => 3
    case BufferReady => 2
    case Reading => 1
    case _ => 0
  }

  /** The event that gets the loop on: a loop that waits for space needs the channel to drain. */
  function TurnOn(s: State): Event {
    if s.point.WaitBuffer? then Drain(s.buffered) else Advance(0)
  }

  lemma TurnGetsOn(job: Job, from: nat, s: State)
    requires job.Valid() && Inv(job, from, s) && !s.paused && !s.point.Done?
    ensures var t := Step(job, s, TurnOn(s));
            && !t.paused
            && (t.point.Done? || (s.i < job.file.Total() && t.i == s.i + 1) || (t.i == s.i && Rank(t.point) < Rank(s.point)))
  {}

  lemma {:induction false} FramesHead(job: Job, from: nat, to: nat)
    requires job.Valid() && from < to
    ensures Frames(job, from, to) == ChunkFrames(job, from) + Frames(job, from + 1, to)
  {
    if from + 1 < to {
      calc {
        Frames(job, from, to);
        Frames(job, from, to - 1) + ChunkFrames(job, to - 1);
        { FramesHead(job, from, to - 1); }
        ChunkFrames(job, from) + Frames(job, from + 1, to - 1) + ChunkFrames(job, to - 1);
        ChunkFrames(job, from) + Frames(job, from + 1, to);
      }
    } else {
      assert Frames(job, from, from) == [];
    }
  }

  /** A turn sends the head of the frames that are left; the last one sends them all. */
  lemma TurnSendsHead(job: Job, from: nat, s: State, metaBytes: nat)
    requires job.Valid() && Inv(job, from, s) && !s.point.Done? && !s.cancelled
    ensures var t := Advanced(job, s, metaBytes);
            && !t.cancelled
            && (t.point.Done? ==> t.point == Done(Completed(WholeChecksum(job))) && Frames(job, s.i, job.file.Total()) == Sends(job, s))
            && (!t.point.Done? ==> Frames(job, s.i, job.file.Total()) == Sends(job, s) + Frames(job, t.i, job.file.Total()))
  {
    StepKeepsInv(job, from, s, Advance(metaBytes));
    if s.point.Reading? { FramesHead(job, s.i, job.file.Total()); }
  }

  // ----- backpressure -----

  /** The bound that backpressure enforces. */
  ghost predicate Bounded(s: State, metaMax: nat, payloadMax: nat) {
    && s.buffered < HIGH_WATERMARK + metaMax + payloadMax
    && (s.point.Reading? ==> s.buffered < HIGH_WATERMARK)
  }

  lemma StepKeepsBounded(job: Job, s: State, e: Event, metaMax: nat, payloadMax: nat)
    requires job.Valid() && BufferOk(s) && Bounded(s, metaMax, payloadMax)
    requires e.Advance? ==> e.metaBytes <= metaMax
    requires |Payload(job, s.i)| <= payloadMax
    ensures Bounded(Step(job, s, e), metaMax, payloadMax)
  {}

  /**
   * The buffer is below the high mark just before every metadata frame, so it always
   * stays below the high mark plus one chunk's frames.
   */
  lemma {:induction false} BufferStaysBounded(job: Job, from: nat, s: State, events: seq<Event>, metaMax: nat, payloadMax: nat)
    requires job.Valid() && Inv(job, from, s) && Bounded(s, metaMax, payloadMax)
    requires forall e :: e in events && e.Advance? ==> e.metaBytes <= metaMax
    requires forall k: nat :: |Payload(job, k)| <= payloadMax
    ensures Bounded(Run(job, s, events), metaMax, payloadMax)
  {
    if events != [] {
      var init, e := events[..|events| - 1], events[|events| - 1];
      assert e in events && forall x :: x in init ==> x in events;
      BufferStaysBounded(job, from, s, init, metaMax, payloadMax);
      RunKeepsInv(job, from, s, init);
      StepKeepsBounded(job, Run(job, s, init), e, metaMax, payloadMax);
    }
  }

  /** However the buffer drains, a pump waiting for space is awake once the buffer is at the low mark. */
  lemma {:induction false} DrainWakesPump(job: Job, from: nat, s: State, drains: seq<Event>)
    requires job.Valid() && Inv(job, from, s) && s.point.WaitBuffer?
    requires forall e :: e in drains ==> e.Drain?
    ensures var t := Run(job, s, drains);
            (t.point.BufferReady? <==> t.buffered <= LOW_WATERMARK) && (t.point.BufferReady? || t.point.WaitBuffer?)
  {
    if drains != [] {
      var init, e := drains[..|drains| - 1], drains[|drains| - 1];
      assert e in drains && forall x :: x in init ==> x in drains;
      DrainWakesPump(job, from, s, init);
    }
  }
}
