/** The pump object of chunkPump.ts: its fields, its signals and its loop, proved against Pump. */
module ChunkPump {
  import opened Basics
  import opened Chunking
  import opened Hashing
  import opened Encryption
  import opened Wire
  import opened Pump

  class ChunkPump {
    const job: Job
    var paused: bool
    var cancelled: bool
    var resumeWaiters: nat
    var i: nat
    var point: Point
    var hashed: seq<byte>
    var sent: seq<FileMsg>
    var buffered: nat

    ghost function View(): State
      reads this
    {
      State(i, point, paused, cancelled, resumeWaiters, hashed, sent, buffered)
    }

    constructor (job: Job, from: nat, buffered: nat)
      ensures this.job == job && View() == Init(from, false, false, buffered)
    {
      this.job, this.buffered := job, buffered;
      paused, cancelled, resumeWaiters := false, false, 0;
      i, point, hashed, sent := from, Prehash, [], [];
    }

    method PauseLoop()
      requires job.Valid()
      modifies this
      ensures View() == Step(job, old(View()), Pause)
    {
      paused := true;
    }

    method ResumeLoop()
      requires job.Valid()
      modifies this
      ensures View() == Step(job, old(View()), Resume)
    {
      paused := false;
      if point.WaitResume? && resumeWaiters > 0 {
        point := ResumeReady;
      }
      resumeWaiters := 0;
    }

    method CancelLoop()
      requires job.Valid()
      modifies this
      ensures View() == Step(job, old(View()), Cancel)
    {
      cancelled := true;
      ResumeLoop();
    }

    /** The channel transmits `bytes`; a subscribed loop is woken when the low mark is crossed. */
    method DrainBuffer(bytes: nat)
      requires job.Valid()
      modifies this
      ensures View() == Step(job, old(View()), Drain(bytes))
    {
      var left := if bytes <= buffered then buffered - bytes else 0;
      if point.WaitBuffer? && left <= LOW_WATERMARK < buffered {
        point := BufferReady;
      }
      buffered := left;
    }

    method EnterLoopHead()
      requires job.Valid()
      modifies this
      ensures View() == LoopHead(job, old(View()))
    {
      if i >= job.file.Total() {
        point := Done(Completed(BytesToHex(job.env.h(hashed))));
      } else if cancelled {
        point := Done(Cancelled);
      } else if paused {
        resumeWaiters := resumeWaiters + 1;
        point := WaitResume;
      } else {
        point := ResumeReady;
      }
    }

    /** Runs the loop from its suspension point to the next one. */
    method Continue(metaBytes: nat)
      requires job.Valid()
      requires point.Prehash? ==> hashed == []
      modifies this
      ensures View() == Step(job, old(View()), Advance(metaBytes))
    {
      match point {
        case Prehash =>
          HashAlreadySentRange();
          EnterLoopHead();
        case ResumeReady =>
          if cancelled {
            point := Done(Cancelled);
          } else {
            point := if buffered < HIGH_WATERMARK then BufferReady else WaitBuffer;
          }
        case BufferReady =>
          point := if cancelled then Done(Cancelled) else Reading;
        case Reading =>
          SendOne(metaBytes);
          EnterLoopHead();
        case _ =>
      }
    }

    /** Chunk i is read, folded in, perhaps encrypted, and its two frames given to the channel. */
    method SendOne(metaBytes: nat)
      requires job.Valid()
      modifies this
      ensures View() == SendChunk(job, old(View()), metaBytes)
    {
      var buffer := job.file.Chunk(i);
      hashed := hashed + buffer;
      var payload, iv := buffer, None;
      if job.env.cipher.Some? {
        var cipher := job.env.cipher.value;
        var ivBytes := IvForChunk(cipher.salt, job.fileIndex, i);
        payload, iv := cipher.seal(ivBytes[..], buffer), Some(ivBytes[..]);
      }
      sent := sent + [ChunkMeta(Meta(job.file.id, i, |payload|, iv)), Binary(payload)];
      buffered := buffered + metaBytes + |payload|;
      i := i + 1;
    }

    /** Chunks 0, ..., i - 1 are read again and folded in. */
    method HashAlreadySentRange()
      requires job.Valid() && hashed == []
      modifies this`hashed
      ensures hashed == job.file.Before(i)
    {
      BeforeAll(job.file);
      for n := 0 to i
        invariant hashed == job.file.Before(n)
      {
        BeforeStep(job.file, n);
        hashed := hashed + job.file.Chunk(n);
      }
    }
  }

  /** A run that nothing interrupts: the frames of every chunk from the start chunk on, and the file's checksum. */
  method RunUninterrupted(job: Job, from: nat) returns (sent: seq<FileMsg>, checksum: string)
    requires job.Valid()
    ensures sent == Frames(job, from, job.file.Total())
    ensures checksum == WholeChecksum(job)
  {
    var pump := new ChunkPump(job, from, 0);
    pump.Continue(0);
    LoopHeadKeepsInv(job, from, Init(from, false, false, 0).(hashed := job.file.Before(from)));
    while !pump.point.Done?
      invariant pump.job == job && !pump.paused && !pump.cancelled && fresh(pump)
      invariant Inv(job, from, pump.View()) && !pump.point.Prehash?
      decreases job.file.Total() - pump.i, Rank(pump.point)
    {
      StepKeepsInv(job, from, pump.View(), if pump.point.WaitBuffer? then Drain(pump.buffered) else Advance(0));
      if pump.point.WaitBuffer? {
        pump.DrainBuffer(pump.buffered);
      } else {
        pump.Continue(0);
      }
    }
    FramesPastEnd(job, from, pump.View());
    sent, checksum := pump.sent, pump.point.outcome.checksum;
  }
}
