/**
 * The whole transfer as a step system: the sender's file loop and reconnect path
 * (SenderSession.ts) with the pump of the active file (Pump), a file channel that is
 * FIFO within a connection and loses what is in flight when the connection dies, the
 * control messages of a resume, and the receiver (ReceiverState) with the frames that
 * wait in its queue.
 */
module Transfer {
  import opened Basics
  import opened Chunking
  import opened Encryption
  import opened Wire
  import opened Receiving
  import opened ReceiverState
  import Pump
  import Sinks

  const MAX_WEBRTC_RECONNECT_ATTEMPTS: nat := 5

  // ----- the world -----

  /** The sender's queue of files, in order. */
  datatype World = World(files: seq<SourceFile>, env: Env) {
    ghost predicate Valid() {
      && |files| > 0
      && (forall j :: 0 <= j < |files| ==> files[j].Valid())
      && (forall i, j :: 0 <= i < |files| && 0 <= j < |files| && files[i].id == files[j].id ==> i == j)
      && (env.cipher.Some? ==> env.cipher.value.Lawful())
    }

    function Job(j: nat): Pump.Job
      requires j < |files|
    {
      Pump.Job(files[j], j, env)
    }

    ghost function Ids(): set<string> {
      set j | 0 <= j < |files| :: files[j].id
    }
  }

  // ----- the sender -----

  /**
   * handleAccept's loop: none running; between two files or past the last one, with
   * no pump; the pump of file i at one of its suspension points; or over.
   */
  datatype Loop =
    | Waiting
    | Between(i: nat, resume: map<string, nat>)
    | Pumping(i: nat, resume: map<string, nat>, pump: Pump.State)
    | Stopped
  {
    predicate Running() { Between? || Pumping? }
  }

  datatype TransferState = Transferring | Interrupted | Expired | Completed | Cancelled | Failed

  /** `open`: the channels of the present peer are open.  `scheduled` counts the timers of reconnect attempts. */
  datatype Sender = Sender(
    loop: Loop, activeFileIndex: nat, attempts: nat, scheduled: nat, reconnecting: bool, cancelled: bool,
    open: bool, transferState: TransferState)

  /** Where file i starts comes from FILE_ACCEPT, else it is chunk 0. */
  function StartOf(w: World, i: nat, resume: map<string, nat>): nat
    requires i < |w.files|
  {
    if w.files[i].id in resume then resume[w.files[i].id] else 0
  }

  /** A new pump for file i on a channel that holds `buffered` bytes. */
  function StartFile(w: World, i: nat, resume: map<string, nat>, buffered: nat): Loop
    requires i < |w.files|
  {
    Pumping(i, resume, Pump.Init(StartOf(w, i, resume), false, false, buffered))
  }

  /** The loop has a next turn. */
  predicate Live(w: World, loop: Loop) {
    loop.Between? || (loop.Pumping? && loop.i < |w.files|)
  }

  /** The active pump after its next turn; `bytes` is the size of a metadata frame, should it send one. */
  function PumpAfter(w: World, loop: Loop, bytes: nat): Pump.State
    requires w.Valid() && Live(w, loop) && loop.Pumping?
  {
    Pump.Advanced(w.Job(loop.i), loop.pump, bytes)
  }

  /** FILE_COMPLETE follows a pump that ended completed, and no other. */
  function Announcement(w: World, i: nat, pump: Pump.State): seq<FileMsg>
    requires i < |w.files|
  {
    if pump.point.Done? && pump.point.outcome.Completed?
    then [FileComplete(w.files[i].id, pump.point.outcome.checksum)]
    else []
  }

  /** What the loop's next turn gives to the channel. */
  function NextFrames(w: World, s: Sender, lost: set<nat>, bytes: nat): seq<FileMsg>
    requires w.Valid() && Live(w, s.loop)
  {
    match s.loop
    case Between(i, _) => if i >= |w.files| && !s.cancelled then [TransferComplete(lost)] else []
    case Pumping(i, _, pump) => Pump.Sends(w.Job(i), pump) + Announcement(w, i, PumpAfter(w, s.loop, bytes))
  }

  /** The loop's next turn: up to the pump's next suspension point, or from one file to the next. */
  function AfterEmit(w: World, s: Sender, bytes: nat): Sender
    requires w.Valid() && Live(w, s.loop)
  {
    match s.loop
    case Between(i, resume) =>
      if i >= |w.files| then s.(loop := Stopped, transferState := if s.cancelled then s.transferState else TransferState.Completed)
      else if s.cancelled then s.(loop := Stopped, activeFileIndex := i)
      else s.(loop := StartFile(w, i, resume, bytes), activeFileIndex := i)
    case Pumping(i, resume, _) =>
      var pump := PumpAfter(w, s.loop, bytes);
      s.(loop := if pump.point.Done? then Between(i + 1, resume) else Pumping(i, resume, pump))
  }

  /** The loop's next turn leaves a file without FILE_COMPLETE, because its pump ended cancelled. */
  predicate Abandons(w: World, loop: Loop, bytes: nat)
    requires w.Valid() && Live(w, loop)
  {
    loop.Pumping? && PumpAfter(w, loop, bytes).point == Pump.Done(Pump.Cancelled)
  }

  /** An event from outside reaches the active pump, if there is one. */
  function SignalPump(loop: Loop, e: Pump.Event): Loop
    requires !e.Advance?
  {
    if loop.Pumping? then loop.(pump := Pump.Signal(loop.pump, e)) else loop
  }

  predicate Terminal(t: TransferState) {
    t == TransferState.Completed || t == Cancelled || t == TransferState.Failed
  }

  /**
   * handleConnectionLoss.  With retry budget left the active pump is paused and an
   * attempt scheduled; otherwise the active pump is cancelled, but the file loop is not told.
   */
  function AfterLoss(s: Sender): Sender {
    if s.cancelled || Terminal(s.transferState) then s
    else if s.attempts >= MAX_WEBRTC_RECONNECT_ATTEMPTS
    then s.(transferState := TransferState.Failed, loop := SignalPump(s.loop, Pump.Cancel))
    else s.(attempts := s.attempts + 1, scheduled := s.scheduled + 1, transferState := Interrupted,
            loop := SignalPump(s.loop, Pump.Pause))
  }

  /** The timer of an attempt fires: unless there is nobody to signal to, the old peer is closed and a new one negotiates. */
  function AfterAttempt(s: Sender, signalingOpen: bool): Sender {
    if s.scheduled == 0 then s
    else
      var s1 := s.(scheduled := s.scheduled - 1);
      if s.cancelled || !signalingOpen then s1 else s1.(open := false, reconnecting := true)
  }

  /** The channels of the new peer open; the interrupted loop is left behind. */
  function AfterReady(s: Sender): Sender {
    if s.cancelled || !s.reconnecting then s
    else s.(loop := Waiting, open := true, attempts := 0, reconnecting := false, transferState := TransferState.Transferring)
  }

  /** handleAccept starts its loop at file 0. */
  function AfterAccept(w: World, s: Sender, resume: map<string, nat>): Sender
    requires |w.files| > 0
  {
    s.(loop := StartFile(w, 0, resume, 0), activeFileIndex := 0, transferState := TransferState.Transferring)
  }

  /** cancelAll: no channel, no signaling; the loop is left to find out. */
  function AfterCancel(s: Sender): Sender {
    s.(cancelled := true, open := false, loop := SignalPump(s.loop, Pump.Cancel), transferState := Cancelled)
  }

  /** Where the loop awaits something that can be rejected, a rejection ends it, without TRANSFER_COMPLETE. */
  function AfterRejection(loop: Loop): Loop {
    if loop.Between? || (loop.Pumping? && (loop.pump.point.Reading? || loop.pump.point.Prehash?)) then Waiting else loop
  }

  /** What the signaling server can tell the sender during a transfer; a cancelled session has closed its signaling. */
  datatype Notice = PeerLeft | SessionExpired | RateLimited

  function AfterNotice(s: Sender, n: Notice): Sender {
    if s.cancelled then s
    else
      var t := match n
               case PeerLeft => Interrupted
               case SessionExpired => Expired
               case RateLimited => TransferState.Failed;
      s.(transferState := t)
  }

  // ----- the system -----

  /** The control messages of a resume: the re-offer of one file, and the answer with its resume point. */
  datatype Control = NoControl | Offered(i: nat) | Accepted(i: nat, chunk: nat)

  /** One call of encryptChunk. */
  datatype Sealing = Sealing(fileIndex: nat, chunkIndex: nat, iv: seq<byte>, plain: seq<byte>)

  /**
   * `wire`: sent, not delivered.  `inbox`: delivered, waiting in the receiver's
   * queue.  `linked`: the signaling server still holds the session with both ends in
   * it; nothing restores that for this receiver.  `offered`: the offer of the peer
   * under negotiation was made while it did.  The rest is history: `lost` are the files that the running loop left
   * without any FILE_COMPLETE for them sent or handled, `gaveUp` whether a file was
   * ever left on an open channel because its pump ended cancelled, `faulty` whether a
   * handler of the receiver was ever rejected by the platform, `sealings` every encryption.
   */
  datatype State = State(
    snd: Sender, wire: seq<FileMsg>, inbox: seq<FileMsg>, control: Control, rx: RxState, linked: bool, offered: bool,
    lost: set<nat>, gaveUp: bool, faulty: bool, sealings: seq<Sealing>)

  datatype Step =
    | Emit(bytes: nat)         // the loop's next turn; what a metadata frame takes, or what the channel holds as a pump starts
    | Flow(e: Pump.Event)      // the channel drains, or the receiver asks to pause or to go on
    | Deliver                  // one frame reaches the receiver
    | Handle(ok: bool)         // the receiver handles the next queued frame
    | ChannelLost              // the channel dies with everything in flight
    | ConnectionLoss           // handleConnectionLoss
    | AttemptReconnect(signalingOpen: bool)
    | ChannelsReady            // the new peer's channels open
    | AnswerOffer              // the receiver answers the re-offer
    | TakeAccept               // the sender takes the answer and starts its loop again
    | LinkLost                 // the session is gone at the server, or one end's socket is
    | Notified(n: Notice)
    | LoopRejected             // a file read, an encryption or the history entry is rejected: handleAccept ends there
    | CancelAll

  /** A step that is not enabled changes nothing, so that every sequence of steps is a run. */
  ghost function Next(w: World, s: State, step: Step): State
    requires w.Valid()
  {
    match step
    case Emit(bytes) => if Live(w, s.snd.loop) then DoEmit(w, s, bytes) else s
    case Flow(e) => if e.Pause? || e.Resume? || e.Drain? then s.(snd := s.snd.(loop := SignalPump(s.snd.loop, e))) else s
    case Deliver => if s.wire != [] then s.(inbox := s.inbox + [s.wire[0]], wire := s.wire[1..]) else s
    case Handle(ok) => if s.inbox != [] then DoHandle(w, s, ok) else s
    case ChannelLost => Cut(s).(snd := s.snd.(open := false))
    case ConnectionLoss => s.(snd := AfterLoss(s.snd))
    case AttemptReconnect(signalingOpen) => DoAttempt(s, signalingOpen)
    case ChannelsReady =>
      if s.snd.cancelled || !s.snd.reconnecting || !s.offered then s
      else Cut(s).(snd := AfterReady(s.snd), offered := false,
                   control := if s.snd.activeFileIndex < |w.files| then Offered(s.snd.activeFileIndex) else NoControl)
    case AnswerOffer =>
      if s.control.Offered? && s.control.i < |w.files| && w.files[s.control.i].id in s.rx.receivers
      then s.(control := Accepted(s.control.i, FirstGap(s.rx.receivers[w.files[s.control.i].id].received)))
      else s
    case TakeAccept =>
      if !s.snd.open || !s.control.Accepted? || s.control.i >= |w.files| then s
      else s.(control := NoControl, lost := {},
              snd := AfterAccept(w, s.snd, map[w.files[s.control.i].id := s.control.chunk]))
    case LinkLost => s.(linked := false)
    case Notified(n) => s.(snd := AfterNotice(s.snd, n), linked := s.linked && n.RateLimited?)
    case LoopRejected => s.(snd := s.snd.(loop := AfterRejection(s.snd.loop)))
    case CancelAll => Cut(s).(snd := AfterCancel(s.snd), linked := false)
  }

  /** A timer fires.  Without signaling the sender's socket was closed, and its session with it. */
  function DoAttempt(s: State, signalingOpen: bool): State {
    var snd := AfterAttempt(s.snd, signalingOpen);
    if s.snd.scheduled == 0 || s.snd.cancelled then s.(snd := snd)
    else if !signalingOpen then s.(snd := snd, linked := false)
    else Cut(s).(snd := snd, offered := s.linked)
  }

  /** What was on its way is gone. */
  function Cut(s: State): State {
    s.(wire := [], control := NoControl)
  }

  /** Frames sent while the channel is not open are dropped silently. */
  ghost function DoEmit(w: World, s: State, bytes: nat): State
    requires w.Valid() && Live(w, s.snd.loop)
  {
    var abandons := s.snd.open && Abandons(w, s.snd.loop, bytes);
    s.(wire := if s.snd.open then s.wire + NextFrames(w, s.snd, s.lost, bytes) else s.wire,
       snd := AfterEmit(w, s.snd, bytes),
       gaveUp := s.gaveUp || abandons,
       lost := if abandons && w.files[s.snd.loop.i].id !in Announced(s) then s.lost + {s.snd.loop.i} else s.lost,
       sealings := s.sealings + Sealings(w, s.snd.loop))
  }

  ghost function DoHandle(w: World, s: State, ok: bool): State
    requires s.inbox != []
  {
    s.(rx := OnMessage(w.env, s.rx, s.inbox[0], ok), inbox := s.inbox[1..], faulty := s.faulty || !ok)
  }

  function Sealings(w: World, loop: Loop): seq<Sealing>
    requires w.Valid() && Live(w, loop)
  {
    if loop.Pumping? && loop.pump.point.Reading? && w.env.cipher.Some?
    then [Sealing(loop.i, loop.pump.i, Iv(w.env.cipher.value.salt, loop.i, loop.pump.i), w.files[loop.i].Chunk(loop.pump.i))]
    else []
  }

  // ----- steps of one kind -----

  /** Steps that reach the sender alone, and the link. */
  predicate Outer(step: Step) {
    step.Flow? || step.ConnectionLoss? || step.Notified? || step.LinkLost? || step.LoopRejected?
  }

  lemma OuterIs(w: World, s: State, step: Step) returns (e: Pump.Event)
    requires w.Valid() && Outer(step)
    ensures !e.Advance?
    ensures var s' := Next(w, s, step);
            && s' == s.(snd := s'.snd, linked := s'.linked) && s'.snd.open == s.snd.open && s'.snd.cancelled == s.snd.cancelled
            && s'.snd.activeFileIndex == s.snd.activeFileIndex
            && (s'.snd.loop == s.snd.loop || s'.snd.loop == SignalPump(s.snd.loop, e) || s'.snd.loop.Waiting?)
  {
    e := if step.Flow? && !step.e.Advance? then step.e
         else if s.snd.attempts < MAX_WEBRTC_RECONNECT_ATTEMPTS then Pump.Pause
         else Pump.Cancel;
  }

  /** Steps that may cut the connection. */
  predicate Cuts(step: Step) {
    step.ChannelLost? || step.AttemptReconnect? || step.ChannelsReady? || step.CancelAll?
  }

  /** Either nothing is cut, or nothing is on the wire any more and no loop runs on an open channel. */
  ghost predicate CutTo(w: World, s: State, s': State) {
    && s' == s.(snd := s'.snd, wire := s'.wire, control := s'.control, linked := s'.linked, offered := s'.offered)
    && (|| (s'.wire == s.wire && s'.control == s.control && s'.snd.open == s.snd.open && s'.snd.loop == s.snd.loop)
        || (&& s'.wire == [] && (s'.snd.open ==> s'.snd.loop.Waiting?)
            && (s'.control.NoControl? || (s'.control.Offered? && s'.control.i < |w.files| && s'.snd.loop.Waiting?))))
  }

  lemma AttemptCuts(w: World, s: State, signalingOpen: bool)
    ensures CutTo(w, s, DoAttempt(s, signalingOpen))
  {}

  lemma ReadyCuts(w: World, s: State)
    requires w.Valid()
    ensures CutTo(w, s, Next(w, s, ChannelsReady))
  {}

  lemma CutsIs(w: World, s: State, step: Step)
    requires w.Valid() && Cuts(step)
    ensures CutTo(w, s, Next(w, s, step))
  {
    if step.AttemptReconnect? {
      AttemptCuts(w, s, step.signalingOpen);
    } else if step.ChannelsReady? {
      ReadyCuts(w, s);
    }
  }

  /** Frames on their way to the receiver's handlers, in order. */
  function Pipe(s: State): seq<FileMsg> {
    s.inbox + s.wire
  }

  lemma DeliverKeepsPipe(w: World, s: State)
    requires w.Valid() && s.wire != []
    ensures Pipe(Next(w, s, Deliver)) == Pipe(s)
  {
    var s' := Next(w, s, Deliver);
    assert s'.inbox == s.inbox + [s.wire[0]] && s'.wire == s.wire[1..];
    assert s.wire == [s.wire[0]] + s.wire[1..];
  }

  /** Files whose FILE_COMPLETE was handled or is on its way. */
  ghost function Announced(s: State): set<string> {
    s.rx.completed + Completions(Pipe(s))
  }

  ghost function Completions(msgs: seq<FileMsg>): set<string> {
    set m | m in msgs && m.FileComplete? :: m.fileId
  }

  ghost function Run(w: World, s: State, steps: seq<Step>): State
    requires w.Valid()
  {
    if steps == [] then s else Next(w, Run(w, s, steps[..|steps| - 1]), steps[|steps| - 1])
  }

  /**
   * A loop can still start again: a re-offer or its answer is under way, a peer is
   * under negotiation whose offer was relayed, or the link is there and with it a
   * timer or the budget for one in a transfer that is not over.
   */
  predicate CanReconnect(s: State) {
    && !s.snd.cancelled
    && (|| (s.snd.open && !s.control.NoControl?)
        || (s.snd.reconnecting && s.offered)
        || (s.linked && s.snd.scheduled > 0)
        || (s.linked && s.snd.attempts < MAX_WEBRTC_RECONNECT_ATTEMPTS && !Terminal(s.snd.transferState)))
  }

  /** The steps that lead towards another loop. */
  lemma NoReconnectStep(w: World, s: State, step: Step)
    requires w.Valid() && (s.snd.cancelled ==> !s.snd.open) && !CanReconnect(s)
    ensures !CanReconnect(Next(w, s, step))
  {
    if step.Emit? && Live(w, s.snd.loop) { EmitKeepsReconnect(w, s, step.bytes); }
  }

  lemma EmitKeepsReconnect(w: World, s: State, bytes: nat)
    requires w.Valid() && Live(w, s.snd.loop)
    ensures CanReconnect(DoEmit(w, s, bytes)) ==> CanReconnect(s)
  {}

  // ----- the sender's own invariant -----

  /** Every pump is at a point that a run of Pump reaches from where its file starts. */
  ghost predicate LoopOk(w: World, loop: Loop)
    requires w.Valid()
  {
    match loop
    case Between(i, _) => i <= |w.files|
    case Pumping(i, resume, pump) => i < |w.files| && PumpOk(w, i, resume, pump) && !pump.point.Done?
    case _ => true
  }

  ghost predicate PumpOk(w: World, i: nat, resume: map<string, nat>, pump: Pump.State)
    requires w.Valid() && i < |w.files|
  {
    Pump.Inv(w.Job(i), StartOf(w, i, resume), pump)
  }

  ghost predicate SenderOk(w: World, s: Sender)
    requires w.Valid()
  {
    s.activeFileIndex < |w.files| && LoopOk(w, s.loop) && (s.cancelled ==> !s.open)
  }

  lemma StartIsOk(w: World, i: nat, resume: map<string, nat>, buffered: nat)
    requires w.Valid() && i < |w.files|
    ensures LoopOk(w, StartFile(w, i, resume, buffered))
  {
    Pump.InitIsOk(w.Job(i), StartOf(w, i, resume), buffered);
  }

  lemma PumpAfterIsOk(w: World, loop: Loop, bytes: nat)
    requires w.Valid() && loop.Pumping? && LoopOk(w, loop)
    ensures PumpOk(w, loop.i, loop.resume, PumpAfter(w, loop, bytes))
  {
    Pump.StepKeepsInv(w.Job(loop.i), StartOf(w, loop.i, loop.resume), loop.pump, Pump.Advance(bytes));
  }

  /** A pump that ends completed has its whole file behind it, and knows its checksum. */
  ghost predicate EndsRight(w: World, i: nat, pump: Pump.State)
    requires w.Valid() && i < |w.files|
  {
    pump.point.Done? && pump.point.outcome.Completed? ==>
      pump.i >= w.files[i].Total() && pump.point.outcome.checksum == Pump.WholeChecksum(w.Job(i))
  }

  /** What a turn of the active pump does, as far as the receiver is concerned. */
  lemma TurnFacts(w: World, loop: Loop, bytes: nat)
    requires w.Valid() && loop.Pumping? && LoopOk(w, loop)
    ensures loop.pump.point.Reading? ==> loop.pump.i < w.files[loop.i].Total()
    ensures PumpAfter(w, loop, bytes).i == if loop.pump.point.Reading? then loop.pump.i + 1 else loop.pump.i
    ensures EndsRight(w, loop.i, PumpAfter(w, loop, bytes))
  {
    PumpAfterIsOk(w, loop, bytes);
  }

  lemma EmitKeepsSenderOk(w: World, s: Sender, bytes: nat)
    requires w.Valid() && SenderOk(w, s) && Live(w, s.loop)
    ensures SenderOk(w, AfterEmit(w, s, bytes))
  {
    if s.loop.Pumping? {
      PumpAfterIsOk(w, s.loop, bytes);
    } else if s.loop.i < |w.files| {
      StartIsOk(w, s.loop.i, s.loop.resume, bytes);
    }
  }

  lemma SignalKeepsLoopOk(w: World, loop: Loop, e: Pump.Event)
    requires w.Valid() && LoopOk(w, loop) && !e.Advance?
    ensures LoopOk(w, SignalPump(loop, e))
  {
    if loop.Pumping? {
      Pump.StepKeepsInv(w.Job(loop.i), StartOf(w, loop.i, loop.resume), loop.pump, e);
    }
  }

  lemma OuterKeepsSenderOk(w: World, s: State, step: Step)
    requires w.Valid() && SenderOk(w, s.snd) && Outer(step)
    ensures SenderOk(w, Next(w, s, step).snd)
  {
    var e := OuterIs(w, s, step);
    SignalKeepsLoopOk(w, s.snd.loop, e);
  }

  lemma CutSenderOk(w: World, s: Sender, signalingOpen: bool)
    requires w.Valid() && SenderOk(w, s)
    ensures SenderOk(w, AfterAttempt(s, signalingOpen)) && SenderOk(w, AfterReady(s))
    ensures SenderOk(w, AfterCancel(s)) && SenderOk(w, s.(open := false))
  {
    SignalKeepsLoopOk(w, s.loop, Pump.Cancel);
  }

  lemma CutKeepsSenderOk(w: World, s: State, step: Step)
    requires w.Valid() && SenderOk(w, s.snd) && Cuts(step)
    ensures SenderOk(w, Next(w, s, step).snd)
  {
    match step {
      case AttemptReconnect(signalingOpen) => CutSenderOk(w, s.snd, signalingOpen);
      case _ => CutSenderOk(w, s.snd, true);
    }
  }

  lemma AcceptKeepsSenderOk(w: World, s: State)
    requires w.Valid() && SenderOk(w, s.snd)
    ensures SenderOk(w, Next(w, s, TakeAccept).snd)
  {
    if s.control.Accepted? && s.control.i < |w.files| { StartIsOk(w, 0, map[w.files[s.control.i].id := s.control.chunk], 0); }
  }

  lemma NextKeepsSenderOk(w: World, s: State, step: Step)
    requires w.Valid() && SenderOk(w, s.snd)
    ensures SenderOk(w, Next(w, s, step).snd)
  {
    if Outer(step) {
      OuterKeepsSenderOk(w, s, step);
    } else if Cuts(step) {
      CutKeepsSenderOk(w, s, step);
    } else if step.TakeAccept? {
      AcceptKeepsSenderOk(w, s);
    } else if step.Emit? {
      if Live(w, s.snd.loop) { EmitKeepsSenderOk(w, s.snd, step.bytes); }
    }
  }

  // ----- the start: the first FILE_ACCEPT for all files has arrived -----

  ghost predicate FreshReceiver(w: World, rx: RxState) {
    && rx.receivers.Keys == w.Ids() && rx.names.Keys == w.Ids()
    && (forall j :: 0 <= j < |w.files| ==> IsFresh(w.files[j], rx.receivers[w.files[j].id]))
    && rx.pending == None && rx.completed == {} && rx.saved == map[] && !rx.transferDone
    && (forall id :: id in rx.status ==> rx.status[id] == Queued)
  }

  ghost predicate IsFresh(f: SourceFile, r: FileRx) {
    f.Valid() && exists onDisk :: r == Fresh(f.chunkSize, f.Total(), Sinks.Empty(onDisk))
  }

  ghost function Initially(w: World, rx: RxState): State
    requires |w.files| > 0
  {
    State(Sender(StartFile(w, 0, map[], 0), 0, 0, 0, false, false, true, TransferState.Transferring),
          [], [], NoControl, rx, true, false, {}, false, false, [])
  }
}
