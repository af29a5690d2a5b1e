/**
 * The transfer with the receiver's handlers cut at their awaits (the queue of
 * ReceiverState), every other step of Transfer interleaving freely between the
 * pieces.  Each of its runs is matched by a run of Transfer, whose handlers are whole.
 */
module AsyncTransfer {
  import opened Basics
  import opened Hashing
  import opened Wire
  import opened Receiving
  import opened ReceiverState
  import opened Transfer
  import opened Schedules
  import Completion
  import Integrity
  import Recovery

  /** `base` holds all but the receiver, which is the queue. */
  datatype Async = Async(base: State, queue: Queue)

  datatype Move =
    | Outside(step: Step)     // any step but Deliver and Handle
    | Arrival                 // one frame reaches the receiver's queue
    | Work(e: QueueEvent)     // a handler starts, or an awaited platform call settles

  function InProgress(q: Queue): seq<FileMsg> {
    if q.task.Idle? then [] else [q.current]
  }

  /** What a step from outside sees: the receiver as it is, perhaps in the middle of a handler. */
  function Shown(a: Async): State {
    a.base.(rx := a.queue.rx, inbox := InProgress(a.queue) + a.queue.inbox)
  }

  ghost function MoveTo(w: World, a: Async, m: Move): Async
    requires w.Valid()
  {
    match m
    case Outside(step) => if step.Deliver? || step.Handle? then a else a.(base := Next(w, Shown(a), step))
    case Arrival =>
      if a.base.wire == [] then a
      else Async(a.base.(wire := a.base.wire[1..]), QueueStep(w.env, a.queue, Arrive(a.base.wire[0])))
    case Work(e) => if e.Arrive? then a else a.(queue := QueueStep(w.env, a.queue, e))
  }

  ghost function RunAsync(w: World, a: Async, moves: seq<Move>): Async
    requires w.Valid()
  {
    if moves == [] then a else MoveTo(w, RunAsync(w, a, moves[..|moves| - 1]), moves[|moves| - 1])
  }

  predicate AnyRejected(handled: seq<(FileMsg, bool)>) {
    exists h :: h in handled && !h.1
  }

  /** The state of Transfer that a stands for: its finished handlers, whole, and the one in progress not yet begun. */
  ghost function Whole(w: World, s0: State, a: Async): State {
    a.base.(rx := Fold(w.env, s0.rx, a.queue.handled), inbox := InProgress(a.queue) + a.queue.inbox,
            faulty := s0.faulty || AnyRejected(a.queue.handled))
  }

  // ----- a suspended handler is invisible from outside -----

  /** Chunks taken and files announced look the same in the middle of a handler as before it. */
  ghost predicate LooksLike(rx: RxState, st: RxState, current: seq<FileMsg>) {
    && rx.receivers.Keys == st.receivers.Keys
    && (forall id :: id in st.receivers ==> rx.receivers[id].received == st.receivers[id].received)
    && rx.completed + Completions(current) == st.completed + Completions(current)
  }

  lemma SuspendedLooksLike(env: Env, st: RxState, q: Queue)
    requires Suspended(env, st, q)
    ensures LooksLike(q.rx, st, InProgress(q))
  {
    if q.task.Logging? {
      LoggingLooksLike(env, st, q);
    } else if q.task.Finalizing? {
      assert q.current in InProgress(q);
    }
  }

  lemma LoggingLooksLike(env: Env, st: RxState, q: Queue)
    requires q.task.Logging? && Suspended(env, st, q)
    ensures LooksLike(q.rx, st, InProgress(q))
  {
    CompleteEffect(env, st, q.current.fileId, q.current.checksum, true);
    assert q.current in InProgress(q);
    forall id | id in st.receivers
      ensures q.rx.receivers[id].received == st.receivers[id].received
    {
      assert id != q.current.fileId ==> Untouched(st, q.rx, id);
    }
  }

  lemma CompletionsOf(a: seq<FileMsg>, b: seq<FileMsg>)
    ensures Completions(a + b) == Completions(a) + Completions(b)
  {}

  lemma SameAnnounced(w: World, s0: State, a: Async)
    requires LooksLike(a.queue.rx, Fold(w.env, s0.rx, a.queue.handled), InProgress(a.queue))
    ensures Announced(Shown(a)) == Announced(Whole(w, s0, a))
  {
    var rest := a.queue.inbox + a.base.wire;
    assert Pipe(Shown(a)) == InProgress(a.queue) + rest && Pipe(Whole(w, s0, a)) == InProgress(a.queue) + rest;
    CompletionsOf(InProgress(a.queue), rest);
  }

  lemma OutsideMatches(w: World, s0: State, a: Async, step: Step)
    requires w.Valid() && !step.Deliver? && !step.Handle?
    requires LooksLike(a.queue.rx, Fold(w.env, s0.rx, a.queue.handled), InProgress(a.queue))
    ensures Next(w, Whole(w, s0, a), step) == Whole(w, s0, MoveTo(w, a, Outside(step)))
  {
    if step.Emit? {
      SameAnnounced(w, s0, a);
      EmitMatches(w, s0, a, step.bytes);
    } else if step.AnswerOffer? {
      AnswerMatches(w, s0, a);
    } else {
      QuietlyMatches(w, s0, a, step);
    }
  }

  /** The same state with another receiver. */
  function With(s: State, rx: RxState, inbox: seq<FileMsg>, faulty: bool): State {
    s.(rx := rx, inbox := inbox, faulty := faulty)
  }

  lemma AttemptIsBlind(s: State, rx: RxState, inbox: seq<FileMsg>, faulty: bool, signalingOpen: bool)
    ensures DoAttempt(With(s, rx, inbox, faulty), signalingOpen) == With(DoAttempt(s, signalingOpen), rx, inbox, faulty)
  {}

  lemma CutsAreBlind(w: World, s: State, rx: RxState, inbox: seq<FileMsg>, faulty: bool, step: Step)
    requires w.Valid() && (step.ChannelLost? || step.ChannelsReady? || step.CancelAll?)
    ensures Next(w, With(s, rx, inbox, faulty), step) == With(Next(w, s, step), rx, inbox, faulty)
  {}

  lemma OuterIsBlind(w: World, s: State, rx: RxState, inbox: seq<FileMsg>, faulty: bool, step: Step)
    requires w.Valid() && (Outer(step) || step.TakeAccept?)
    ensures Next(w, With(s, rx, inbox, faulty), step) == With(Next(w, s, step), rx, inbox, faulty)
  {}

  /** A step that does not look at the receiver does the same whatever it is. */
  lemma StepIsBlind(w: World, s: State, rx: RxState, inbox: seq<FileMsg>, faulty: bool, step: Step)
    requires w.Valid() && (Outer(step) || Cuts(step) || step.TakeAccept?)
    ensures Next(w, With(s, rx, inbox, faulty), step) == With(Next(w, s, step), rx, inbox, faulty)
  {
    if step.AttemptReconnect? {
      AttemptIsBlind(s, rx, inbox, faulty, step.signalingOpen);
    } else if Cuts(step) {
      CutsAreBlind(w, s, rx, inbox, faulty, step);
    } else {
      OuterIsBlind(w, s, rx, inbox, faulty, step);
    }
  }

  /** Of the other steps only the answer to a re-offer looks at the receiver. */
  lemma QuietlyMatches(w: World, s0: State, a: Async, step: Step)
    requires w.Valid() && (Outer(step) || Cuts(step) || step.TakeAccept?)
    ensures Next(w, Whole(w, s0, a), step) == Whole(w, s0, MoveTo(w, a, Outside(step)))
  {
    var t, u := Whole(w, s0, a), Shown(a);
    StepIsBlind(w, a.base, t.rx, t.inbox, t.faulty, step);
    StepIsBlind(w, a.base, u.rx, u.inbox, a.base.faulty, step);
  }

  lemma AnswerMatches(w: World, s0: State, a: Async)
    requires w.Valid()
    requires LooksLike(a.queue.rx, Fold(w.env, s0.rx, a.queue.handled), InProgress(a.queue))
    ensures Next(w, Whole(w, s0, a), AnswerOffer) == Whole(w, s0, MoveTo(w, a, Outside(AnswerOffer)))
  {
    var t, u := Whole(w, s0, a), Shown(a);
    AnswerIs(w, t);
    AnswerIs(w, u);
  }

  lemma AnswerIs(w: World, s: State)
    requires w.Valid()
    ensures var c := s.control;
            Next(w, s, AnswerOffer)
            == if c.Offered? && c.i < |w.files| && w.files[c.i].id in s.rx.receivers
               then s.(control := Accepted(c.i, FirstGap(s.rx.receivers[w.files[c.i].id].received))) else s
  {}

  lemma EmitMatches(w: World, s0: State, a: Async, bytes: nat)
    requires w.Valid() && Announced(Shown(a)) == Announced(Whole(w, s0, a))
    ensures Next(w, Whole(w, s0, a), Emit(bytes)) == Whole(w, s0, MoveTo(w, a, Outside(Emit(bytes))))
  {}

  // ----- a finished handler is one whole step -----

  lemma ArrivalMatches(w: World, s0: State, a: Async)
    requires w.Valid()
    ensures Next(w, Whole(w, s0, a), Deliver) == Whole(w, s0, MoveTo(w, a, Arrival))
  {
    if a.base.wire != [] {
      var m := a.base.wire[0];
      assert InProgress(a.queue) + a.queue.inbox + [m] == InProgress(a.queue) + (a.queue.inbox + [m]);
    }
  }

  /** q' has finished the message at the head of q's frames: one Handle step. */
  lemma FinishMatches(w: World, s0: State, a: Async, m: FileMsg, ok: bool, q': Queue)
    requires w.Valid() && InProgress(a.queue) + a.queue.inbox == [m] + q'.inbox
    requires q'.task.Idle? && q'.handled == a.queue.handled + [(m, ok)]
    ensures Next(w, Whole(w, s0, a), Handle(ok)) == Whole(w, s0, a.(queue := q'))
  {
    FoldSnoc(w.env, s0.rx, a.queue.handled, m, ok);
    assert ([m] + q'.inbox)[0] == m && ([m] + q'.inbox)[1..] == q'.inbox;
    RejectedSnoc(a.queue.handled, m, ok);
    assert InProgress(q') + q'.inbox == q'.inbox;
  }

  lemma RejectedSnoc(handled: seq<(FileMsg, bool)>, m: FileMsg, ok: bool)
    ensures AnyRejected(handled + [(m, ok)]) == (AnyRejected(handled) || !ok)
  {
    assert (m, ok) in handled + [(m, ok)];
  }

  lemma BeginMatches(w: World, s0: State, a: Async) returns (steps: seq<Step>)
    requires w.Valid() && Refines(w.env, s0.rx, a.queue) && a.queue.task.Idle? && a.queue.inbox != []
    ensures |steps| <= 1 && Run(w, Whole(w, s0, a), steps) == Whole(w, s0, MoveTo(w, a, Work(Begin)))
  {
    var q, q' := a.queue, QueueStep(w.env, a.queue, Begin);
    var q1 := q.(current := q.inbox[0], inbox := q.inbox[1..]);
    steps := [];
    BeginRefines(w.env, q1);
    if Finished(w.env, q1.rx, q1, q') {
      var ok :| q' == Finish(q1.(rx := OnMessage(w.env, q1.rx, q1.current, ok)), ok);
      FinishMatches(w, s0, a, q.inbox[0], ok, q');
      RunOne(w, Whole(w, s0, a), Handle(ok));
      steps := [Handle(ok)];
    } else {
      assert InProgress(q') + q'.inbox == q.inbox;
    }
  }

  lemma SettleMatches(w: World, s0: State, a: Async, ok: bool) returns (steps: seq<Step>)
    requires w.Valid() && Refines(w.env, s0.rx, a.queue) && !a.queue.task.Idle?
    ensures |steps| <= 1 && Run(w, Whole(w, s0, a), steps) == Whole(w, s0, MoveTo(w, a, Work(Settle(ok))))
  {
    var q, q' := a.queue, QueueStep(w.env, a.queue, Settle(ok));
    var st := Fold(w.env, s0.rx, q.handled);
    steps := [];
    SettleRefines(w.env, st, q, ok);
    if Finished(w.env, st, q, q') {
      var b :| q' == Finish(q.(rx := OnMessage(w.env, st, q.current, b)), b);
      FinishMatches(w, s0, a, q.current, b, q');
      RunOne(w, Whole(w, s0, a), Handle(b));
      steps := [Handle(b)];
    }
  }

  lemma WorkMatches(w: World, s0: State, a: Async, e: QueueEvent) returns (steps: seq<Step>)
    requires w.Valid() && Refines(w.env, s0.rx, a.queue) && !e.Arrive?
    ensures |steps| <= 1 && Run(w, Whole(w, s0, a), steps) == Whole(w, s0, MoveTo(w, a, Work(e)))
  {
    steps := [];
    if e.Begin? && a.queue.task.Idle? && a.queue.inbox != [] {
      steps := BeginMatches(w, s0, a);
    } else if e.Settle? && !a.queue.task.Idle? {
      steps := SettleMatches(w, s0, a, e.ok);
    }
  }

  lemma MoveMatches(w: World, s0: State, a: Async, m: Move) returns (steps: seq<Step>)
    requires w.Valid() && Refines(w.env, s0.rx, a.queue)
    ensures Refines(w.env, s0.rx, MoveTo(w, a, m).queue)
    ensures Run(w, Whole(w, s0, a), steps) == Whole(w, s0, MoveTo(w, a, m))
  {
    steps := [];
    match m {
      case Outside(step) =>
        if !step.Deliver? && !step.Handle? {
          SuspendedLooksLike(w.env, Fold(w.env, s0.rx, a.queue.handled), a.queue);
          OutsideMatches(w, s0, a, step);
          RunOne(w, Whole(w, s0, a), step);
          steps := [step];
        }
      case Arrival =>
        ArrivalMatches(w, s0, a);
        RunOne(w, Whole(w, s0, a), Deliver);
        steps := [Deliver];
        if a.base.wire != [] { QueueStepRefines(w.env, s0.rx, a.queue, Arrive(a.base.wire[0])); }
      case Work(e) =>
        if !e.Arrive? {
          steps := WorkMatches(w, s0, a, e);
          QueueStepRefines(w.env, s0.rx, a.queue, e);
        }
    }
  }

  ghost function Started(s0: State): Async {
    Async(s0, Queue(s0.rx, s0.inbox, Idle, TransferComplete({}), []))
  }

  /**
   * Every run with asynchronous handlers is a run of Transfer, which reaches the same
   * state but for a handler in progress: that one counts as waiting.  Between handlers
   * the two receivers are equal, so the results on runs of Transfer hold there.
   */
  lemma {:induction false} AsyncRunIsTransferRun(w: World, s0: State, moves: seq<Move>) returns (steps: seq<Step>)
    requires w.Valid()
    ensures var a := RunAsync(w, Started(s0), moves);
            var t := Run(w, s0, steps);
            && t == Whole(w, s0, a)
            && Suspended(w.env, t.rx, a.queue)
            && (a.queue.task.Idle? ==> t.rx == a.queue.rx && t.inbox == a.queue.inbox)
  {
    if moves == [] {
      steps := [];
      assert [] + s0.inbox == s0.inbox;
    } else {
      var init, m := moves[..|moves| - 1], moves[|moves| - 1];
      var a := RunAsync(w, Started(s0), init);
      var before := AsyncRunIsTransferRun(w, s0, init);
      var last := MoveMatches(w, s0, a, m);
      steps := before + last;
      RunAppend(w, s0, before, last);
    }
  }

  lemma LoggingIsHandled(w: World, t: State, q: Queue)
    requires w.Valid() && Suspended(w.env, t.rx, q) && q.task.Logging? && t.inbox == InProgress(q) + q.inbox
    ensures Next(w, t, Handle(true)).rx == q.rx
  {}

  /** In the middle of a handler no file is shown as completed that was not so before it, and its bytes are as before. */
  lemma CompletedBefore(env: Env, st: RxState, q: Queue, id: string)
    requires Suspended(env, st, q) && !q.task.Logging? && Integrity.IsCompleted(q.rx, id)
    ensures Integrity.IsCompleted(st, id) && q.rx.saved == st.saved && q.rx.receivers.Keys == st.receivers.Keys
    ensures id in st.receivers ==> q.rx.receivers[id].hashed == st.receivers[id].hashed
  {}

  /**
   * At every moment of every run with asynchronous handlers, in the middle of one or
   * not: a file shown as completed was saved with exactly the sender's bytes, or the
   * bytes received and the file collide under the hash.
   */
  lemma CompletedMeansExactBytes(w: World, rx: RxState, moves: seq<Move>, j: nat)
    requires w.Valid() && FreshReceiver(w, rx) && j < |w.files|
    ensures var q := RunAsync(w, Started(Initially(w, rx)), moves).queue;
            var f := w.files[j];
            Integrity.IsCompleted(q.rx, f.id) ==>
              && f.id in q.rx.saved && f.id in q.rx.receivers
              && (q.rx.saved[f.id] == f.content || Collide(w.env.h, q.rx.receivers[f.id].hashed, f.content))
  {
    var q := RunAsync(w, Started(Initially(w, rx)), moves).queue;
    var steps := AsyncRunIsTransferRun(w, Initially(w, rx), moves);
    var t := Run(w, Initially(w, rx), steps);
    if q.task.Logging? {
      RunAppend(w, Initially(w, rx), steps, [Handle(true)]);
      RunOne(w, t, Handle(true));
      LoggingIsHandled(w, t, q);
      Integrity.CompletedMeansExactBytes(w, rx, steps + [Handle(true)], j);
    } else if Integrity.IsCompleted(q.rx, w.files[j].id) {
      CompletedBefore(w.env, t.rx, q, w.files[j].id);
      Integrity.CompletedMeansExactBytes(w, rx, steps, j);
    }
  }

  /** A handler in progress has not touched what a file received, hashed and reported. */
  ghost predicate SameChunks(rx: RxState, st: RxState, id: string) {
    && id in rx.receivers && id in st.receivers
    && rx.receivers[id].received == st.receivers[id].received
    && rx.receivers[id].hashed == st.receivers[id].hashed
    && rx.receivers[id].progress == st.receivers[id].progress
  }

  lemma SuspendedSameChunks(env: Env, st: RxState, q: Queue, id: string)
    requires Suspended(env, st, q) && id in st.receivers
    ensures SameChunks(q.rx, st, id)
  {
    if q.task.Logging? {
      CompleteEffect(env, st, q.current.fileId, q.current.checksum, true);
      if id != q.current.fileId { assert Untouched(st, q.rx, id); }
    }
  }

  /** At every such moment, as long as no handler was rejected: each file's received set is a prefix, and its hash covers it. */
  lemma ReceivedIsAlwaysAPrefix(w: World, rx: RxState, moves: seq<Move>, j: nat)
    requires w.Valid() && FreshReceiver(w, rx) && j < |w.files|
    ensures var q := RunAsync(w, Started(Initially(w, rx)), moves).queue;
            var f := w.files[j];
            !AnyRejected(q.handled) ==>
              && f.id in q.rx.receivers
              && var r := q.rx.receivers[f.id];
              var n := |r.received|;
              && r.received == Iota(n) && n <= f.Total() && r.hashed == f.Before(n) && r.progress == |f.Before(n)|
  {
    var q := RunAsync(w, Started(Initially(w, rx)), moves).queue;
    var steps := AsyncRunIsTransferRun(w, Initially(w, rx), moves);
    var t := Run(w, Initially(w, rx), steps);
    if !AnyRejected(q.handled) {
      Recovery.ReceivedIsAlwaysAPrefix(w, rx, steps, j);
      SuspendedSameChunks(w.env, t.rx, q, w.files[j].id);
    }
  }

  /** When the handler of TRANSFER_COMPLETE is about to start, exactly the files lost to the loop that sent it are missing. */
  lemma TransferCompleteIff(w: World, rx: RxState, moves: seq<Move>)
    requires w.Valid() && FreshReceiver(w, rx)
    ensures var q := RunAsync(w, Started(Initially(w, rx)), moves).queue;
            q.task.Idle? && q.inbox != [] && q.inbox[0].TransferComplete? ==>
              && q.rx.completed == w.Ids() - Completion.Named(w, q.inbox[0].lost)
              && (q.rx.completed == w.Ids() <==> Completion.Named(w, q.inbox[0].lost) == {})
  {
    var steps := AsyncRunIsTransferRun(w, Initially(w, rx), moves);
    Completion.TransferCompleteIff(w, rx, steps);
  }
}
