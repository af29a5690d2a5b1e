/**
 * What becomes of a file when the retry budget is spent (SenderSession.ts, the branch
 * of handleConnectionLoss that cancels the active pump only).
 */
module GivingUp {
  import opened ReceiverState
  import opened Transfer
  import opened Schedules
  import opened Completion
  import Integrity
  import Pump

  /** The next connection loss gives up. */
  predicate BudgetSpent(s: Sender) {
    !s.cancelled && !Terminal(s.transferState) && s.attempts >= MAX_WEBRTC_RECONNECT_ATTEMPTS
  }

  /** The file that a connection loss now strands: its pump can still be stopped, and it was never announced. */
  ghost function Stranded(w: World, s: State): set<nat>
    requires w.Valid() && LoopOk(w, s.snd.loop)
  {
    var loop := s.snd.loop;
    if loop.Pumping? && Pump.CancelBites(w.Job(loop.i), loop.pump) && w.files[loop.i].id !in Announced(s) then {loop.i} else {}
  }

  /** The cancelled pump of s is still at work. */
  ghost predicate StillCancelled(w: World, s: State, t: State)
    requires w.Valid() && s.snd.loop.Pumping? && LoopOk(w, s.snd.loop)
  {
    && Integrity.Inv(w, t) && Told(w, t) && t.lost == s.lost && Announced(t) == Announced(s)
    && t.snd.open && !t.snd.cancelled
    && t.snd.loop.Pumping? && t.snd.loop.i == s.snd.loop.i && t.snd.loop.pump.cancelled
    && (Pump.CancelBites(w.Job(t.snd.loop.i), t.snd.loop.pump) <==> Pump.CancelBites(w.Job(s.snd.loop.i), s.snd.loop.pump))
  }

  /** After the loss: the cancelled pump is at work, or its file is behind the loop. */
  ghost predicate Heading(w: World, s: State, t: State)
    requires w.Valid() && LoopOk(w, s.snd.loop)
  {
    (s.snd.loop.Pumping? && StillCancelled(w, s, t)) || Finishing(w, s.lost + Stranded(w, s), t)
  }

  /** The branch of handleConnectionLoss: the state is Failed, the active pump cancelled, nothing else. */
  lemma LossCancels(w: World, s: State)
    requires w.Valid() && BudgetSpent(s.snd)
    ensures Next(w, s, ConnectionLoss)
            == s.(snd := s.snd.(transferState := TransferState.Failed, loop := SignalPump(s.snd.loop, Pump.Cancel)))
    ensures Announced(Next(w, s, ConnectionLoss)) == Announced(s)
  {
    assert Pipe(Next(w, s, ConnectionLoss)) == Pipe(s);
  }

  lemma SignalledPump(w: World, loop: Loop)
    requires w.Valid() && LoopOk(w, loop)
    ensures var loop' := SignalPump(loop, Pump.Cancel);
            if loop.Pumping? then
              && loop'.Pumping? && loop'.i == loop.i && loop'.pump.cancelled && !loop'.pump.paused && LoopOk(w, loop')
              && (Pump.CancelBites(w.Job(loop.i), loop'.pump) <==> Pump.CancelBites(w.Job(loop.i), loop.pump))
            else loop' == loop
  {
    SignalKeepsLoopOk(w, loop, Pump.Cancel);
  }

  lemma LossHeads(w: World, s: State)
    requires w.Valid() && Integrity.Inv(w, s) && Told(w, s) && BudgetSpent(s.snd) && s.snd.open && s.snd.loop.Running()
    ensures Heading(w, s, Next(w, s, ConnectionLoss))
  {
    Integrity.NextKeepsInv(w, s, ConnectionLoss);
    NextKeepsTold(w, s, ConnectionLoss);
    LossCancels(w, s);
    SignalledPump(w, s.snd.loop);
    if s.snd.loop.Between? { assert s.lost + Stranded(w, s) == s.lost; }
  }

  /** The cancelled pump's turn, by itself: it goes on, completes its file, or leaves it. */
  lemma CancelledEmit(w: World, t: State, bytes: nat)
    requires w.Valid() && t.snd.open && t.snd.loop.Pumping? && LoopOk(w, t.snd.loop) && t.snd.loop.pump.cancelled
    ensures var loop, loop', lost := t.snd.loop, DoEmit(w, t, bytes).snd.loop, DoEmit(w, t, bytes).lost;
            var bites := Pump.CancelBites(w.Job(loop.i), loop.pump);
            if loop'.Pumping? then
              && loop'.i == loop.i && loop'.pump.cancelled && lost == t.lost && !Announces(w, loop, bytes)
              && (Pump.CancelBites(w.Job(loop.i), loop'.pump) <==> bites)
            else
              loop'.Between? && lost == t.lost + (if bites && w.files[loop.i].id !in Announced(t) then {loop.i} else {})
  {
    Pump.CancelledStep(w.Job(t.snd.loop.i), t.snd.loop.pump, Pump.Advance(bytes));
    assert t.lost + {} == t.lost;
  }

  lemma TurnStays(w: World, s: State, t: State, t': State)
    requires w.Valid() && s.snd.loop.Pumping? && LoopOk(w, s.snd.loop) && StillCancelled(w, s, t)
    requires Integrity.Inv(w, t') && Told(w, t') && t'.lost == t.lost && Announced(t') == Announced(t)
    requires t'.snd.open && !t'.snd.cancelled && t'.snd.loop.Pumping? && t'.snd.loop.i == t.snd.loop.i && t'.snd.loop.pump.cancelled
    requires Pump.CancelBites(w.Job(t.snd.loop.i), t'.snd.loop.pump) <==> Pump.CancelBites(w.Job(t.snd.loop.i), t.snd.loop.pump)
    ensures StillCancelled(w, s, t')
  {}

  lemma TurnLeaves(w: World, s: State, t: State, t': State)
    requires w.Valid() && s.snd.loop.Pumping? && LoopOk(w, s.snd.loop) && StillCancelled(w, s, t)
    requires Integrity.Inv(w, t') && Told(w, t') && t'.snd.open && !t'.snd.cancelled && t'.snd.loop.Between?
    requires var bites := Pump.CancelBites(w.Job(t.snd.loop.i), t.snd.loop.pump);
             t'.lost == t.lost + (if bites && w.files[t.snd.loop.i].id !in Announced(t) then {t.snd.loop.i} else {})
    ensures Finishing(w, s.lost + Stranded(w, s), t')
  {}

  lemma EmitKeepsOpen(w: World, t: State, bytes: nat)
    requires w.Valid() && Live(w, t.snd.loop)
    ensures DoEmit(w, t, bytes).snd.open == t.snd.open && DoEmit(w, t, bytes).snd.cancelled == t.snd.cancelled
  {}

  lemma CancelledTurn(w: World, s: State, t: State, bytes: nat)
    requires w.Valid() && s.snd.loop.Pumping? && LoopOk(w, s.snd.loop) && StillCancelled(w, s, t)
    ensures Heading(w, s, Next(w, t, Emit(bytes)))
  {
    Integrity.NextKeepsInv(w, t, Emit(bytes));
    NextKeepsTold(w, t, Emit(bytes));
    CancelledHeads(w, s, t, DoEmit(w, t, bytes), bytes);
  }

  lemma CancelledHeads(w: World, s: State, t: State, t': State, bytes: nat)
    requires w.Valid() && s.snd.loop.Pumping? && LoopOk(w, s.snd.loop) && StillCancelled(w, s, t)
    requires t' == DoEmit(w, t, bytes) && Integrity.Inv(w, t') && Told(w, t')
    ensures Heading(w, s, t')
  {
    CancelledEmit(w, t, bytes);
    EmitAnnounces(w, t, bytes);
    EmitKeepsOpen(w, t, bytes);
    if t'.snd.loop.Pumping? {
      TurnStays(w, s, t, t');
    } else {
      TurnLeaves(w, s, t, t');
    }
  }

  lemma HeadingStep(w: World, s: State, t: State, step: Step)
    requires w.Valid() && LoopOk(w, s.snd.loop) && Heading(w, s, t) && QuietStep(step)
    ensures Heading(w, s, Next(w, t, step))
  {
    if Finishing(w, s.lost + Stranded(w, s), t) {
      FinishingStep(w, s.lost + Stranded(w, s), t, step);
    } else if step.Emit? {
      CancelledTurn(w, s, t, step.bytes);
    } else {
      Integrity.NextKeepsInv(w, t, step);
      NextKeepsTold(w, t, step);
      match step {
        case Flow(e) => Pump.CancelledStep(w.Job(t.snd.loop.i), t.snd.loop.pump, e);
        case Handle(ok) => if t.inbox != [] { HandleKeepsAnnounced(w, t, ok); }
        case Deliver => if t.wire != [] { DeliverKeepsPipe(w, t); }
        case _ =>
      }
      assert Announced(Next(w, t, step)) == Announced(t);
    }
  }

  lemma {:induction false} HeadingRun(w: World, s: State, t: State, more: seq<Step>)
    requires w.Valid() && LoopOk(w, s.snd.loop) && Heading(w, s, t) && Quiet(more)
    ensures Heading(w, s, Run(w, t, more))
  {
    if more != [] {
      var init, step := more[..|more| - 1], more[|more| - 1];
      assert step in more && forall x :: x in init ==> x in more;
      HeadingRun(w, s, t, init);
      HeadingStep(w, s, Run(w, t, init), step);
    }
  }

  /**
   * The exact condition.  From every reachable state in which a connection loss finds
   * the budget spent, a loop running and the channel open, and for every undisturbed
   * continuation, whichever handlers are rejected: the transfer is shown as done,
   * missing what was lost before, and besides that the file at hand exactly if it was
   * not announced before and its pump was not yet reading its last chunk, nor past it.
   * Between two files nothing is lost.
   */
  lemma GivingUpStrandsIff(w: World, rx: RxState, steps: seq<Step>, more: seq<Step>)
    requires w.Valid() && FreshReceiver(w, rx) && Quiet(more)
    requires var s := Run(w, Initially(w, rx), steps); BudgetSpent(s.snd) && s.snd.open && s.snd.loop.Running()
    ensures var s := Run(w, Initially(w, rx), steps);
            var t := Run(w, Next(w, s, ConnectionLoss), more);
            && LoopOk(w, s.snd.loop)
            && (t.snd.loop.Stopped? && Pipe(t) == [] ==>
                  && t.rx.transferDone && t.rx.completed == w.Ids() - Named(w, s.lost + Stranded(w, s))
                  && (s.snd.loop.Pumping? ==> (w.files[s.snd.loop.i].id !in t.rx.completed <==> s.snd.loop.i in Stranded(w, s))))
  {
    var s := Run(w, Initially(w, rx), steps);
    Integrity.Reachable(w, rx, steps);
    Completion.Reachable(w, rx, steps);
    LossHeads(w, s);
    HeadingRun(w, s, Next(w, s, ConnectionLoss), more);
    var t := Run(w, Next(w, s, ConnectionLoss), more);
    if t.snd.loop.Stopped? && Pipe(t) == [] {
      FinishedIsDone(w, s.lost + Stranded(w, s), t);
      if s.snd.loop.Pumping? { NamedOnly(w, s.snd.loop.i, s.lost + Stranded(w, s)); }
    }
  }

  lemma NamedOnly(w: World, i: nat, indices: set<nat>)
    requires w.Valid() && i < |w.files|
    ensures w.files[i].id in Named(w, indices) <==> i in indices
  {}

  /** There is such a continuation. */
  lemma GivingUpEnds(w: World, rx: RxState, steps: seq<Step>) returns (more: seq<Step>)
    requires w.Valid() && FreshReceiver(w, rx)
    requires var s := Run(w, Initially(w, rx), steps); BudgetSpent(s.snd) && s.snd.open && s.snd.loop.Running()
    ensures var t := Run(w, Next(w, Run(w, Initially(w, rx), steps), ConnectionLoss), more);
            Quiet(more) && t.snd.loop.Stopped? && Pipe(t) == []
  {
    var s := Run(w, Initially(w, rx), steps);
    Integrity.Reachable(w, rx, steps);
    LossCancels(w, s);
    SignalledPump(w, s.snd.loop);
    more := Undisturbed(w, Next(w, s, ConnectionLoss));
  }

  // ----- stranded for good -----

  /** File i was never announced, the loop cannot announce it any more, and no loop will start again. */
  ghost predicate Hopeless(w: World, i: nat, t: State)
    requires w.Valid() && i < |w.files|
  {
    && Integrity.Inv(w, t) && Told(w, t) && !CanReconnect(t) && w.files[i].id !in Announced(t)
    && (t.snd.loop.Running() ==> LoopPast(w, i, t.snd.loop))
  }

  predicate LoopPast(w: World, i: nat, loop: Loop)
    requires w.Valid() && i < |w.files| && loop.Running()
  {
    loop.i > i || (loop.Pumping? && loop.i == i && loop.pump.cancelled && Pump.CancelBites(w.Job(i), loop.pump))
  }

  lemma SignalKeepsPast(w: World, i: nat, loop: Loop, e: Pump.Event)
    requires w.Valid() && i < |w.files| && loop.Running() && LoopOk(w, loop) && LoopPast(w, i, loop) && !e.Advance?
    ensures LoopPast(w, i, SignalPump(loop, e))
  {
    if loop.Pumping? && loop.i == i { Pump.CancelledStep(w.Job(i), loop.pump, e); }
  }

  lemma EmitStaysPast(w: World, i: nat, t: State, bytes: nat)
    requires w.Valid() && i < |w.files| && Live(w, t.snd.loop) && LoopOk(w, t.snd.loop) && LoopPast(w, i, t.snd.loop)
    ensures AfterEmit(w, t.snd, bytes).loop.Running() ==> LoopPast(w, i, AfterEmit(w, t.snd, bytes).loop)
    ensures w.files[i].id !in Completions(NextFrames(w, t.snd, t.lost, bytes))
  {
    var loop := t.snd.loop;
    EmittedCompletions(w, t.snd, t.lost, bytes);
    if loop.Pumping? && loop.i == i { Pump.CancelledStep(w.Job(i), loop.pump, Pump.Advance(bytes)); }
  }

  /** No other step starts a loop, nor leaves the cancelled pump another way out. */
  lemma OtherStaysPast(w: World, i: nat, t: State, step: Step)
    requires w.Valid() && i < |w.files| && !CanReconnect(t) && !step.Emit? && !step.Handle?
    requires SenderOk(w, t.snd) && (t.snd.loop.Running() ==> LoopPast(w, i, t.snd.loop))
    ensures !CanReconnect(Next(w, t, step))
    ensures Next(w, t, step).snd.loop.Running() ==> LoopPast(w, i, Next(w, t, step).snd.loop)
  {
    NoReconnectStep(w, t, step);
    var e := NoRestart(w, t, step);
    if Next(w, t, step).snd.loop.Running() { SignalKeepsPast(w, i, t.snd.loop, e); }
  }

  lemma NoRestart(w: World, t: State, step: Step) returns (e: Pump.Event)
    requires w.Valid() && !CanReconnect(t) && (t.snd.cancelled ==> !t.snd.open) && !step.Emit? && !step.Handle?
    ensures !e.Advance?
    ensures var loop := Next(w, t, step).snd.loop;
            loop == t.snd.loop || loop == SignalPump(t.snd.loop, e) || !loop.Running()
  {
    e := Pump.Cancel;
    if Outer(step) {
      e := OuterIs(w, t, step);
    }
  }

  lemma HopelessEmit(w: World, i: nat, t: State, bytes: nat)
    requires w.Valid() && i < |w.files| && Hopeless(w, i, t) && Live(w, t.snd.loop)
    ensures w.files[i].id !in Announced(DoEmit(w, t, bytes))
  {
    EmitStaysPast(w, i, t, bytes);
    if t.snd.open {
      EmitKeepsPipe(w, t, bytes);
    } else {
      assert Announced(DoEmit(w, t, bytes)) == Announced(t);
    }
  }

  lemma NeverAnnounced(w: World, i: nat, t: State, step: Step)
    requires w.Valid() && i < |w.files| && Hopeless(w, i, t)
    ensures w.files[i].id !in Announced(Next(w, t, step))
  {
    if step.Emit? {
      if Live(w, t.snd.loop) { HopelessEmit(w, i, t, step.bytes); }
    } else if step.Handle? {
      if t.inbox != [] { HandleKeepsAnnounced(w, t, step.ok); }
    } else {
      Integrity.OtherSteps(w, t, step);
      CompletionsAppend(t.inbox, t.wire);
    }
  }

  lemma HopelessStep(w: World, i: nat, t: State, step: Step)
    requires w.Valid() && i < |w.files| && Hopeless(w, i, t)
    ensures Hopeless(w, i, Next(w, t, step))
  {
    Integrity.NextKeepsInv(w, t, step);
    NextKeepsTold(w, t, step);
    NeverAnnounced(w, i, t, step);
    if step.Emit? {
      if Live(w, t.snd.loop) { EmitStaysPast(w, i, t, step.bytes); }
    } else if !step.Handle? {
      OtherStaysPast(w, i, t, step);
    }
  }

  lemma {:induction false} HopelessRun(w: World, i: nat, t: State, more: seq<Step>)
    requires w.Valid() && i < |w.files| && Hopeless(w, i, t)
    ensures Hopeless(w, i, Run(w, t, more))
  {
    if more != [] {
      HopelessRun(w, i, t, more[..|more| - 1]);
      HopelessStep(w, i, Run(w, t, more[..|more| - 1]), more[|more| - 1]);
    }
  }

  /** A file stranded when no reconnection is left is never finalized, whatever follows. */
  lemma StrandedForGood(w: World, rx: RxState, steps: seq<Step>, more: seq<Step>)
    requires w.Valid() && FreshReceiver(w, rx)
    requires var s := Run(w, Initially(w, rx), steps);
             BudgetSpent(s.snd) && s.snd.open && LoopOk(w, s.snd.loop) && Stranded(w, s) != {} && !CanReconnect(s)
    ensures var s := Run(w, Initially(w, rx), steps);
            w.files[s.snd.loop.i].id !in Run(w, Next(w, s, ConnectionLoss), more).rx.completed
  {
    var s := Run(w, Initially(w, rx), steps);
    Integrity.Reachable(w, rx, steps);
    Completion.Reachable(w, rx, steps);
    LossIsHopeless(w, s);
    HopelessRun(w, s.snd.loop.i, Next(w, s, ConnectionLoss), more);
  }

  lemma LossIsHopeless(w: World, s: State)
    requires w.Valid() && Integrity.Inv(w, s) && Told(w, s) && BudgetSpent(s.snd) && Stranded(w, s) != {} && !CanReconnect(s)
    ensures Hopeless(w, s.snd.loop.i, Next(w, s, ConnectionLoss))
  {
    Integrity.NextKeepsInv(w, s, ConnectionLoss);
    NextKeepsTold(w, s, ConnectionLoss);
    LossCancels(w, s);
    SignalledPump(w, s.snd.loop);
  }

  // ----- the shortest such story -----

  /** The first chunk is being read; the connection is lost and the chunk sent; signaling is down when the timer fires. */
  const FIRST_LOSS: seq<Step> := [Emit(0), Emit(0), Emit(0)] + [ConnectionLoss, Emit(0), AttemptReconnect(false)]

  /** The connection is lost again, and signaling is still down. */
  const NEXT_LOSS: seq<Step> := [ConnectionLoss, AttemptReconnect(false)]

  const FIVE_LOSSES: seq<Step> := FIRST_LOSS + NEXT_LOSS + NEXT_LOSS + NEXT_LOSS + NEXT_LOSS

  /** n losses were counted, no attempt is left, and the paused pump of the first file waits. */
  ghost predicate Stuck(s: State, n: nat) {
    && s.snd.open && !s.snd.cancelled && !s.snd.reconnecting && s.snd.scheduled == 0 && s.snd.attempts == n && !s.linked
    && s.snd.transferState == Interrupted && s.control.NoControl? && s.lost == {} && Announced(s) == {}
    && s.snd.loop.Pumping? && s.snd.loop.i == 0 && s.snd.loop.pump.point.WaitResume?
  }

  /** A turn of a pump that neither sends nor ends. */
  lemma PlainTurn(w: World, s: State)
    requires w.Valid() && Live(w, s.snd.loop) && s.snd.loop.Pumping? && !s.snd.loop.pump.point.Reading?
    requires !PumpAfter(w, s.snd.loop, 0).point.Done?
    ensures Next(w, s, Emit(0)) == s.(snd := s.snd.(loop := s.snd.loop.(pump := PumpAfter(w, s.snd.loop, 0))))
  {}

  /** A fresh pump gets to its first read in three turns. */
  lemma FirstPumpTurns(w: World)
    requires w.Valid()
    ensures var job, p := w.Job(0), Pump.Init(0, false, false, 0);
            && Pump.Advanced(job, p, 0) == p.(point := Pump.ResumeReady)
            && Pump.Advanced(job, p.(point := Pump.ResumeReady), 0) == p.(point := Pump.BufferReady)
            && Pump.Advanced(job, p.(point := Pump.BufferReady), 0) == p.(point := Pump.Reading)
  {}

  lemma ReadsFirstChunk(w: World, rx: RxState)
    requires w.Valid()
    ensures var s := Initially(w, rx);
            Run(w, s, [Emit(0), Emit(0), Emit(0)])
            == s.(snd := s.snd.(loop := Pumping(0, map[], Pump.Init(0, false, false, 0).(point := Pump.Reading))))
  {
    var s := Initially(w, rx);
    FirstPumpTurns(w);
    PlainTurn(w, s);
    PlainTurn(w, Next(w, s, Emit(0)));
    PlainTurn(w, Next(w, Next(w, s, Emit(0)), Emit(0)));
    RunThree(w, s, Emit(0), Emit(0), Emit(0));
  }

  /** The first loss was counted while the first chunk was being read. */
  ghost predicate PausedReading(s: State) {
    && s.snd.open && !s.snd.cancelled && !s.snd.reconnecting && s.snd.scheduled == 1 && s.snd.attempts == 1
    && s.snd.transferState == Interrupted && s.control.NoControl? && s.lost == {} && s.rx.completed == {} && Pipe(s) == []
    && s.snd.loop == Pumping(0, map[], Pump.Init(0, true, false, 0).(point := Pump.Reading))
  }

  lemma SendsWhilePaused(w: World, s: State)
    requires w.Valid() && PausedReading(s) && w.files[0].Total() > 1
    ensures Stuck(Next(w, Next(w, s, Emit(0)), AttemptReconnect(false)), 1)
  {
    var job, pump := w.Job(0), s.snd.loop.pump;
    assert PumpAfter(w, s.snd.loop, 0) == Pump.SendChunk(job, pump, 0).(point := Pump.WaitResume, waiters := 1);
    assert NextFrames(w, s.snd, {}, 0) == Pump.ChunkFrames(job, 0);
    var t := DoEmit(w, s, 0);
    assert Pipe(t) == Pump.ChunkFrames(job, 0);
    assert Announced(t) == {};
    assert Announced(Next(w, t, AttemptReconnect(false))) == Announced(t);
  }

  lemma LossWhileReading(w: World, rx: RxState)
    requires w.Valid() && FreshReceiver(w, rx)
    ensures var s := Run(w, Initially(w, rx), [Emit(0), Emit(0), Emit(0)]); PausedReading(Next(w, s, ConnectionLoss))
  {
    ReadsFirstChunk(w, rx);
    LossCounted(w, Run(w, Initially(w, rx), [Emit(0), Emit(0), Emit(0)]));
  }

  lemma FirstLoss(w: World, rx: RxState)
    requires w.Valid() && FreshReceiver(w, rx) && w.files[0].Total() > 1
    ensures Stuck(Run(w, Initially(w, rx), FIRST_LOSS), 1)
  {
    LossWhileReading(w, rx);
    var s := Run(w, Initially(w, rx), [Emit(0), Emit(0), Emit(0)]);
    RunAppend(w, Initially(w, rx), [Emit(0), Emit(0), Emit(0)], [ConnectionLoss, Emit(0), AttemptReconnect(false)]);
    RunThree(w, s, ConnectionLoss, Emit(0), AttemptReconnect(false));
    SendsWhilePaused(w, Next(w, s, ConnectionLoss));
  }

  lemma NextLoss(w: World, s: State, n: nat)
    requires w.Valid() && Stuck(s, n) && n < MAX_WEBRTC_RECONNECT_ATTEMPTS
    ensures Stuck(Run(w, s, NEXT_LOSS), n + 1)
  {
    RunTwo(w, s, ConnectionLoss, AttemptReconnect(false));
    LossCounted(w, s);
    AttemptFails(w, Next(w, s, ConnectionLoss));
  }

  lemma LossCounted(w: World, s: State)
    requires w.Valid() && !s.snd.cancelled && !Terminal(s.snd.transferState) && s.snd.attempts < MAX_WEBRTC_RECONNECT_ATTEMPTS
    ensures Next(w, s, ConnectionLoss)
            == s.(snd := s.snd.(attempts := s.snd.attempts + 1, scheduled := s.snd.scheduled + 1, transferState := Interrupted,
                                loop := SignalPump(s.snd.loop, Pump.Pause)))
    ensures Announced(Next(w, s, ConnectionLoss)) == Announced(s)
  {
    SameAnnounced(s, Next(w, s, ConnectionLoss));
  }

  lemma AttemptFails(w: World, s: State)
    requires w.Valid() && s.snd.scheduled > 0 && !s.snd.cancelled
    ensures Next(w, s, AttemptReconnect(false)) == s.(snd := s.snd.(scheduled := s.snd.scheduled - 1), linked := false)
    ensures Announced(Next(w, s, AttemptReconnect(false))) == Announced(s)
  {
    SameAnnounced(s, Next(w, s, AttemptReconnect(false)));
  }

  lemma FiveLosses(w: World, rx: RxState)
    requires w.Valid() && FreshReceiver(w, rx) && w.files[0].Total() > 1
    ensures Stuck(Run(w, Initially(w, rx), FIVE_LOSSES), 5)
  {
    var s0, a, b := Initially(w, rx), FIRST_LOSS, NEXT_LOSS;
    FirstLoss(w, rx);
    RunAppend(w, s0, a, b);
    RunAppend(w, s0, a + b, b);
    RunAppend(w, s0, a + b + b, b);
    RunAppend(w, s0, a + b + b + b, b);
    NextLoss(w, Run(w, s0, a), 1);
    NextLoss(w, Run(w, s0, a + b), 2);
    NextLoss(w, Run(w, s0, a + b + b), 3);
    NextLoss(w, Run(w, s0, a + b + b + b), 4);
  }

  /**
   * Six losses with signaling down, during the first file of at least two chunks: the
   * transfer is then shown as done, only that file is missing, and it stays missing
   * whatever follows.
   */
  lemma SixLossesStrandTheFile(w: World, rx: RxState) returns (more: seq<Step>)
    requires w.Valid() && FreshReceiver(w, rx) && w.files[0].Total() > 1
    ensures var t := Run(w, Next(w, Run(w, Initially(w, rx), FIVE_LOSSES), ConnectionLoss), more);
            t.rx.transferDone && t.rx.completed == w.Ids() - {w.files[0].id}
    ensures var s := Next(w, Run(w, Initially(w, rx), FIVE_LOSSES), ConnectionLoss);
            forall rest :: w.files[0].id !in Run(w, s, more + rest).rx.completed
  {
    FiveLosses(w, rx);
    more := GivingUpEnds(w, rx, FIVE_LOSSES);
    GivingUpStrandsIff(w, rx, FIVE_LOSSES, more);
    assert Named(w, {0}) == {w.files[0].id};
    assert {} + {0} == {0};
    forall rest
      ensures w.files[0].id !in Run(w, Next(w, Run(w, Initially(w, rx), FIVE_LOSSES), ConnectionLoss), more + rest).rx.completed
    {
      StrandedForGood(w, rx, FIVE_LOSSES, more + rest);
    }
  }
}
