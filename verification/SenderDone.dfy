/**
 * What it means that the sender shows a transfer as completed.  The end of its file
 * loop sets that state whether or not the channel is open (SenderSession.ts, the end
 * of handleAccept), and from then on connection losses are ignored.
 */
module SenderDone {
  import opened Wire
  import opened ReceiverState
  import opened Transfer
  import opened Schedules
  import opened Completion
  import Integrity

  /** The loop has passed its last file: its next turn shows the transfer as completed. */
  predicate AboutToShow(w: World, s: Sender) {
    !s.cancelled && s.loop.Between? && s.loop.i >= |w.files|
  }

  /** TRANSFER_COMPLETE and every FILE_COMPLETE have reached the receiver's handlers. */
  ghost predicate GotEverything(w: World, rx: RxState) {
    rx.transferDone && rx.completed == w.Ids()
  }

  // ----- after the loop -----

  /** The loop of s is over, and nothing was announced or promised since. */
  ghost predicate After(w: World, announced: set<string>, promised: bool, t: State)
    requires w.Valid()
  {
    Integrity.Inv(w, t) && Told(w, t) && t.snd.loop.Stopped? && Announced(t) == announced && (Promised(t) <==> promised)
  }

  lemma SamePromised(s: State, s': State)
    requires s'.rx == s.rx && Pipe(s') == Pipe(s)
    ensures Promised(s') == Promised(s)
  {}

  lemma HandleKeepsPromised(w: World, s: State, ok: bool)
    requires w.Valid() && Told(w, s) && s.inbox != [] && s.rx.receivers.Keys == w.Ids()
    ensures Promised(DoHandle(w, s, ok)) <==> Promised(s)
  {
    var s', m, tail := DoHandle(w, s, ok), s.inbox[0], s.inbox[1..] + s.wire;
    assert Pipe(s) == [m] + tail && Pipe(s') == tail;
    HeadTruthful(w, s.rx.completed, m, tail);
    HandledCompletes(w, s.rx, m, ok);
    HandleKeepsAnnounced(w, s, ok);
    if Promised(s') && !s'.rx.transferDone {
      var p :| p in Pipe(s') && p.TransferComplete?;
      assert p in Pipe(s);
    } else if s'.rx.transferDone && !s.rx.transferDone {
      assert m in Pipe(s) && m.TransferComplete?;
    }
  }

  lemma AfterStep(w: World, announced: set<string>, promised: bool, t: State, step: Step)
    requires w.Valid() && After(w, announced, promised, t) && QuietStep(step)
    ensures After(w, announced, promised, Next(w, t, step))
  {
    var t' := Next(w, t, step);
    Integrity.NextKeepsInv(w, t, step);
    NextKeepsTold(w, t, step);
    if step.Handle? {
      if t.inbox != [] {
        HandleKeepsAnnounced(w, t, step.ok);
        HandleKeepsPromised(w, t, step.ok);
      }
    } else if step.Deliver? {
      if t.wire != [] {
        DeliverKeepsPipe(w, t);
        SameAnnounced(t, t');
        SamePromised(t, t');
      }
    }
  }

  lemma {:induction false} AfterRun(w: World, announced: set<string>, promised: bool, t: State, more: seq<Step>)
    requires w.Valid() && After(w, announced, promised, t) && Quiet(more)
    ensures After(w, announced, promised, Run(w, t, more))
  {
    if more != [] {
      var init, step := more[..|more| - 1], more[|more| - 1];
      assert step in more && forall x :: x in init ==> x in more;
      AfterRun(w, announced, promised, t, init);
      AfterStep(w, announced, promised, Run(w, t, init), step);
    }
  }

  /** The last turn announces no file; it promises the end exactly if the channel is open. */
  lemma LastTurnPromises(w: World, s: State, bytes: nat)
    requires w.Valid() && Integrity.Inv(w, s) && Told(w, s) && AboutToShow(w, s.snd)
    ensures var t := DoEmit(w, s, bytes);
            After(w, Announced(s), s.snd.open || Promised(s), t) && t.snd.transferState == TransferState.Completed
  {
    var t := DoEmit(w, s, bytes);
    Integrity.NextKeepsInv(w, s, Emit(bytes));
    NextKeepsTold(w, s, Emit(bytes));
    EmitExtends(w, s, bytes);
    if s.snd.open {
      EmitAnnounces(w, s, bytes);
      assert Pipe(t) == Pipe(s) + [TransferComplete(s.lost)];
      assert TransferComplete(s.lost) in Pipe(t);
    } else {
      SameAnnounced(s, t);
      SamePromised(s, t);
    }
  }

  lemma EmptyPipe(w: World, t: State)
    requires Pipe(t) == []
    ensures Announced(t) == t.rx.completed && (Promised(t) <==> t.rx.transferDone)
  {
    assert Completions([]) == {};
  }

  /**
   * Shown as completed, left undisturbed: the receiver gets everything exactly if every
   * file was announced, and the channel was open for TRANSFER_COMPLETE at the last turn
   * or another loop's was on its way.
   */
  lemma ShownCompletedIff(w: World, rx: RxState, steps: seq<Step>, bytes: nat, more: seq<Step>)
    requires w.Valid() && FreshReceiver(w, rx) && Quiet(more)
    requires AboutToShow(w, Run(w, Initially(w, rx), steps).snd)
    ensures var s := Run(w, Initially(w, rx), steps);
            var shown := Next(w, s, Emit(bytes));
            var t := Run(w, shown, more);
            && shown.snd.transferState == TransferState.Completed
            && (Pipe(t) == [] ==> (GotEverything(w, t.rx) <==> Announced(s) == w.Ids() && (s.snd.open || Promised(s))))
  {
    var s := Run(w, Initially(w, rx), steps);
    Integrity.Reachable(w, rx, steps);
    Completion.Reachable(w, rx, steps);
    LastTurnPromises(w, s, bytes);
    AfterRun(w, Announced(s), s.snd.open || Promised(s), Next(w, s, Emit(bytes)), more);
    var t := Run(w, Next(w, s, Emit(bytes)), more);
    if Pipe(t) == [] { EmptyPipe(w, t); }
  }

  /** With the channel open it gets everything exactly if the loop lost no file. */
  lemma ShownCompletedOnOpenChannel(w: World, rx: RxState, steps: seq<Step>)
    requires w.Valid() && FreshReceiver(w, rx)
    requires var s := Run(w, Initially(w, rx), steps); AboutToShow(w, s.snd) && s.snd.open
    ensures var s := Run(w, Initially(w, rx), steps); Announced(s) == w.Ids() <==> s.lost == {}
  {
    var s := Run(w, Initially(w, rx), steps);
    Integrity.Reachable(w, rx, steps);
    Completion.Reachable(w, rx, steps);
    OpenAnnounced(w, s);
  }

  lemma OpenAnnounced(w: World, s: State)
    requires w.Valid() && Told(w, s) && LoopOk(w, s.snd.loop) && AboutToShow(w, s.snd) && s.snd.open
    ensures Announced(s) == w.Ids() <==> s.lost == {}
  {
    AllButLost(w, s);
    if j :| j in s.lost {
      assert w.files[j].id in Named(w, s.lost) && w.files[j].id in w.Ids();
    } else {
      assert Named(w, s.lost) == {};
    }
  }

  // ----- stuck for good -----

  /** The channel is closed and no loop will start again: nothing new can be announced. */
  ghost predicate Stuck(w: World, announced: set<string>, promised: bool, t: State)
    requires w.Valid()
  {
    && Integrity.Inv(w, t) && Told(w, t) && !t.snd.open && !CanReconnect(t)
    && Announced(t) <= announced && (Promised(t) ==> promised)
  }

  lemma PrefixPromises(t: State, t': State)
    requires t'.rx == t.rx && (Pipe(t') == Pipe(t) || Pipe(t') == t.inbox)
    ensures Announced(t') <= Announced(t) && (Promised(t') ==> Promised(t))
  {
    assert forall m :: m in t.inbox ==> m in Pipe(t);
    assert forall m :: m in Pipe(t') ==> m in Pipe(t);
  }

  lemma StuckStep(w: World, announced: set<string>, promised: bool, t: State, step: Step)
    requires w.Valid() && Stuck(w, announced, promised, t)
    ensures Stuck(w, announced, promised, Next(w, t, step))
  {
    var t' := Next(w, t, step);
    Integrity.NextKeepsInv(w, t, step);
    NextKeepsTold(w, t, step);
    NoReconnectStep(w, t, step);
    StaysClosed(w, t, step);
    if step.Handle? {
      if t.inbox != [] {
        HandleKeepsAnnounced(w, t, step.ok);
        HandleKeepsPromised(w, t, step.ok);
      }
    } else if step.Emit? {
      if Live(w, t.snd.loop) { EmitExtends(w, t, step.bytes); }
      PrefixPromises(t, t');
    } else {
      Integrity.OtherSteps(w, t, step);
      PrefixPromises(t, t');
    }
  }

  lemma StaysClosed(w: World, t: State, step: Step)
    requires w.Valid() && !t.snd.open && !CanReconnect(t)
    ensures !Next(w, t, step).snd.open
  {
    if Outer(step) {
      var e := OuterIs(w, t, step);
    }
  }

  lemma {:induction false} StuckRun(w: World, announced: set<string>, promised: bool, t: State, more: seq<Step>)
    requires w.Valid() && Stuck(w, announced, promised, t)
    ensures Stuck(w, announced, promised, Run(w, t, more))
  {
    if more != [] {
      StuckRun(w, announced, promised, t, more[..|more| - 1]);
      StuckStep(w, announced, promised, Run(w, t, more[..|more| - 1]), more[|more| - 1]);
    }
  }

  /**
   * On a closed channel with no reconnection left, the receiver never gets more than
   * was announced to it: what is missing then stays missing, whatever follows.
   */
  lemma MissingForGood(w: World, rx: RxState, steps: seq<Step>, more: seq<Step>)
    requires w.Valid() && FreshReceiver(w, rx)
    requires var s := Run(w, Initially(w, rx), steps);
             !s.snd.open && !CanReconnect(s) && !(Announced(s) == w.Ids() && Promised(s))
    ensures !GotEverything(w, Run(w, Run(w, Initially(w, rx), steps), more).rx)
  {
    var s := Run(w, Initially(w, rx), steps);
    Integrity.Reachable(w, rx, steps);
    Completion.Reachable(w, rx, steps);
    StuckRun(w, Announced(s), Promised(s), s, more);
    var t := Run(w, s, more);
    assert t.rx.completed <= Announced(t) <= Announced(s) <= w.Ids();
  }

  /**
   * The run: the channel dies unnoticed before the first chunk, the loop goes through
   * its files with every frame dropped.  The sender shows the transfer as completed,
   * ignores all losses from then on, and the receiver never gets a file.
   */
  lemma ShownCompletedWithoutAFile(w: World, rx: RxState) returns (steps: seq<Step>)
    requires w.Valid() && FreshReceiver(w, rx)
    ensures var t := Run(w, Initially(w, rx), [ChannelLost] + steps);
            && OnlySends(steps) && t.snd.transferState == TransferState.Completed
            && t.rx.completed == {} && forall more :: !GotEverything(w, Run(w, t, more).rx)
  {
    steps := ClosedLoopEnds(w, rx);
    var t := Run(w, Initially(w, rx), [ChannelLost] + steps);
    EmptyPipe(w, t);
    NobodyHome(w);
    forall more
      ensures !GotEverything(w, Run(w, t, more).rx)
    {
      MissingForGood(w, rx, [ChannelLost] + steps, more);
    }
  }

  lemma ClosedLoopEnds(w: World, rx: RxState) returns (steps: seq<Step>)
    requires w.Valid() && FreshReceiver(w, rx)
    ensures var t := Run(w, Initially(w, rx), [ChannelLost] + steps);
            && OnlySends(steps) && t.snd.transferState == TransferState.Completed
            && t.rx == rx && Pipe(t) == [] && !t.snd.open && !CanReconnect(t)
  {
    var s0 := Initially(w, rx);
    var s := Next(w, s0, ChannelLost);
    Integrity.Reachable(w, rx, []);
    NextKeepsSenderOk(w, s0, ChannelLost);
    steps := LoopEnds(w, s);
    RunOne(w, s0, ChannelLost);
    RunAppend(w, s0, [ChannelLost], steps);
    ClosedRun(w, s, steps);
  }

  lemma NobodyHome(w: World)
    requires w.Valid()
    ensures w.Ids() != {}
  {
    assert w.files[0].id in w.Ids();
  }

  /** A loop that runs on while the channel is closed leaves all but the sender as it is. */
  lemma {:induction false} ClosedRun(w: World, s: State, steps: seq<Step>)
    requires w.Valid() && OnlySends(steps) && !s.snd.open
    ensures var t := Run(w, s, steps);
            && !t.snd.open && t.rx == s.rx && t.wire == s.wire && t.inbox == s.inbox && t.control == s.control
            && t.snd.scheduled == s.snd.scheduled && t.snd.reconnecting == s.snd.reconnecting && t.snd.cancelled == s.snd.cancelled
  {
    if steps != [] {
      var init, step := steps[..|steps| - 1], steps[|steps| - 1];
      assert step in steps && forall x :: x in init ==> x in steps;
      ClosedRun(w, s, init);
      ClosedTurn(w, Run(w, s, init), step);
    }
  }

  lemma ClosedTurn(w: World, s: State, step: Step)
    requires w.Valid() && !s.snd.open && (step.Emit? || (step.Flow? && step.e.Drain?))
    ensures var t := Next(w, s, step);
            && !t.snd.open && t.rx == s.rx && t.wire == s.wire && t.inbox == s.inbox && t.control == s.control
            && t.snd.scheduled == s.snd.scheduled && t.snd.reconnecting == s.snd.reconnecting && t.snd.cancelled == s.snd.cancelled
  {}
}
