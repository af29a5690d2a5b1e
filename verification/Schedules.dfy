/**
 * Undisturbed continuations of a transfer: what the sender's loop sends until its
 * end, and that everything in flight is handled after it.
 */
module Schedules {
  import opened Wire
  import opened ReceiverState
  import opened Transfer
  import Pump

  lemma {:induction false} RunAppend(w: World, s: State, a: seq<Step>, b: seq<Step>)
    requires w.Valid()
    ensures Run(w, s, a + b) == Run(w, Run(w, s, a), b)
  {
    if b == [] {
      assert a + b == a;
    } else {
      assert (a + b)[..|a + b| - 1] == a + b[..|b| - 1];
      RunAppend(w, s, a, b[..|b| - 1]);
    }
  }

  /** Handling frames in order with every platform call fulfilled. */
  ghost function HandleAll(env: Env, rx: RxState, msgs: seq<FileMsg>): RxState
    decreases |msgs|
  {
    if msgs == [] then rx else HandleAll(env, OnMessage(env, rx, msgs[0], true), msgs[1..])
  }

  lemma {:induction false} HandleAllAppend(env: Env, rx: RxState, a: seq<FileMsg>, b: seq<FileMsg>)
    ensures HandleAll(env, rx, a + b) == HandleAll(env, HandleAll(env, rx, a), b)
    decreases |a|
  {
    if a == [] {
      assert a + b == b;
    } else {
      assert (a + b)[0] == a[0] && (a + b)[1..] == a[1..] + b;
      HandleAllAppend(env, OnMessage(env, rx, a[0], true), a[1..], b);
    }
  }

  lemma RunOne(w: World, s: State, step: Step)
    requires w.Valid()
    ensures Run(w, s, [step]) == Next(w, s, step)
  {
    assert [step][..0] == [];
  }

  lemma RunTwo(w: World, s: State, a: Step, b: Step)
    requires w.Valid()
    ensures Run(w, s, [a, b]) == Next(w, Next(w, s, a), b)
  {
    RunOne(w, s, a);
    assert [a, b][..1] == [a];
  }

  lemma RunThree(w: World, s: State, a: Step, b: Step, c: Step)
    requires w.Valid()
    ensures Run(w, s, [a, b, c]) == Next(w, Next(w, Next(w, s, a), b), c)
  {
    RunTwo(w, s, a, b);
    assert [a, b, c][..2] == [a, b];
  }

  // ----- what the loop sends -----

  lemma Regroup<T>(a: seq<T>, b: seq<T>, c: seq<T>)
    ensures a + (b + c) == a + b + c
  {}

  /** File i from a chunk on, then FILE_COMPLETE. */
  function FileFrames(w: World, i: nat, from: nat): seq<FileMsg>
    requires w.Valid() && i < |w.files|
  {
    Pump.Frames(w.Job(i), from, w.files[i].Total()) + [FileComplete(w.files[i].id, Pump.WholeChecksum(w.Job(i)))]
  }

  /** The files from i on, each from its resume point, then TRANSFER_COMPLETE. */
  function Rest(w: World, i: nat, resume: map<string, nat>, lost: set<nat>): seq<FileMsg>
    requires w.Valid()
    decreases |w.files| - i
  {
    if i >= |w.files| then [TransferComplete(lost)]
    else FileFrames(w, i, StartOf(w, i, resume)) + Rest(w, i + 1, resume, lost)
  }

  /** All that a loop sends that nobody cancels. */
  function Remaining(w: World, loop: Loop, lost: set<nat>): seq<FileMsg>
    requires w.Valid() && LoopOk(w, loop)
  {
    match loop
    case Between(i, resume) => Rest(w, i, resume, lost)
    case Pumping(i, resume, pump) => FileFrames(w, i, pump.i) + Rest(w, i + 1, resume, lost)
    case _ => []
  }

  predicate Uncancelled(s: Sender) {
    !s.cancelled && (s.loop.Pumping? ==> !s.loop.pump.cancelled)
  }

  /** A pump's turn sends the head of the file's remaining frames; its last turn sends them all. */
  lemma PumpTurn(w: World, s: Sender, lost: set<nat>, bytes: nat)
    requires w.Valid() && LoopOk(w, s.loop) && s.loop.Pumping? && Uncancelled(s)
    ensures var pump := PumpAfter(w, s.loop, bytes);
            var file, msgs := FileFrames(w, s.loop.i, s.loop.pump.i), NextFrames(w, s, lost, bytes);
            !pump.cancelled && file == if pump.point.Done? then msgs else msgs + FileFrames(w, s.loop.i, pump.i)
  {
    var job, p, pump := w.Job(s.loop.i), s.loop.pump, PumpAfter(w, s.loop, bytes);
    var last := [FileComplete(job.file.id, Pump.WholeChecksum(job))];
    Pump.TurnSendsHead(job, StartOf(w, s.loop.i, s.loop.resume), p, bytes);
    if pump.point.Done? {
      assert Announcement(w, s.loop.i, pump) == last;
    } else {
      NoAnnouncement(w, s, lost, bytes);
      Regroup(Pump.Sends(job, p), Pump.Frames(job, pump.i, job.file.Total()), last);
    }
  }

  lemma NoAnnouncement(w: World, s: Sender, lost: set<nat>, bytes: nat)
    requires w.Valid() && Live(w, s.loop) && s.loop.Pumping? && !PumpAfter(w, s.loop, bytes).point.Done?
    ensures NextFrames(w, s, lost, bytes) == Pump.Sends(w.Job(s.loop.i), s.loop.pump)
  {}

  lemma TurnKeepsGoing(w: World, s: Sender, bytes: nat)
    requires w.Valid() && LoopOk(w, s.loop) && Live(w, s.loop) && Uncancelled(s)
    ensures LoopOk(w, AfterEmit(w, s, bytes).loop) && Uncancelled(AfterEmit(w, s, bytes))
  {
    if s.loop.Pumping? {
      PumpAfterIsOk(w, s.loop, bytes);
      PumpTurn(w, s, {}, bytes);
    } else if s.loop.i < |w.files| {
      StartIsOk(w, s.loop.i, s.loop.resume, bytes);
    }
  }

  lemma TurnSends(w: World, s: Sender, lost: set<nat>, bytes: nat)
    requires w.Valid() && LoopOk(w, s.loop) && Live(w, s.loop) && Uncancelled(s)
    ensures LoopOk(w, AfterEmit(w, s, bytes).loop) && Uncancelled(AfterEmit(w, s, bytes))
    ensures Remaining(w, s.loop, lost) == NextFrames(w, s, lost, bytes) + Remaining(w, AfterEmit(w, s, bytes).loop, lost)
  {
    TurnKeepsGoing(w, s, bytes);
    if s.loop.Pumping? {
      PumpTurnSends(w, s, lost, bytes);
    }
  }

  lemma PumpTurnSends(w: World, s: Sender, lost: set<nat>, bytes: nat)
    requires w.Valid() && LoopOk(w, s.loop) && s.loop.Pumping? && Uncancelled(s) && LoopOk(w, AfterEmit(w, s, bytes).loop)
    ensures Remaining(w, s.loop, lost) == NextFrames(w, s, lost, bytes) + Remaining(w, AfterEmit(w, s, bytes).loop, lost)
  {
    PumpTurn(w, s, lost, bytes);
    if PumpAfter(w, s.loop, bytes).point.Done? {
      LastPart(w, s.loop, AfterEmit(w, s, bytes).loop, NextFrames(w, s, lost, bytes), lost);
    } else {
      FirstPart(w, s.loop, AfterEmit(w, s, bytes).loop, NextFrames(w, s, lost, bytes), lost);
    }
  }

  /** msgs are all that is left of the loop's file. */
  lemma LastPart(w: World, loop: Loop, loop': Loop, msgs: seq<FileMsg>, lost: set<nat>)
    requires w.Valid() && LoopOk(w, loop) && loop.Pumping? && loop' == Between(loop.i + 1, loop.resume)
    requires FileFrames(w, loop.i, loop.pump.i) == msgs
    ensures Remaining(w, loop, lost) == msgs + Remaining(w, loop', lost)
  {
    RemainingOf(w, loop, lost);
    RemainingOf(w, loop', lost);
  }

  /** msgs are the head of what is left of the loop's file. */
  lemma FirstPart(w: World, loop: Loop, loop': Loop, msgs: seq<FileMsg>, lost: set<nat>)
    requires w.Valid() && LoopOk(w, loop) && loop.Pumping? && LoopOk(w, loop') && loop'.Pumping?
    requires loop'.i == loop.i && loop'.resume == loop.resume
    requires FileFrames(w, loop.i, loop.pump.i) == msgs + FileFrames(w, loop.i, loop'.pump.i)
    ensures Remaining(w, loop, lost) == msgs + Remaining(w, loop', lost)
  {
    RemainingOf(w, loop, lost);
    RemainingOf(w, loop', lost);
    Regrouped(Remaining(w, loop, lost), msgs, Remaining(w, loop', lost), FileFrames(w, loop.i, loop.pump.i),
              FileFrames(w, loop.i, loop'.pump.i), Rest(w, loop.i + 1, loop.resume, lost));
  }

  lemma Regrouped<T>(whole: seq<T>, msgs: seq<T>, after: seq<T>, file: seq<T>, file': seq<T>, rest: seq<T>)
    requires whole == file + rest && file == msgs + file' && after == file' + rest
    ensures whole == msgs + after
  {}

  lemma RemainingOf(w: World, loop: Loop, lost: set<nat>)
    requires w.Valid() && LoopOk(w, loop)
    ensures loop.Pumping? ==> Remaining(w, loop, lost) == FileFrames(w, loop.i, loop.pump.i) + Rest(w, loop.i + 1, loop.resume, lost)
    ensures loop.Between? ==> Remaining(w, loop, lost) == Rest(w, loop.i, loop.resume, lost)
  {}

  /** Only the loop's turns and the draining of the channel. */
  ghost predicate OnlySends(steps: seq<Step>) {
    forall x :: x in steps ==> x.Emit? || (x.Flow? && x.e.Drain?)
  }

  /**
   * However the channel drains, an open channel gets exactly the files from the
   * loop's place on, in order, each from its resume point to its FILE_COMPLETE, and
   * one TRANSFER_COMPLETE at the end.
   */
  lemma {:induction false} LoopSendsTheRest(w: World, s: State, steps: seq<Step>)
    requires w.Valid() && SenderOk(w, s.snd) && Uncancelled(s.snd) && s.snd.open && OnlySends(steps)
    ensures var t := Run(w, s, steps);
            && SenderOk(w, t.snd) && Uncancelled(t.snd) && t.snd.open
            && t.lost == s.lost && t.gaveUp == s.gaveUp
            && t.wire + Remaining(w, t.snd.loop, s.lost) == s.wire + Remaining(w, s.snd.loop, s.lost)
  {
    if steps != [] {
      var init, step := steps[..|steps| - 1], steps[|steps| - 1];
      assert step in steps && forall x :: x in init ==> x in steps;
      LoopSendsTheRest(w, s, init);
      SendingTurn(w, Run(w, s, init), step);
    }
  }

  lemma SendingTurn(w: World, s: State, step: Step)
    requires w.Valid() && SenderOk(w, s.snd) && Uncancelled(s.snd) && s.snd.open
    requires step.Emit? || (step.Flow? && step.e.Drain?)
    ensures var t := Next(w, s, step);
            && SenderOk(w, t.snd) && Uncancelled(t.snd) && t.snd.open
            && t.lost == s.lost && t.gaveUp == s.gaveUp
            && t.wire + Remaining(w, t.snd.loop, s.lost) == s.wire + Remaining(w, s.snd.loop, s.lost)
  {
    NextKeepsSenderOk(w, s, step);
    if step.Flow? {
      DrainSendsNothing(w, s.snd.loop, step.e, s.lost);
    } else if Live(w, s.snd.loop) {
      EmittingTurn(w, s, step.bytes);
    }
  }

  lemma DrainSendsNothing(w: World, loop: Loop, e: Pump.Event, lost: set<nat>)
    requires w.Valid() && LoopOk(w, loop) && e.Drain?
    ensures LoopOk(w, SignalPump(loop, e)) && Remaining(w, SignalPump(loop, e), lost) == Remaining(w, loop, lost)
  {
    SignalKeepsLoopOk(w, loop, e);
  }

  lemma EmittingTurn(w: World, s: State, bytes: nat)
    requires w.Valid() && LoopOk(w, s.snd.loop) && Live(w, s.snd.loop) && Uncancelled(s.snd) && s.snd.open
    ensures var t := DoEmit(w, s, bytes);
            && LoopOk(w, t.snd.loop) && Uncancelled(t.snd) && t.snd.open && t.lost == s.lost && t.gaveUp == s.gaveUp
            && t.wire + Remaining(w, t.snd.loop, s.lost) == s.wire + Remaining(w, s.snd.loop, s.lost)
  {
    TurnSends(w, s.snd, s.lost, bytes);
    NotAbandoned(w, s.snd, bytes);
    Regroup(s.wire, NextFrames(w, s.snd, s.lost, bytes), Remaining(w, AfterEmit(w, s.snd, bytes).loop, s.lost));
  }

  lemma NotAbandoned(w: World, s: Sender, bytes: nat)
    requires w.Valid() && LoopOk(w, s.loop) && Live(w, s.loop) && Uncancelled(s)
    ensures !Abandons(w, s.loop, bytes)
  {}

  // ----- the loop comes to its end -----

  /** Only what the two ends do when nothing disturbs them; handlers may be rejected. */
  ghost predicate Quiet(steps: seq<Step>) {
    forall x :: x in steps ==> QuietStep(x)
  }

  predicate QuietStep(x: Step) {
    x.Emit? || (x.Flow? && x.e.Drain?) || x.Deliver? || x.Handle?
  }

  /** No handler is rejected. */
  ghost predicate Fulfilled(steps: seq<Step>) {
    forall x :: x in steps && x.Handle? ==> x.ok
  }

  predicate Unpaused(loop: Loop) {
    loop.Pumping? ==> !loop.pump.paused
  }

  function ChunksLeft(w: World, loop: Loop): nat
    requires w.Valid()
  {
    if loop.Pumping? && loop.i < |w.files| && loop.pump.i < w.files[loop.i].Total()
    then w.files[loop.i].Total() - loop.pump.i else 0
  }

  function PlaceRank(loop: Loop): nat {
    match loop
    case Pumping(_, _, pump) => Pump.Rank(pump.point)
    case _ => 6
  }

  /** The turn that gets the loop on: a pump that waits for space needs the channel to drain. */
  function TurnOn(loop: Loop): Step {
    if loop.Pumping? && loop.pump.point.WaitBuffer? then Flow(Pump.TurnOn(loop.pump)) else Emit(0)
  }

  function FilesLeft(w: World, loop: Loop): int {
    match loop
    case Between(i, _) => 2 * (|w.files| - i) + 2
    case Pumping(i, _, _) => 2 * (|w.files| - i) + 1
    case _ => 0
  }

  /** The loop is nearer to its end. */
  ghost predicate GotOn(w: World, loop: Loop, loop': Loop)
    requires w.Valid()
  {
    && 0 <= FilesLeft(w, loop') <= FilesLeft(w, loop)
    && (FilesLeft(w, loop') == FilesLeft(w, loop) ==>
          && ChunksLeft(w, loop') <= ChunksLeft(w, loop)
          && (ChunksLeft(w, loop') == ChunksLeft(w, loop) ==> PlaceRank(loop') < PlaceRank(loop)))
  }

  lemma PumpGetsOn(w: World, i: nat, resume: map<string, nat>, pump: Pump.State, pump': Pump.State)
    requires w.Valid() && i < |w.files| && PumpOk(w, i, resume, pump) && !pump.point.Done?
    requires pump' == Pump.Step(w.Job(i), pump, Pump.TurnOn(pump)) && !pump.paused
    ensures !pump'.paused
    ensures !pump'.point.Done? ==> GotOn(w, Pumping(i, resume, pump), Pumping(i, resume, pump'))
  {
    Pump.TurnGetsOn(w.Job(i), StartOf(w, i, resume), pump);
  }

  function SenderTurn(w: World, s: Sender): Sender
    requires w.Valid() && Live(w, s.loop)
  {
    if TurnOn(s.loop).Flow? then s.(loop := SignalPump(s.loop, TurnOn(s.loop).e)) else AfterEmit(w, s, 0)
  }

  lemma TurnIs(w: World, s: State)
    requires w.Valid() && Live(w, s.snd.loop)
    ensures Next(w, s, TurnOn(s.snd.loop)).snd == SenderTurn(w, s.snd)
  {}

  lemma SenderGetsOn(w: World, s: Sender)
    requires w.Valid() && LoopOk(w, s.loop) && s.loop.Running() && Unpaused(s.loop)
    ensures var t := SenderTurn(w, s);
            && Unpaused(t.loop) && !t.loop.Waiting? && GotOn(w, s.loop, t.loop)
            && t.cancelled == s.cancelled && (t.loop.Stopped? && !s.cancelled ==> t.transferState == TransferState.Completed)
  {
    if s.loop.Pumping? {
      PumpGetsOn(w, s.loop.i, s.loop.resume, s.loop.pump, Pump.Step(w.Job(s.loop.i), s.loop.pump, Pump.TurnOn(s.loop.pump)));
    }
  }

  lemma TurnGetsOn(w: World, s: State)
    requires w.Valid() && SenderOk(w, s.snd) && s.snd.loop.Running() && Unpaused(s.snd.loop)
    ensures var t := Next(w, s, TurnOn(s.snd.loop)).snd;
            && SenderOk(w, t) && Unpaused(t.loop) && !t.loop.Waiting? && GotOn(w, s.snd.loop, t.loop)
            && t.cancelled == s.snd.cancelled && (t.loop.Stopped? && !s.snd.cancelled ==> t.transferState == TransferState.Completed)
  {
    NextKeepsSenderOk(w, s, TurnOn(s.snd.loop));
    TurnIs(w, s);
    SenderGetsOn(w, s.snd);
  }

  lemma {:induction false} LoopEnds(w: World, s: State) returns (steps: seq<Step>)
    requires w.Valid() && SenderOk(w, s.snd) && s.snd.loop.Running() && Unpaused(s.snd.loop)
    ensures OnlySends(steps) && Run(w, s, steps).snd.loop.Stopped?
    ensures !s.snd.cancelled ==> Run(w, s, steps).snd.transferState == TransferState.Completed
    decreases FilesLeft(w, s.snd.loop), ChunksLeft(w, s.snd.loop), PlaceRank(s.snd.loop)
  {
    var turn := TurnOn(s.snd.loop);
    var s' := Next(w, s, turn);
    TurnGetsOn(w, s);
    RunOne(w, s, turn);
    steps := [turn];
    if s'.snd.loop.Running() {
      var rest := LoopEnds(w, s');
      steps := [turn] + rest;
      RunAppend(w, s, [turn], rest);
    }
  }

  // ----- everything in flight is handled -----

  lemma {:induction false} DeliverAll(w: World, s: State) returns (steps: seq<Step>)
    requires w.Valid()
    ensures Run(w, s, steps) == s.(inbox := Pipe(s), wire := []) && Quiet(steps) && Fulfilled(steps)
    decreases |s.wire|
  {
    if s.wire == [] {
      steps := [];
      assert Pipe(s) == s.inbox;
    } else {
      var s' := Next(w, s, Deliver);
      DeliverKeepsPipe(w, s);
      RunOne(w, s, Deliver);
      var rest := DeliverAll(w, s');
      steps := [Deliver] + rest;
      RunAppend(w, s, [Deliver], rest);
    }
  }

  lemma {:induction false} HandleInbox(w: World, s: State) returns (steps: seq<Step>)
    requires w.Valid()
    ensures Run(w, s, steps) == s.(rx := HandleAll(w.env, s.rx, s.inbox), inbox := []) && Quiet(steps) && Fulfilled(steps)
    decreases |s.inbox|
  {
    if s.inbox == [] {
      steps := [];
    } else {
      var s' := Next(w, s, Handle(true));
      RunOne(w, s, Handle(true));
      var rest := HandleInbox(w, s');
      steps := [Handle(true)] + rest;
      RunAppend(w, s, [Handle(true)], rest);
    }
  }

  /** Every running, unpaused loop has an undisturbed continuation: all sent, delivered and handled. */
  lemma Undisturbed(w: World, s: State) returns (steps: seq<Step>)
    requires w.Valid() && SenderOk(w, s.snd) && s.snd.loop.Running() && Unpaused(s.snd.loop)
    ensures Quiet(steps) && Fulfilled(steps) && Run(w, s, steps).snd.loop.Stopped? && Pipe(Run(w, s, steps)) == []
  {
    var sends := LoopEnds(w, s);
    var s1 := Run(w, s, sends);
    var delivers := DeliverAll(w, s1);
    var s2 := Run(w, s1, delivers);
    var handles := HandleInbox(w, s2);
    RunAppend(w, s, sends, delivers);
    RunAppend(w, s, sends + delivers, handles);
    steps := sends + delivers + handles;
  }
}
