/**
 * What TRANSFER_COMPLETE means, in every run of Transfer: exactly when the sender
 * gave up on no file, every file has been finalized before it is handled.
 */
module Completion {
  import opened Wire
  import opened ReceiverState
  import opened Transfer
  import opened Schedules
  import Integrity
  import Pump

  /** The ids of the files with the given indices. */
  ghost function Named(w: World, indices: set<nat>): set<string> {
    set j | j in indices && j < |w.files| :: w.files[j].id
  }

  /** Handling msgs with `completed` finalized: at each TRANSFER_COMPLETE exactly the lost files are missing. */
  ghost predicate Truthful(w: World, completed: set<string>, msgs: seq<FileMsg>)
    decreases |msgs|
  {
    msgs == [] ||
    match msgs[0]
    case FileComplete(id, _) => Truthful(w, completed + {id}, msgs[1..])
    case TransferComplete(lost) => completed == w.Ids() - Named(w, lost) && Truthful(w, completed, msgs[1..])
    case _ => Truthful(w, completed, msgs[1..])
  }

  ghost function Finalized(m: FileMsg, completed: set<string>): set<string> {
    if m.FileComplete? then completed + {m.fileId} else completed
  }

  lemma {:induction false} TruthfulPrefix(w: World, completed: set<string>, a: seq<FileMsg>, b: seq<FileMsg>)
    requires Truthful(w, completed, a + b)
    ensures Truthful(w, completed, a)
    decreases |a|
  {
    if a != [] {
      assert (a + b)[0] == a[0] && (a + b)[1..] == a[1..] + b;
      TruthfulPrefix(w, Finalized(a[0], completed), a[1..], b);
    }
  }

  lemma {:induction false} TruthfulAppend(w: World, completed: set<string>, a: seq<FileMsg>, b: seq<FileMsg>)
    requires Truthful(w, completed, a) && Truthful(w, completed + Completions(a), b)
    ensures Truthful(w, completed, a + b)
    decreases |a|
  {
    if a == [] {
      assert a + b == b && completed + Completions(a) == completed;
    } else {
      assert (a + b)[0] == a[0] && (a + b)[1..] == a[1..] + b;
      CompletionsHead(a);
      assert completed + Completions(a) == Finalized(a[0], completed) + Completions(a[1..]);
      TruthfulAppend(w, Finalized(a[0], completed), a[1..], b);
    }
  }

  lemma CompletionsHead(msgs: seq<FileMsg>)
    requires msgs != []
    ensures Completions(msgs) == Finalized(msgs[0], {}) + Completions(msgs[1..])
  {
    assert msgs == [msgs[0]] + msgs[1..];
  }

  lemma CompletionsAppend(a: seq<FileMsg>, b: seq<FileMsg>)
    ensures Completions(a + b) == Completions(a) + Completions(b)
  {}

  // ----- the invariant -----

  /** While the channel is open, the files behind the loop are announced, but for the lost ones. */
  ghost predicate LoopTruthful(w: World, s: State)
    requires w.Valid()
  {
    s.snd.open && s.snd.loop.Running() ==>
      && s.snd.loop.i <= |w.files|
      && (forall j :: j in s.lost ==> j < s.snd.loop.i)
      && (forall j :: 0 <= j < s.snd.loop.i ==> (w.files[j].id in Announced(s) <==> j !in s.lost))
  }

  ghost predicate NothingLost(s: State) {
    && s.lost == {}
    && forall m :: m in Pipe(s) && m.TransferComplete? ==> m.lost == {}
  }

  ghost predicate PipeTruthful(w: World, completed: set<string>, msgs: seq<FileMsg>) {
    Truthful(w, completed, msgs) && completed + Completions(msgs) <= w.Ids()
  }

  /** As long as no file was given up on, nothing is lost, and done means done. */
  ghost predicate Faithful(w: World, s: State) {
    !s.gaveUp ==> NothingLost(s) && (s.rx.transferDone ==> s.rx.completed == w.Ids())
  }

  ghost predicate Told(w: World, s: State)
    requires w.Valid()
  {
    PipeTruthful(w, s.rx.completed, Pipe(s)) && LoopTruthful(w, s) && Faithful(w, s)
  }

  // ----- the loop sends -----

  /** The loop's next turn announces the file whose pump it ends. */
  predicate Announces(w: World, loop: Loop, bytes: nat)
    requires w.Valid() && Live(w, loop)
  {
    loop.Pumping? && PumpAfter(w, loop, bytes).point.Done? && PumpAfter(w, loop, bytes).point.outcome.Completed?
  }

  lemma ChunksAnnounceNothing(w: World, job: Pump.Job, pump: Pump.State, completed: set<string>)
    requires w.Valid() && job.Valid()
    ensures Completions(Pump.Sends(job, pump)) == {} && Truthful(w, completed, Pump.Sends(job, pump))
    ensures forall m :: m in Pump.Sends(job, pump) ==> !m.TransferComplete?
  {
    var msgs := Pump.Sends(job, pump);
    if msgs != [] { assert msgs[1..] == [Binary(Pump.Payload(job, pump.i))] && msgs[1..][1..] == []; }
  }

  /** What the next frames announce: at most the file the loop is leaving. */
  lemma EmittedCompletions(w: World, s: Sender, lost: set<nat>, bytes: nat)
    requires w.Valid() && Live(w, s.loop)
    ensures Completions(NextFrames(w, s, lost, bytes)) == (if Announces(w, s.loop, bytes) then {w.files[s.loop.i].id} else {})
    ensures forall m :: m in NextFrames(w, s, lost, bytes) && m.TransferComplete? ==> m.lost == lost
  {
    if s.loop.Pumping? {
      var msgs := Announcement(w, s.loop.i, PumpAfter(w, s.loop, bytes));
      ChunksAnnounceNothing(w, w.Job(s.loop.i), s.loop.pump, {});
      CompletionsAppend(Pump.Sends(w.Job(s.loop.i), s.loop.pump), msgs);
      if msgs != [] { assert msgs[0] in msgs; }
    }
  }

  /** At the end of the loop exactly the lost files are not announced. */
  lemma AllButLost(w: World, s: State)
    requires w.Valid() && s.snd.open && s.snd.loop.Running() && s.snd.loop.i == |w.files| && LoopTruthful(w, s)
    requires Announced(s) <= w.Ids()
    ensures Announced(s) == w.Ids() - Named(w, s.lost)
  {
    forall id | id in w.Ids()
      ensures id in Announced(s) <==> id !in Named(w, s.lost)
    {
      var j :| 0 <= j < |w.files| && w.files[j].id == id;
      if id in Named(w, s.lost) {
        var j' :| j' in s.lost && j' < |w.files| && w.files[j'].id == id;
      }
    }
  }

  lemma EmittedIsTruthful(w: World, s: State, bytes: nat)
    requires w.Valid() && s.snd.open && Live(w, s.snd.loop) && LoopTruthful(w, s) && Announced(s) <= w.Ids()
    ensures Truthful(w, Announced(s), NextFrames(w, s.snd, s.lost, bytes))
  {
    var loop := s.snd.loop;
    if loop.Pumping? {
      var chunk, last := Pump.Sends(w.Job(loop.i), loop.pump), Announcement(w, loop.i, PumpAfter(w, loop, bytes));
      ChunksAnnounceNothing(w, w.Job(loop.i), loop.pump, Announced(s));
      if last != [] { assert last[1..] == []; }
      TruthfulAppend(w, Announced(s), chunk, last);
    } else {
      assert [TransferComplete(s.lost)][1..] == [];
      if loop.i >= |w.files| { AllButLost(w, s); }
    }
  }

  lemma EmitKeepsPipe(w: World, s: State, bytes: nat)
    requires w.Valid() && s.snd.open && Live(w, s.snd.loop) && LoopTruthful(w, s) && PipeTruthful(w, s.rx.completed, Pipe(s))
    ensures PipeTruthful(w, s.rx.completed, Pipe(DoEmit(w, s, bytes)))
    ensures Announced(DoEmit(w, s, bytes)) == Announced(s) + Completions(NextFrames(w, s.snd, s.lost, bytes))
  {
    var msgs := NextFrames(w, s.snd, s.lost, bytes);
    EmitExtends(w, s, bytes);
    CompletionsAppend(Pipe(s), msgs);
    EmittedIsTruthful(w, s, bytes);
    EmittedCompletions(w, s.snd, s.lost, bytes);
    TruthfulAppend(w, s.rx.completed, Pipe(s), msgs);
  }

  lemma EmitAnnounces(w: World, s: State, bytes: nat)
    requires w.Valid() && Told(w, s) && s.snd.open && Live(w, s.snd.loop)
    ensures Announced(DoEmit(w, s, bytes)) == Announced(s) + (if Announces(w, s.snd.loop, bytes) then {w.files[s.snd.loop.i].id} else {})
  {
    EmitKeepsPipe(w, s, bytes);
    EmittedCompletions(w, s.snd, s.lost, bytes);
  }

  lemma EmitKeepsLoop(w: World, s: State, bytes: nat)
    requires w.Valid() && Live(w, s.snd.loop) && LoopTruthful(w, s)
    requires s.snd.open ==> Announced(DoEmit(w, s, bytes)) == Announced(s) + Completions(NextFrames(w, s.snd, s.lost, bytes))
    ensures LoopTruthful(w, DoEmit(w, s, bytes))
  {
    if s.snd.open {
      EmittedCompletions(w, s.snd, s.lost, bytes);
    }
  }

  lemma EmitKeepsFaithful(w: World, s: State, bytes: nat)
    requires w.Valid() && Live(w, s.snd.loop) && Faithful(w, s)
    ensures Faithful(w, DoEmit(w, s, bytes))
  {
    EmittedCompletions(w, s.snd, s.lost, bytes);
    EmitExtends(w, s, bytes);
  }

  lemma EmitExtends(w: World, s: State, bytes: nat)
    requires w.Valid() && Live(w, s.snd.loop)
    ensures var s' := DoEmit(w, s, bytes);
            && s'.rx == s.rx && s'.inbox == s.inbox && s'.control == s.control
            && Pipe(s') == (if s.snd.open then Pipe(s) + NextFrames(w, s.snd, s.lost, bytes) else Pipe(s))
            && (!s'.gaveUp ==> !s.gaveUp && s'.lost == s.lost)
  {
    if s.snd.open {
      assert s.inbox + (s.wire + NextFrames(w, s.snd, s.lost, bytes)) == s.inbox + s.wire + NextFrames(w, s.snd, s.lost, bytes);
    }
  }

  lemma EmitKeepsTold(w: World, s: State, bytes: nat)
    requires w.Valid() && Told(w, s) && Live(w, s.snd.loop)
    ensures Told(w, DoEmit(w, s, bytes))
  {
    if s.snd.open {
      EmitKeepsPipe(w, s, bytes);
    } else {
      assert Pipe(DoEmit(w, s, bytes)) == Pipe(s) && DoEmit(w, s, bytes).rx == s.rx;
    }
    EmitKeepsLoop(w, s, bytes);
    EmitKeepsFaithful(w, s, bytes);
  }

  // ----- the receiver handles -----

  /** Handling FILE_COMPLETE finalizes the file, whatever the platform does; nothing else does. */
  lemma HandledCompletes(w: World, rx: RxState, m: FileMsg, ok: bool)
    requires w.Valid() && rx.receivers.Keys == w.Ids() && (m.FileComplete? ==> m.fileId in w.Ids())
    ensures OnMessage(w.env, rx, m, ok).completed == Finalized(m, rx.completed)
    ensures OnMessage(w.env, rx, m, ok).transferDone == (rx.transferDone || m.TransferComplete?)
  {
    match m {
      case ChunkMeta(_) =>
      case Binary(data) => BinaryEffect(w.env, rx, data, ok);
      case FileComplete(id, checksum) => CompleteEffect(w.env, rx, id, checksum, ok);
      case TransferComplete(_) =>
    }
  }

  lemma HeadTruthful(w: World, completed: set<string>, m: FileMsg, tail: seq<FileMsg>)
    requires PipeTruthful(w, completed, [m] + tail)
    ensures PipeTruthful(w, Finalized(m, completed), tail)
    ensures Finalized(m, completed) + Completions(tail) == completed + Completions([m] + tail)
    ensures m.FileComplete? ==> m.fileId in w.Ids()
    ensures m.TransferComplete? ==> completed == w.Ids() - Named(w, m.lost)
  {
    assert ([m] + tail)[0] == m && ([m] + tail)[1..] == tail;
    CompletionsHead([m] + tail);
  }

  lemma HandledTells(w: World, s: State, s': State, m: FileMsg, tail: seq<FileMsg>)
    requires w.Valid() && Told(w, s) && Pipe(s) == [m] + tail && Pipe(s') == tail
    requires s'.snd == s.snd && s'.lost == s.lost && s'.gaveUp == s.gaveUp
    requires s'.rx.completed == Finalized(m, s.rx.completed)
    requires s'.rx.transferDone == (s.rx.transferDone || m.TransferComplete?)
    ensures Told(w, s')
  {
    HeadTruthful(w, s.rx.completed, m, tail);
    assert m in Pipe(s) && forall x :: x in tail ==> x in Pipe(s);
    assert Named(w, {}) == {};
  }

  lemma HandleKeepsTold(w: World, s: State, ok: bool)
    requires w.Valid() && Told(w, s) && s.inbox != [] && s.rx.receivers.Keys == w.Ids()
    ensures Told(w, DoHandle(w, s, ok))
  {
    var m, tail := s.inbox[0], s.inbox[1..] + s.wire;
    assert Pipe(s) == [m] + tail;
    HeadTruthful(w, s.rx.completed, m, tail);
    HandledCompletes(w, s.rx, m, ok);
    HandledTells(w, s, DoHandle(w, s, ok), m, tail);
  }

  // ----- the other steps -----

  lemma OtherKeepsTold(w: World, s: State, step: Step)
    requires w.Valid() && Told(w, s) && !step.Emit? && !step.Handle?
    ensures Told(w, Next(w, s, step))
  {
    Integrity.OtherSteps(w, s, step);
    OtherKeepsLoop(w, s, step);
    PipePrefix(w, s.rx.completed, s.inbox, s.wire);
    assert forall m :: m in s.inbox ==> m in Pipe(s);
  }

  lemma PipePrefix(w: World, completed: set<string>, a: seq<FileMsg>, b: seq<FileMsg>)
    requires PipeTruthful(w, completed, a + b)
    ensures PipeTruthful(w, completed, a)
  {
    TruthfulPrefix(w, completed, a, b);
    CompletionsAppend(a, b);
  }

  lemma SameAnnounced(s: State, s': State)
    requires s'.rx == s.rx && Pipe(s') == Pipe(s)
    ensures Announced(s') == Announced(s)
  {}

  lemma CutKeepsLoop(w: World, s: State, s': State)
    requires w.Valid() && LoopTruthful(w, s) && CutTo(w, s, s')
    ensures LoopTruthful(w, s') && s'.lost == s.lost && s'.gaveUp == s.gaveUp
  {
    if s'.wire == s.wire { SameAnnounced(s, s'); }
  }

  lemma OuterKeepsLoop(w: World, s: State, step: Step)
    requires w.Valid() && LoopTruthful(w, s) && Outer(step)
    ensures LoopTruthful(w, Next(w, s, step)) && Next(w, s, step).lost == s.lost && Next(w, s, step).gaveUp == s.gaveUp
  {
    var e := OuterIs(w, s, step);
    SameAnnounced(s, Next(w, s, step));
  }

  lemma OtherKeepsLoop(w: World, s: State, step: Step)
    requires w.Valid() && LoopTruthful(w, s) && !step.Emit? && !step.Handle?
    ensures LoopTruthful(w, Next(w, s, step))
    ensures Next(w, s, step).lost == s.lost || Next(w, s, step).lost == {}
    ensures Next(w, s, step).gaveUp == s.gaveUp
  {
    var s' := Next(w, s, step);
    if step.Deliver? {
      if s.wire != [] {
        DeliverKeepsPipe(w, s);
        SameAnnounced(s, s');
      }
    } else if Outer(step) {
      OuterKeepsLoop(w, s, step);
    } else if Cuts(step) {
      CutsIs(w, s, step);
      CutKeepsLoop(w, s, s');
    } else if step.AnswerOffer? {
      SameAnnounced(s, s');
    }
  }

  lemma NextKeepsTold(w: World, s: State, step: Step)
    requires w.Valid() && Told(w, s) && s.rx.receivers.Keys == w.Ids()
    ensures Told(w, Next(w, s, step))
  {
    if step.Emit? {
      if Live(w, s.snd.loop) { EmitKeepsTold(w, s, step.bytes); }
    } else if step.Handle? {
      if s.inbox != [] { HandleKeepsTold(w, s, step.ok); }
    } else {
      OtherKeepsTold(w, s, step);
    }
  }

  lemma {:induction false} RunKeepsTold(w: World, s: State, steps: seq<Step>)
    requires w.Valid() && Integrity.Inv(w, s) && Told(w, s)
    ensures Told(w, Run(w, s, steps)) && Run(w, s, steps).rx.receivers.Keys == w.Ids()
  {
    Integrity.RunKeepsInv(w, s, steps);
    if steps != [] {
      RunKeepsTold(w, s, steps[..|steps| - 1]);
      NextKeepsTold(w, Run(w, s, steps[..|steps| - 1]), steps[|steps| - 1]);
    }
  }

  lemma Reachable(w: World, rx: RxState, steps: seq<Step>)
    requires w.Valid() && FreshReceiver(w, rx)
    ensures Told(w, Run(w, Initially(w, rx), steps)) && Run(w, Initially(w, rx), steps).rx.receivers.Keys == w.Ids()
  {
    Integrity.FreshIsOk(w, rx);
    StartIsOk(w, 0, map[], 0);
    RunKeepsTold(w, Initially(w, rx), steps);
  }

  // ----- what TRANSFER_COMPLETE promises -----

  /**
   * In every run, when the receiver is about to handle TRANSFER_COMPLETE, exactly the
   * files are missing that the loop which sent it left unannounced because their pump
   * ended cancelled.  When a connection loss leads to that is the subject of GivingUp.
   */
  lemma TransferCompleteIff(w: World, rx: RxState, steps: seq<Step>)
    requires w.Valid() && FreshReceiver(w, rx)
    ensures var s := Run(w, Initially(w, rx), steps);
            s.inbox != [] && s.inbox[0].TransferComplete? ==>
              && s.rx.completed == w.Ids() - Named(w, s.inbox[0].lost)
              && (s.rx.completed == w.Ids() <==> Named(w, s.inbox[0].lost) == {})
  {
    Reachable(w, rx, steps);
    var s := Run(w, Initially(w, rx), steps);
    if s.inbox != [] && s.inbox[0].TransferComplete? { HeadSaysWhatIsMissing(w, s); }
  }

  lemma HeadSaysWhatIsMissing(w: World, s: State)
    requires w.Valid() && PipeTruthful(w, s.rx.completed, Pipe(s)) && s.inbox != [] && s.inbox[0].TransferComplete?
    ensures s.rx.completed == w.Ids() - Named(w, s.inbox[0].lost)
    ensures s.rx.completed == w.Ids() <==> Named(w, s.inbox[0].lost) == {}
  {
    var m, tail := s.inbox[0], s.inbox[1..] + s.wire;
    assert Pipe(s) == [m] + tail;
    HeadTruthful(w, s.rx.completed, m, tail);
    NamedAreIds(w, m.lost);
  }

  lemma NamedAreIds(w: World, indices: set<nat>)
    ensures Named(w, indices) <= w.Ids()
  {}

  /** A run in which no pump ended cancelled while the channel was open: a done transfer has every file finalized. */
  lemma DoneMeansAllFinalized(w: World, rx: RxState, steps: seq<Step>)
    requires w.Valid() && FreshReceiver(w, rx)
    ensures var s := Run(w, Initially(w, rx), steps);
            !s.gaveUp && s.rx.transferDone ==> s.rx.completed == w.Ids()
  {
    Reachable(w, rx, steps);
  }

  // ----- undisturbed continuations -----

  /** TRANSFER_COMPLETE was handled or is on its way. */
  ghost predicate Promised(s: State) {
    s.rx.transferDone || exists m :: m in Pipe(s) && m.TransferComplete?
  }

  /** On the way to an undisturbed end at which exactly the lost files are missing. */
  ghost predicate Finishing(w: World, lost: set<nat>, s: State)
    requires w.Valid()
  {
    && Integrity.Inv(w, s) && Told(w, s) && s.lost == lost
    && s.snd.open && Uncancelled(s.snd) && !s.snd.loop.Waiting?
    && (s.snd.loop.Stopped? ==> Announced(s) == w.Ids() - Named(w, lost) && Promised(s))
  }

  lemma HandleKeepsAnnounced(w: World, s: State, ok: bool)
    requires w.Valid() && Told(w, s) && s.inbox != [] && s.rx.receivers.Keys == w.Ids()
    ensures Announced(DoHandle(w, s, ok)) == Announced(s)
    ensures Promised(s) ==> Promised(DoHandle(w, s, ok))
  {
    var s' := DoHandle(w, s, ok);
    var m, tail := s.inbox[0], s.inbox[1..] + s.wire;
    assert Pipe(s) == [m] + tail && Pipe(s') == tail;
    HeadTruthful(w, s.rx.completed, m, tail);
    HandledCompletes(w, s.rx, m, ok);
    if Promised(s) && !s.rx.transferDone && !m.TransferComplete? {
      var p :| p in Pipe(s) && p.TransferComplete?;
      assert p in tail;
    }
  }

  lemma LastTurn(w: World, s: State, bytes: nat)
    requires w.Valid() && Told(w, s) && s.snd.open && !s.snd.cancelled && s.snd.loop.Between? && s.snd.loop.i == |w.files|
    ensures Announced(DoEmit(w, s, bytes)) == w.Ids() - Named(w, s.lost) && Promised(DoEmit(w, s, bytes))
  {
    EmitAnnounces(w, s, bytes);
    AllButLost(w, s);
    assert Pipe(DoEmit(w, s, bytes)) == Pipe(s) + [TransferComplete(s.lost)];
    assert TransferComplete(s.lost) in Pipe(DoEmit(w, s, bytes));
  }

  lemma FinishingEmit(w: World, lost: set<nat>, s: State, bytes: nat)
    requires w.Valid() && Finishing(w, lost, s) && Live(w, s.snd.loop)
    requires Integrity.Inv(w, DoEmit(w, s, bytes)) && Told(w, DoEmit(w, s, bytes))
    ensures Finishing(w, lost, DoEmit(w, s, bytes))
  {
    EmittingTurn(w, s, bytes);
    if DoEmit(w, s, bytes).snd.loop.Stopped? { LastTurn(w, s, bytes); }
  }

  /** A step that changes neither what was announced nor where the loop stands. */
  lemma FinishingSame(w: World, lost: set<nat>, s: State, s': State)
    requires w.Valid() && Finishing(w, lost, s) && Integrity.Inv(w, s') && Told(w, s')
    requires s'.lost == s.lost && s'.snd.open && Uncancelled(s'.snd) && !s'.snd.loop.Waiting?
    requires (s'.snd.loop.Stopped? <==> s.snd.loop.Stopped?) && Announced(s') == Announced(s) && (Promised(s) ==> Promised(s'))
    ensures Finishing(w, lost, s')
  {}

  lemma DrainKeepsLoop(w: World, s: State, e: Pump.Event)
    requires w.Valid() && Uncancelled(s.snd) && e.Drain?
    ensures var s' := Next(w, s, Flow(e));
            && s' == s.(snd := s.snd.(loop := s'.snd.loop)) && Uncancelled(s'.snd)
            && (s'.snd.loop.Stopped? <==> s.snd.loop.Stopped?) && (s'.snd.loop.Waiting? <==> s.snd.loop.Waiting?)
  {}

  lemma FinishingStep(w: World, lost: set<nat>, s: State, step: Step)
    requires w.Valid() && Finishing(w, lost, s) && QuietStep(step)
    ensures Finishing(w, lost, Next(w, s, step))
  {
    var s' := Next(w, s, step);
    Integrity.NextKeepsInv(w, s, step);
    NextKeepsTold(w, s, step);
    if step.Emit? {
      if Live(w, s.snd.loop) { FinishingEmit(w, lost, s, step.bytes); }
    } else if step.Handle? {
      if s.inbox != [] {
        HandleKeepsAnnounced(w, s, step.ok);
        FinishingSame(w, lost, s, s');
      }
    } else if step.Deliver? {
      if s.wire != [] {
        DeliverKeepsPipe(w, s);
        SameAnnounced(s, s');
        FinishingSame(w, lost, s, s');
      }
    } else {
      DrainKeepsLoop(w, s, step.e);
      SameAnnounced(s, s');
      FinishingSame(w, lost, s, s');
    }
  }

  lemma {:induction false} FinishingRun(w: World, lost: set<nat>, s: State, more: seq<Step>)
    requires w.Valid() && Finishing(w, lost, s) && Quiet(more)
    ensures Finishing(w, lost, Run(w, s, more))
  {
    if more != [] {
      var init, step := more[..|more| - 1], more[|more| - 1];
      assert step in more && forall x :: x in init ==> x in more;
      FinishingRun(w, lost, s, init);
      FinishingStep(w, lost, Run(w, s, init), step);
    }
  }

  /** At the end the transfer is shown as done, and exactly the lost files are missing. */
  lemma FinishedIsDone(w: World, lost: set<nat>, s: State)
    requires w.Valid() && Finishing(w, lost, s) && s.snd.loop.Stopped? && Pipe(s) == []
    ensures s.rx.transferDone && s.rx.completed == w.Ids() - Named(w, lost)
  {
    assert Completions([]) == {};
  }
}
