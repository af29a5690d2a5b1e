/**
 * The results of Resume over runs: the resume invariant, verified completion, when a
 * transfer can still recover, and that one undisturbed reconnection then finishes it.
 */
module Recovery {
  import opened Basics
  import opened Chunking
  import opened FileNames
  import opened Receiving
  import opened ReceiverState
  import opened Transfer
  import opened Schedules
  import opened Resume
  import Integrity
  import Completion
  import GivingUp
  import R = ReceiverSession

  // ----- where runs start -----

  /** The metadata that the sender offers for files with the given names. */
  function Metadata(w: World, names: seq<Name>): seq<R.FileMetadata>
    requires |names| == |w.files| && forall j :: 0 <= j < |w.files| ==> w.files[j].chunkSize > 0
  {
    seq(|w.files|, j requires 0 <= j < |w.files| =>
      R.FileMetadata(w.files[j].id, Sanitize(names[j]), TotalChunks(|w.files[j].content|, w.files[j].chunkSize), w.files[j].chunkSize))
  }

  lemma OfferedIds(w: World, names: seq<Name>)
    requires w.Valid() && |names| == |w.files|
    ensures R.Ids(Metadata(w, names)) == w.Ids()
  {
    forall id | id in w.Ids()
      ensures id in R.Ids(Metadata(w, names))
    {
      var j :| 0 <= j < |w.files| && w.files[j].id == id;
      assert Metadata(w, names)[j].id == id;
    }
  }

  lemma OfferedIsFresh(w: World, names: seq<Name>, onDisk: set<string>, j: nat)
    requires w.Valid() && |names| == |w.files| && j < |w.files|
    ensures var receivers := R.Opened(map[], Metadata(w, names), onDisk);
            w.files[j].id in receivers && IsFresh(w.files[j], receivers[w.files[j].id])
  {
    R.OpenedEach(map[], Metadata(w, names), onDisk, j);
  }

  /** A receiver that accepted the offer, whatever the directory and whichever files go there, is where the runs start. */
  lemma AcceptedOfferIsFresh(w: World, names: seq<Name>, onDisk: set<string>, disk: map<Name, DiskFile>)
    requires w.Valid() && |names| == |w.files|
    ensures var files := Metadata(w, names);
            FreshReceiver(w, RxState(R.Opened(map[], files, onDisk), None, {}, map[], map[], R.OpenedNames(map[], files), disk, false))
  {
    R.OpenedFresh(map[], Metadata(w, names), onDisk);
    OfferedIds(w, names);
    forall j | 0 <= j < |w.files|
      ensures IsFresh(w.files[j], R.Opened(map[], Metadata(w, names), onDisk)[w.files[j].id])
    {
      OfferedIsFresh(w, names, onDisk, j);
    }
  }

  lemma FreshIsOrdered(w: World, rx: RxState)
    requires w.Valid() && FreshReceiver(w, rx)
    ensures Ordered(w, Initially(w, rx))
  {
    var s := Initially(w, rx);
    assert Pipe(s) == [];
    forall j | 0 <= j < |w.files|
      ensures FileInOrder(w, rx, j)
    {
      assert w.files[j].id in w.Ids();
      assert IsFresh(w.files[j], rx.receivers[w.files[j].id]);
    }
  }

  lemma FaultyStays(w: World, s: State, step: Step)
    requires w.Valid()
    ensures s.faulty ==> Next(w, s, step).faulty
  {}

  lemma {:induction false} RunKeepsOrdered(w: World, s: State, steps: seq<Step>)
    requires w.Valid() && Integrity.Inv(w, s) && (!s.faulty ==> Ordered(w, s))
    ensures Integrity.Inv(w, Run(w, s, steps))
    ensures !Run(w, s, steps).faulty ==> Ordered(w, Run(w, s, steps))
  {
    Integrity.RunKeepsInv(w, s, steps);
    if steps != [] {
      var init := steps[..|steps| - 1];
      RunKeepsOrdered(w, s, init);
      FaultyStays(w, Run(w, s, init), steps[|steps| - 1]);
      if !Run(w, s, steps).faulty {
        NextKeepsOrdered(w, Run(w, s, init), steps[|steps| - 1]);
      }
    }
  }

  lemma Reachable(w: World, rx: RxState, steps: seq<Step>)
    requires w.Valid() && FreshReceiver(w, rx)
    ensures Integrity.Inv(w, Run(w, Initially(w, rx), steps))
    ensures !Run(w, Initially(w, rx), steps).faulty ==> Ordered(w, Run(w, Initially(w, rx), steps))
  {
    Integrity.FreshIsOk(w, rx);
    StartIsOk(w, 0, map[], 0);
    FreshIsOrdered(w, rx);
    RunKeepsOrdered(w, Initially(w, rx), steps);
  }

  /**
   * The resume invariant.  Without a rejected platform call, whatever connections are
   * lost and however stale a resume point is: each file's received set is a prefix
   * 0, ..., n - 1, its digest covers exactly the bytes before chunk n, and any resume
   * point on its way to the sender is at most the number of chunks received.
   */
  lemma ReceivedIsAlwaysAPrefix(w: World, rx: RxState, steps: seq<Step>, j: nat)
    requires w.Valid() && FreshReceiver(w, rx) && j < |w.files|
    ensures var s := Run(w, Initially(w, rx), steps);
            var f := w.files[j];
            !s.faulty ==>
              && f.id in s.rx.receivers
              && var r := s.rx.receivers[f.id];
              var n := |r.received|;
              && r.received == Iota(n) && n <= f.Total()
              && r.hashed == f.Before(n)
              && r.progress == |f.Before(n)|
              && (s.control.Accepted? && s.control.i == j ==> s.control.chunk <= n)
  {
    Reachable(w, rx, steps);
    var s := Run(w, Initially(w, rx), steps);
    if !s.faulty {
      var f := w.files[j];
      assert FileInOrder(w, s.rx, j) && Integrity.FileOk(w, s.rx, j);
      JoinInOrder(f, Count(w, s.rx, j));
      ProgressIsBytesReceived(f, s.rx.receivers[f.id]);
    }
  }

  /** Every file arrived, verified, byte for byte. */
  ghost predicate AllArrived(w: World, rx: RxState) {
    forall j :: 0 <= j < |w.files| ==>
      && Integrity.IsCompleted(rx, w.files[j].id)
      && w.files[j].id in rx.saved && rx.saved[w.files[j].id] == w.files[j].content
  }

  lemma FinalizedArrived(w: World, rx: RxState)
    requires w.Valid() && InOrder(w, rx) && rx.completed == w.Ids()
    ensures AllArrived(w, rx)
  {
    forall j | 0 <= j < |w.files|
      ensures Integrity.IsCompleted(rx, w.files[j].id) && w.files[j].id in rx.saved && rx.saved[w.files[j].id] == w.files[j].content
    {
      assert FileInOrder(w, rx, j);
    }
  }

  /**
   * Without a rejected platform call and without giving up on a file: once
   * TRANSFER_COMPLETE was handled, every file has arrived and was verified, across
   * any number of reconnections that each re-offer only the active file.
   */
  lemma DoneMeansAllArrived(w: World, rx: RxState, steps: seq<Step>)
    requires w.Valid() && FreshReceiver(w, rx)
    ensures var s := Run(w, Initially(w, rx), steps);
            !s.faulty && !s.gaveUp && s.rx.transferDone ==> AllArrived(w, s.rx)
  {
    Reachable(w, rx, steps);
    Completion.DoneMeansAllFinalized(w, rx, steps);
    var s := Run(w, Initially(w, rx), steps);
    if !s.faulty && !s.gaveUp && s.rx.transferDone { FinalizedArrived(w, s.rx); }
  }

  // ----- recovery -----

  /** The answer to a re-offer has arrived: the next step starts the loop again. */
  predicate Answered(w: World, s: State) {
    s.snd.open && s.control.Accepted? && s.control.i < |w.files|
  }

  lemma OfferIsAnswered(w: World, s: State) returns (steps: seq<Step>)
    requires w.Valid() && Integrity.Inv(w, s) && s.snd.open && !s.control.NoControl?
    ensures |steps| <= 1 && Answered(w, Run(w, s, steps)) && Run(w, s, steps).faulty == s.faulty
  {
    if s.control.Offered? {
      assert w.files[s.control.i].id in w.Ids();
      RunOne(w, s, AnswerOffer);
      steps := [AnswerOffer];
    } else {
      steps := [];
    }
  }

  lemma ReadyIsAnswered(w: World, s: State) returns (steps: seq<Step>)
    requires w.Valid() && Integrity.Inv(w, s) && !s.snd.cancelled && s.snd.reconnecting && s.offered
    ensures |steps| <= 2 && Answered(w, Run(w, s, steps)) && Run(w, s, steps).faulty == s.faulty
  {
    Integrity.NextKeepsInv(w, s, ChannelsReady);
    steps := OfferIsAnswered(w, Next(w, s, ChannelsReady));
    Prepend(w, s, ChannelsReady, steps);
    steps := [ChannelsReady] + steps;
  }

  lemma TimerIsAnswered(w: World, s: State) returns (steps: seq<Step>)
    requires w.Valid() && Integrity.Inv(w, s) && !s.snd.cancelled && s.linked && s.snd.scheduled > 0
    ensures |steps| <= 3 && Answered(w, Run(w, s, steps)) && Run(w, s, steps).faulty == s.faulty
  {
    Integrity.NextKeepsInv(w, s, AttemptReconnect(true));
    steps := ReadyIsAnswered(w, Next(w, s, AttemptReconnect(true)));
    Prepend(w, s, AttemptReconnect(true), steps);
    steps := [AttemptReconnect(true)] + steps;
  }

  lemma LossIsAnswered(w: World, s: State) returns (steps: seq<Step>)
    requires w.Valid() && Integrity.Inv(w, s) && !s.snd.cancelled && s.linked
    requires s.snd.attempts < MAX_WEBRTC_RECONNECT_ATTEMPTS && !Terminal(s.snd.transferState)
    ensures |steps| <= 4 && Answered(w, Run(w, s, steps)) && Run(w, s, steps).faulty == s.faulty
  {
    Integrity.NextKeepsInv(w, s, ConnectionLoss);
    steps := TimerIsAnswered(w, Next(w, s, ConnectionLoss));
    Prepend(w, s, ConnectionLoss, steps);
    steps := [ConnectionLoss] + steps;
  }

  lemma Prepend(w: World, s: State, step: Step, steps: seq<Step>)
    requires w.Valid()
    ensures Run(w, s, [step] + steps) == Run(w, Next(w, s, step), steps)
  {
    RunOne(w, s, step);
    RunAppend(w, s, [step], steps);
  }

  lemma IsAnswered(w: World, s: State) returns (steps: seq<Step>)
    requires w.Valid() && Integrity.Inv(w, s) && CanReconnect(s)
    ensures |steps| <= 4 && Answered(w, Run(w, s, steps)) && Run(w, s, steps).faulty == s.faulty
  {
    if s.snd.open && !s.control.NoControl? {
      steps := OfferIsAnswered(w, s);
    } else if s.snd.reconnecting && s.offered {
      steps := ReadyIsAnswered(w, s);
    } else if s.linked && s.snd.scheduled > 0 {
      steps := TimerIsAnswered(w, s);
    } else {
      steps := LossIsAnswered(w, s);
    }
  }

  /** Where no reconnection is left, no loop starts again, whatever happens. */
  lemma {:induction false} NoLoopRestarts(w: World, s: State, more: seq<Step>)
    requires w.Valid() && SenderOk(w, s.snd) && !CanReconnect(s)
    ensures SenderOk(w, Run(w, s, more).snd) && !CanReconnect(Run(w, s, more)) && !Answered(w, Run(w, s, more))
  {
    if more != [] {
      NoLoopRestarts(w, s, more[..|more| - 1]);
      NextKeepsSenderOk(w, Run(w, s, more[..|more| - 1]), more[|more| - 1]);
      NoReconnectStep(w, Run(w, s, more[..|more| - 1]), more[|more| - 1]);
    }
  }

  /** In every reachable state: a loop can start again in some continuation exactly if CanReconnect says so. */
  lemma LoopRestartsIff(w: World, rx: RxState, steps: seq<Step>)
    requires w.Valid() && FreshReceiver(w, rx)
    ensures var s := Run(w, Initially(w, rx), steps);
            CanReconnect(s) <==> exists more :: Answered(w, Run(w, s, more))
  {
    Integrity.Reachable(w, rx, steps);
    var s := Run(w, Initially(w, rx), steps);
    if CanReconnect(s) {
      var more := IsAnswered(w, s);
    } else {
      forall more ensures !Answered(w, Run(w, s, more)) { NoLoopRestarts(w, s, more); }
    }
  }

  /**
   * An attempt that finds signaling down is not made up for when signaling is back:
   * one such loss, with the whole budget left, and no loop ever starts again.
   */
  lemma OneLossWithoutSignaling(w: World, rx: RxState, more: seq<Step>)
    requires w.Valid() && FreshReceiver(w, rx)
    ensures var s := Run(w, Initially(w, rx), [ConnectionLoss, AttemptReconnect(false)]);
            s.snd.attempts == 1 && !Answered(w, Run(w, s, more))
  {
    var s0 := Initially(w, rx);
    RunTwo(w, s0, ConnectionLoss, AttemptReconnect(false));
    Integrity.Reachable(w, rx, [ConnectionLoss, AttemptReconnect(false)]);
    GivingUp.LossCounted(w, s0);
    GivingUp.AttemptFails(w, Next(w, s0, ConnectionLoss));
    NoLoopRestarts(w, Run(w, s0, [ConnectionLoss, AttemptReconnect(false)]), more);
  }

  /** The loop starts again from file 0, with nothing given up. */
  lemma AnswerRestarts(w: World, s: State)
    requires w.Valid() && Integrity.Inv(w, s) && Completion.Told(w, s) && Answered(w, s)
    ensures var t := Next(w, s, TakeAccept);
            Completion.Finishing(w, {}, t) && t.faulty == s.faulty && t.snd.loop.Running() && Unpaused(t.snd.loop)
  {
    Integrity.NextKeepsInv(w, s, TakeAccept);
    Completion.NextKeepsTold(w, s, TakeAccept);
  }

  lemma QuietKeepsFaulty(w: World, s: State, step: Step)
    requires w.Valid() && QuietStep(step) && (step.Handle? ==> step.ok)
    ensures Next(w, s, step).faulty == s.faulty
  {}

  lemma {:induction false} QuietRunKeepsFaulty(w: World, s: State, more: seq<Step>)
    requires w.Valid() && Quiet(more) && Fulfilled(more)
    ensures Run(w, s, more).faulty == s.faulty
  {
    if more != [] {
      var init, step := more[..|more| - 1], more[|more| - 1];
      assert step in more && forall x :: x in init ==> x in more;
      QuietRunKeepsFaulty(w, s, init);
      QuietKeepsFaulty(w, Run(w, s, init), step);
    }
  }

  /** Left undisturbed to its end, a loop that gave up on no file brings every file. */
  lemma UndisturbedArrives(w: World, s: State) returns (more: seq<Step>)
    requires w.Valid() && (!s.faulty ==> Ordered(w, s)) && Completion.Finishing(w, {}, s)
    requires s.snd.loop.Running() && Unpaused(s.snd.loop)
    ensures var t := Run(w, s, more);
            && Quiet(more) && Fulfilled(more) && t.rx.transferDone && t.rx.completed == w.Ids()
            && (!s.faulty ==> !t.faulty && AllArrived(w, t.rx))
  {
    more := Undisturbed(w, s);
    var t := Run(w, s, more);
    Completion.FinishingRun(w, {}, s, more);
    QuietRunKeepsFaulty(w, s, more);
    RunKeepsOrdered(w, s, more);
    Completion.FinishedIsDone(w, {}, t);
    assert Completion.Named(w, {}) == {};
    if !s.faulty { FinalizedArrived(w, t.rx); }
  }

  /**
   * Recovery.  From every state that a transfer can reach and from which a loop can
   * start again, however many connections were lost and whatever was in flight: at
   * most four steps bring a re-offer of the active file and its answer, and the loop
   * that this starts, left undisturbed, finalizes every file; each is verified and
   * exact, if no platform call was rejected before.
   */
  lemma ReconnectionFinishesTheTransfer(w: World, rx: RxState, steps: seq<Step>) returns (restart: seq<Step>, rest: seq<Step>)
    requires w.Valid() && FreshReceiver(w, rx) && CanReconnect(Run(w, Initially(w, rx), steps))
    ensures |restart| <= 4 && Quiet(rest) && Fulfilled(rest)
    ensures var s := Run(w, Initially(w, rx), steps);
            var t := Run(w, s, restart + [TakeAccept] + rest);
            t.rx.transferDone && t.rx.completed == w.Ids() && (!s.faulty ==> !t.faulty && AllArrived(w, t.rx))
  {
    Reachable(w, rx, steps);
    Completion.Reachable(w, rx, steps);
    var s := Run(w, Initially(w, rx), steps);
    restart := IsAnswered(w, s);
    var s1 := Run(w, s, restart);
    RunKeepsOrdered(w, s, restart);
    Completion.RunKeepsTold(w, s, restart);
    AnswerRestarts(w, s1);
    if !s1.faulty { NextKeepsOrdered(w, s1, TakeAccept); }
    rest := UndisturbedArrives(w, Next(w, s1, TakeAccept));
    RunOne(w, s1, TakeAccept);
    RunAppend(w, s, restart, [TakeAccept]);
    RunAppend(w, s, restart + [TakeAccept], rest);
  }

  /** What the sender gave up on can still arrive while a reconnection is left. */
  lemma StrandedArrives(w: World, rx: RxState, steps: seq<Step>) returns (more: seq<Step>)
    requires w.Valid() && FreshReceiver(w, rx)
    requires GivingUp.BudgetSpent(Run(w, Initially(w, rx), steps).snd) && CanReconnect(Run(w, Initially(w, rx), steps))
    ensures Run(w, Next(w, Run(w, Initially(w, rx), steps), ConnectionLoss), more).rx.completed == w.Ids()
  {
    var s := Run(w, Initially(w, rx), steps);
    RunAppend(w, Initially(w, rx), steps, [ConnectionLoss]);
    RunOne(w, s, ConnectionLoss);
    GivingUp.LossCancels(w, s);
    var restart, rest := ReconnectionFinishesTheTransfer(w, rx, steps + [ConnectionLoss]);
    more := restart + [TakeAccept] + rest;
  }

  /** A stranded file stays missing in every continuation exactly if no reconnection is left. */
  lemma StrandedForGoodIff(w: World, rx: RxState, steps: seq<Step>)
    requires w.Valid() && FreshReceiver(w, rx)
    requires var s := Run(w, Initially(w, rx), steps);
             GivingUp.BudgetSpent(s.snd) && s.snd.open && LoopOk(w, s.snd.loop) && GivingUp.Stranded(w, s) != {}
    ensures var s := Run(w, Initially(w, rx), steps);
            !CanReconnect(s) <==> forall more :: w.files[s.snd.loop.i].id !in Run(w, Next(w, s, ConnectionLoss), more).rx.completed
  {
    var s := Run(w, Initially(w, rx), steps);
    if CanReconnect(s) {
      var more := StrandedArrives(w, rx, steps);
      assert w.files[s.snd.loop.i].id in Run(w, Next(w, s, ConnectionLoss), more).rx.completed;
    } else {
      forall more
        ensures w.files[s.snd.loop.i].id !in Run(w, Next(w, s, ConnectionLoss), more).rx.completed
      {
        GivingUp.StrandedForGood(w, rx, steps, more);
      }
    }
  }
}
