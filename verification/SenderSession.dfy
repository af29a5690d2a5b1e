/** The sending session updated in place (SenderSession.ts), proved against Transfer. */
module SenderSession {
  import opened Basics
  import opened Wire
  import opened Transfer
  import opened ChunkPump
  import Pump

  /** Where handleAccept's file loop stands; the pump of its file is the session's active pump. */
  datatype Place = NoLoop | AtFile(i: nat, resume: map<string, nat>) | Over

  /** The frames of a turn depend on the history variable only in what TRANSFER_COMPLETE is annotated with. */
  lemma OnlyHistoryDiffers(w: World, s: Sender, lost: set<nat>, bytes: nat)
    requires w.Valid() && Live(w, s.loop)
    ensures var a, b := NextFrames(w, s, lost, bytes), NextFrames(w, s, {}, bytes);
            |a| == |b| && forall k :: 0 <= k < |a| ==> a[k] == b[k] || (a[k] == TransferComplete(lost) && b[k] == TransferComplete({}))
  {}

  class SenderSession {
    const w: World
    const sessionId: Option<string>
    var place: Place
    var activePump: ChunkPump?
    var activeFileIndex: nat
    var webrtcReconnectAttempts: nat
    var reconnectTimers: nat
    var reconnecting: bool
    var cancelled: bool
    var channelsOpen: bool
    var transferState: TransferState

    ghost predicate Valid()
      reads this, activePump
    {
      && w.Valid()
      && (activePump != null ==>
            && activePump.job.Valid()
            && (activePump.point.Prehash? ==> activePump.hashed == [])
            && (place.AtFile? ==> place.i < |w.files| && activePump.job == w.Job(place.i)))
    }

    ghost function ViewLoop(): Loop
      reads this, activePump
    {
      match place
      case NoLoop => Waiting
      case AtFile(i, resume) => if activePump == null then Between(i, resume) else Pumping(i, resume, activePump.View())
      case Over => Stopped
    }

    ghost function View(): Sender
      reads this, activePump
    {
      Sender(ViewLoop(), activeFileIndex, webrtcReconnectAttempts, reconnectTimers, reconnecting, cancelled, channelsOpen, transferState)
    }

    constructor (w: World, sessionId: Option<string>)
      requires w.Valid()
      ensures this.w == w && this.sessionId == sessionId
      ensures Valid() && View() == Sender(Waiting, 0, 0, 0, false, false, true, TransferState.Transferring)
    {
      this.w, this.sessionId := w, sessionId;
      place, activePump, activeFileIndex := NoLoop, null, 0;
      webrtcReconnectAttempts, reconnectTimers, reconnecting := 0, 0, false;
      cancelled, channelsOpen, transferState := false, true, TransferState.Transferring;
    }

    /** The pump alone is cancelled or paused; the loop is not told. */
    method HandleConnectionLoss()
      requires Valid()
      modifies this, activePump
      ensures Valid() && activePump == old(activePump)
      ensures View() == AfterLoss(old(View()))
    {
      if cancelled || transferState == TransferState.Completed || transferState == Cancelled || transferState == TransferState.Failed {
        return;
      }
      if webrtcReconnectAttempts >= MAX_WEBRTC_RECONNECT_ATTEMPTS {
        transferState := TransferState.Failed;
        if activePump != null {
          activePump.CancelLoop();
        }
        return;
      }
      webrtcReconnectAttempts := webrtcReconnectAttempts + 1;
      transferState := Interrupted;
      if activePump != null {
        activePump.PauseLoop();
      }
      reconnectTimers := reconnectTimers + 1;
    }

    /** A timer fires; if a new peer is built, the old one is closed first. */
    method AttemptToReconnect(signalingOpen: bool) returns (offers: bool)
      requires Valid() && reconnectTimers > 0
      modifies this
      ensures Valid() && activePump == old(activePump)
      ensures offers == (!old(cancelled) && sessionId.Some? && signalingOpen)
      ensures View() == AfterAttempt(old(View()), sessionId.Some? && signalingOpen)
    {
      reconnectTimers := reconnectTimers - 1;
      if cancelled || sessionId.None? {
        return false;
      }
      if !signalingOpen {
        return false;
      }
      reconnecting := true;
      channelsOpen := false;
      return true;
    }

    /** The channels of a new peer open after a reconnect: which file is re-offered. */
    method ReofferAfterReconnect() returns (offered: Option<nat>)
      requires Valid() && reconnecting && !cancelled
      modifies this
      ensures Valid() && activePump == old(activePump)
      ensures View() == AfterReady(old(View()))
      ensures offered == if activeFileIndex < |w.files| then Some(activeFileIndex) else None
    {
      reconnecting, webrtcReconnectAttempts := false, 0;
      transferState := TransferState.Transferring;
      place, channelsOpen := NoLoop, true;
      offered := if activeFileIndex < |w.files| then Some(activeFileIndex) else None;
    }

    /** FILE_ACCEPT: the loop starts with the first file; a cancelled session's loop is over at once. */
    method HandleAccept(resumeFrom: map<string, nat>)
      requires Valid()
      modifies this
      ensures Valid()
      ensures View() == if old(cancelled)
                        then old(View()).(loop := Stopped, activeFileIndex := 0, transferState := TransferState.Transferring)
                        else AfterAccept(w, old(View()), resumeFrom)
    {
      transferState := TransferState.Transferring;
      activeFileIndex := 0;
      if cancelled {
        place := Over;
        return;
      }
      activePump := new ChunkPump(w.Job(0), StartOf(w, 0, resumeFrom), 0);
      place := AtFile(0, resumeFrom);
    }

    /**
     * The loop from one of its suspension points to the next: what it gives to the
     * channel.  TRANSFER_COMPLETE carries no history on the wire; OnlyHistoryDiffers
     * says that it makes no other difference.
     */
    method ContinueLoop(bytes: nat) returns (sent: seq<FileMsg>)
      requires Valid() && place.AtFile?
      modifies this, activePump
      ensures Valid()
      ensures Live(w, old(View()).loop)
      ensures View() == AfterEmit(w, old(View()), bytes)
      ensures sent == NextFrames(w, old(View()), {}, bytes)
    {
      sent := [];
      if activePump != null {
        sent := ContinueFile(bytes);
      } else if place.i < |w.files| {
        activeFileIndex := place.i;
        if cancelled {
          place := Over;
        } else {
          activePump := new ChunkPump(w.Job(place.i), StartOf(w, place.i, place.resume), bytes);
        }
      } else {
        if !cancelled {
          sent := [TransferComplete({})];
          transferState := TransferState.Completed;
        }
        place := Over;
      }
    }

    /** An awaited read, encryption or history entry is rejected: handleAccept ends, and an active pump stays behind. */
    method RejectLoop()
      requires Valid()
      modifies this
      ensures Valid() && activePump == old(activePump)
      ensures View() == old(View()).(loop := AfterRejection(old(View()).loop))
    {
      if place.AtFile? && (activePump == null || activePump.point.Reading? || activePump.point.Prehash?) {
        place := NoLoop;
      }
    }

    /** sendFile: the pump goes on; once it is done FILE_COMPLETE follows, unless it ended cancelled. */
    method ContinueFile(bytes: nat) returns (sent: seq<FileMsg>)
      requires Valid() && place.AtFile? && activePump != null
      modifies this, activePump
      ensures Valid()
      ensures View() == AfterEmit(w, old(View()), bytes)
      ensures sent == NextFrames(w, old(View()), {}, bytes)
    {
      var pump := activePump;
      ghost var before := pump.View();
      var already := |pump.sent|;
      pump.Continue(bytes);
      sent := pump.sent[already..];
      assert sent == Pump.Sends(w.Job(place.i), before);
      if pump.point.Done? {
        activePump := null;
        if pump.point.outcome.Completed? {
          sent := sent + [FileComplete(w.files[place.i].id, pump.point.outcome.checksum)];
        }
        place := AtFile(place.i + 1, place.resume);
      }
    }

    /** PAUSE and RESUME of the receiver. */
    method HandlePauseOrResume(pause: bool)
      requires Valid()
      modifies activePump
      ensures Valid()
      ensures View() == old(View()).(loop := SignalPump(old(View()).loop, if pause then Pump.Pause else Pump.Resume))
    {
      if activePump != null {
        if pause {
          activePump.PauseLoop();
        } else {
          activePump.ResumeLoop();
        }
      }
    }

    /** PEER_LEFT, SESSION_EXPIRED and RATE_LIMITED. */
    method HandleNotice(n: Notice)
      requires Valid()
      modifies this
      ensures Valid() && activePump == old(activePump)
      ensures View() == AfterNotice(old(View()), n)
    {
      if !cancelled {
        match n
        case PeerLeft => transferState := Interrupted;
        case SessionExpired => transferState := Expired;
        case RateLimited => transferState := TransferState.Failed;
      }
    }

    method CancelTransfer()
      requires Valid()
      modifies this, activePump
      ensures Valid()
      ensures View() == AfterCancel(old(View()))
    {
      cancelled := true;
      if activePump != null {
        activePump.CancelLoop();
      }
      transferState := Cancelled;
      channelsOpen := false;
    }
  }
}
