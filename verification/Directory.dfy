/**
 * Files saved into the picked directory.  A file there is opened by its sanitized
 * name (ReceiverSession.ts, createSinkFor), and closing one replaces what another of
 * the same name left.  The lemmas say when a saved file is still there.
 */
module Directory {
  import opened Basics
  import opened Wire
  import opened ReceiverState
  import opened Transfer
  import Completion
  import Integrity
  import Recovery
  import Sinks

  /** The file goes to the directory. */
  predicate OnDisk(rx: RxState, id: string) {
    id in rx.receivers && rx.receivers[id].sink.Disk?
  }

  predicate SameName(rx: RxState, a: string, b: string) {
    a in rx.names && b in rx.names && rx.names[a] == rx.names[b]
  }

  // ----- one handler -----

  /** Nothing is handed over: downloads, directory and the choice of sinks stay. */
  ghost predicate NothingSaved(st: RxState, st': RxState) {
    && st'.saved == st.saved && st'.disk == st.disk && st'.names == st.names
    && st'.receivers.Keys == st.receivers.Keys && st.completed <= st'.completed
    && forall id :: OnDisk(st', id) <==> OnDisk(st, id)
  }

  /** One file, not finalized before, is handed over. */
  ghost predicate OneSaved(st: RxState, st': RxState, id: string) {
    && id in st.receivers && id !in st.completed && id in st'.completed && st.completed <= st'.completed
    && st'.saved == st.saved[id := Sinks.Output(st.receivers[id].sink)]
    && st'.disk == AfterClose(st, id) && st'.names == st.names && st'.receivers.Keys == st.receivers.Keys
    && forall other :: OnDisk(st', other) <==> OnDisk(st, other)
  }

  lemma BinarySavesNothing(env: Env, st: RxState, data: seq<byte>, ok: bool)
    ensures NothingSaved(st, OnBinary(env, st, data, ok))
  {
    BinaryEffect(env, st, data, ok);
  }

  lemma VerifySaves(st: RxState, id: string, verified: bool)
    requires id in st.receivers && id !in st.completed
    ensures NothingSaved(st, BeginVerify(st, id)) && OneSaved(st, FinishVerify(BeginVerify(st, id), id, verified), id)
  {}

  lemma HandlerSaves(env: Env, st: RxState, m: FileMsg, ok: bool)
    ensures var st' := OnMessage(env, st, m, ok); NothingSaved(st, st') || (m.FileComplete? && OneSaved(st, st', m.fileId))
  {
    match m {
      case ChunkMeta(_) =>
      case Binary(data) => BinarySavesNothing(env, st, data, ok);
      case FileComplete(id, checksum) =>
        if id in st.receivers && id !in st.completed {
          VerifySaves(st, id, true);
          VerifySaves(st, id, false);
        }
      case TransferComplete(_) =>
    }
  }

  // ----- every run -----

  /** Whoever wrote under this file's name last: what is there is what was handed over. */
  ghost predicate Backed(rx: RxState, id: string) {
    && id in rx.names && rx.names[id] in rx.disk
    && var d := rx.disk[rx.names[id]];
    && d.owner in rx.saved && OnDisk(rx, d.owner) && SameName(rx, d.owner, id) && d.bytes == rx.saved[d.owner]
  }

  ghost predicate DirOk(rx: RxState) {
    && rx.names.Keys == rx.receivers.Keys && rx.saved.Keys <= rx.completed
    && forall id :: id in rx.saved && OnDisk(rx, id) ==> Backed(rx, id)
  }

  lemma SavedKeepsBacked(st: RxState, st': RxState, id: string, other: string)
    requires DirOk(st) && OneSaved(st, st', id) && other in st'.saved && OnDisk(st', other)
    ensures Backed(st', other)
  {
    if other != id { assert Backed(st, other); }
  }

  lemma HandlerKeepsDirOk(env: Env, st: RxState, m: FileMsg, ok: bool)
    requires DirOk(st)
    ensures DirOk(OnMessage(env, st, m, ok))
  {
    var st' := OnMessage(env, st, m, ok);
    HandlerSaves(env, st, m, ok);
    forall other | other in st'.saved && OnDisk(st', other)
      ensures Backed(st', other)
    {
      if NothingSaved(st, st') {
        assert Backed(st, other);
      } else {
        SavedKeepsBacked(st, st', m.fileId, other);
      }
    }
  }

  /** The receiver of the next state: that of this one, or one handler further. */
  lemma NextRx(w: World, s: State, step: Step)
    requires w.Valid()
    ensures if step.Handle? && s.inbox != [] then Next(w, s, step).rx == OnMessage(w.env, s.rx, s.inbox[0], step.ok)
            else Next(w, s, step).rx == s.rx
  {
    if !(step.Handle? && s.inbox != []) { Integrity.RxStays(w, s, step); }
  }

  lemma {:induction false} RunKeepsDirOk(w: World, s: State, steps: seq<Step>)
    requires w.Valid() && DirOk(s.rx)
    ensures DirOk(Run(w, s, steps).rx)
  {
    if steps != [] {
      var init, step := steps[..|steps| - 1], steps[|steps| - 1];
      RunKeepsDirOk(w, s, init);
      var t := Run(w, s, init);
      NextRx(w, t, step);
      if step.Handle? && t.inbox != [] { HandlerKeepsDirOk(w.env, t.rx, t.inbox[0], step.ok); }
    }
  }

  lemma Reachable(w: World, rx: RxState, steps: seq<Step>)
    requires w.Valid() && FreshReceiver(w, rx)
    ensures DirOk(Run(w, Initially(w, rx), steps).rx)
  {
    RunKeepsDirOk(w, Initially(w, rx), steps);
  }

  // ----- when a saved file stays -----

  /** Another file of the same name that went to the directory as well. */
  predicate Rival(rx: RxState, id: string, other: string) {
    other != id && other in rx.saved && OnDisk(rx, other) && SameName(rx, other, id)
  }

  /** The file is the one that was written last under its name. */
  predicate Holds(rx: RxState, id: string) {
    id in rx.names && rx.names[id] in rx.disk && rx.disk[rx.names[id]].owner == id
  }

  /** From s to t: the file of s is still the one under its name exactly if no rival was saved. */
  ghost predicate KeptIff(s: RxState, t: RxState, id: string) {
    && DirOk(t) && id in s.saved && id in t.saved && OnDisk(t, id) && t.names == s.names && s.saved.Keys <= t.saved.Keys
    && t.saved[id] == s.saved[id]
    && (Holds(t, id) <==> forall other :: Rival(t, id, other) ==> other in s.saved)
  }

  lemma NothingKeeps(s: RxState, t: RxState, t': RxState, id: string)
    requires id in s.saved && KeptIff(s, t, id) && NothingSaved(t, t') && DirOk(t')
    ensures KeptIff(s, t', id)
  {
    assert forall other :: Rival(t', id, other) <==> Rival(t, id, other);
  }

  lemma OneKeeps(s: RxState, t: RxState, t': RxState, id: string, other: string)
    requires id in s.saved && KeptIff(s, t, id) && OneSaved(t, t', other) && DirOk(t')
    ensures KeptIff(s, t', id)
  {
    assert other != id && other !in t.saved && other !in s.saved;
    assert forall x :: x != other ==> (Rival(t', id, x) <==> Rival(t, id, x));
    if OnDisk(t, other) && SameName(t, other, id) {
      assert Rival(t', id, other) && !Holds(t', id);
    } else {
      assert !Rival(t', id, other) && (Holds(t', id) <==> Holds(t, id));
    }
  }

  lemma {:induction false} RunKeepsIff(w: World, s: State, more: seq<Step>, id: string)
    requires w.Valid() && id in s.rx.saved && KeptIff(s.rx, s.rx, id)
    ensures KeptIff(s.rx, Run(w, s, more).rx, id)
  {
    if more != [] {
      var init, step := more[..|more| - 1], more[|more| - 1];
      RunKeepsIff(w, s, init, id);
      var t := Run(w, s, init);
      NextRx(w, t, step);
      if step.Handle? && t.inbox != [] {
        var m, t' := t.inbox[0], Next(w, t, step);
        HandlerSaves(w.env, t.rx, m, step.ok);
        HandlerKeepsDirOk(w.env, t.rx, m, step.ok);
        if NothingSaved(t.rx, t'.rx) {
          NothingKeeps(s.rx, t.rx, t'.rx, id);
        } else {
          OneKeeps(s.rx, t.rx, t'.rx, id, m.fileId);
        }
      }
    }
  }

  /**
   * A file in the directory keeps its bytes, over any continuation of any run, exactly
   * as long as no other file of the same sanitized name is finalized into the
   * directory after it; after that the bytes there are another file's.
   */
  lemma SavedFileStaysIff(w: World, rx: RxState, steps: seq<Step>, more: seq<Step>, id: string)
    requires w.Valid() && FreshReceiver(w, rx)
    requires var s := Run(w, Initially(w, rx), steps); id in s.rx.saved && OnDisk(s.rx, id) && Holds(s.rx, id)
    ensures var s := Run(w, Initially(w, rx), steps);
            var t := Run(w, s, more);
            && (Holds(t.rx, id) <==> forall other :: Rival(t.rx, id, other) ==> other in s.rx.saved)
            && (Holds(t.rx, id) ==> t.rx.disk[t.rx.names[id]].bytes == s.rx.saved[id])
            && Backed(t.rx, id)
  {
    Reachable(w, rx, steps);
    var s := Run(w, Initially(w, rx), steps);
    RunKeepsIff(w, s, more, id);
  }

  // ----- at the end of a transfer -----

  /** Every file that went to the directory is there, byte for byte. */
  ghost predicate DirectoryExact(w: World, rx: RxState) {
    forall j :: 0 <= j < |w.files| && OnDisk(rx, w.files[j].id) ==> ExactOnDisk(w, rx, j)
  }

  ghost predicate ExactOnDisk(w: World, rx: RxState, j: nat)
    requires j < |w.files|
  {
    var id := w.files[j].id;
    id in rx.names && rx.names[id] in rx.disk && rx.disk[rx.names[id]].bytes == w.files[j].content
  }

  /** Files of one name that go to the directory do not differ in content. */
  ghost predicate NamesTell(w: World, rx: RxState) {
    forall i, j ::
      0 <= i < |w.files| && 0 <= j < |w.files| && OnDisk(rx, w.files[i].id) && OnDisk(rx, w.files[j].id)
      && SameName(rx, w.files[i].id, w.files[j].id)
      ==> w.files[i].content == w.files[j].content
  }

  lemma ExactByOwner(w: World, rx: RxState, j: nat)
    requires w.Valid() && j < |w.files| && DirOk(rx) && Recovery.AllArrived(w, rx) && rx.receivers.Keys == w.Ids()
    requires OnDisk(rx, w.files[j].id) && NamesTell(w, rx)
    ensures ExactOnDisk(w, rx, j)
  {
    assert Backed(rx, w.files[j].id);
    var owner := rx.disk[rx.names[w.files[j].id]].owner;
    var i :| 0 <= i < |w.files| && w.files[i].id == owner;
    assert rx.saved[w.files[i].id] == w.files[i].content;
  }

  /**
   * With every file arrived and verified, the directory holds every file that went
   * there byte for byte exactly if no two of them with different content have the
   * same sanitized name.
   */
  lemma DirectoryExactIff(w: World, rx: RxState, steps: seq<Step>)
    requires w.Valid() && FreshReceiver(w, rx) && Recovery.AllArrived(w, Run(w, Initially(w, rx), steps).rx)
    ensures var s := Run(w, Initially(w, rx), steps); DirectoryExact(w, s.rx) <==> NamesTell(w, s.rx)
  {
    Reachable(w, rx, steps);
    Completion.Reachable(w, rx, steps);
    var s := Run(w, Initially(w, rx), steps);
    if NamesTell(w, s.rx) {
      forall j | 0 <= j < |w.files| && OnDisk(s.rx, w.files[j].id)
        ensures ExactOnDisk(w, s.rx, j)
      {
        ExactByOwner(w, s.rx, j);
      }
    }
    if DirectoryExact(w, s.rx) {
      forall i, j |
        0 <= i < |w.files| && 0 <= j < |w.files| && OnDisk(s.rx, w.files[i].id) && OnDisk(s.rx, w.files[j].id)
        && SameName(s.rx, w.files[i].id, w.files[j].id)
        ensures w.files[i].content == w.files[j].content
      {
        assert ExactOnDisk(w, s.rx, i) && ExactOnDisk(w, s.rx, j);
      }
    }
  }

  /** The sinks and names chosen at the start are those of every state. */
  lemma {:induction false} ChoicesStay(w: World, s: State, steps: seq<Step>)
    requires w.Valid()
    ensures Run(w, s, steps).rx.names == s.rx.names
    ensures forall id :: OnDisk(Run(w, s, steps).rx, id) <==> OnDisk(s.rx, id)
  {
    if steps != [] {
      var init, step := steps[..|steps| - 1], steps[|steps| - 1];
      ChoicesStay(w, s, init);
      var t := Run(w, s, init);
      NextRx(w, t, step);
      if step.Handle? && t.inbox != [] { HandlerSaves(w.env, t.rx, t.inbox[0], step.ok); }
    }
  }

  /** Two files of one name and different content: the transfer ends with both shown as completed, and one is gone. */
  lemma SameNameLosesAFile(w: World, rx: RxState, i: nat, j: nat) returns (steps: seq<Step>)
    requires w.Valid() && FreshReceiver(w, rx) && i < |w.files| && j < |w.files|
    requires OnDisk(rx, w.files[i].id) && OnDisk(rx, w.files[j].id) && SameName(rx, w.files[i].id, w.files[j].id)
    requires w.files[i].content != w.files[j].content
    ensures var t := Run(w, Initially(w, rx), steps);
            && t.rx.transferDone && Recovery.AllArrived(w, t.rx)
            && (!ExactOnDisk(w, t.rx, i) || !ExactOnDisk(w, t.rx, j))
  {
    var s := Initially(w, rx);
    Recovery.Reachable(w, rx, []);
    Completion.Reachable(w, rx, []);
    steps := Recovery.UndisturbedArrives(w, s);
    ChoicesStay(w, s, steps);
  }
}
