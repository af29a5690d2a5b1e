/**
 * The receiving session as a value: what each message on the file channel does
 * to it (ReceiverSession.ts), and the serial queue through which asynchronous
 * handlers run, proved to be an in-order fold.
 */
module ReceiverState {
  import opened Basics
  import opened FileNames
  import opened Hashing
  import opened Receiving
  import opened Wire
  import Sinks

  datatype Status = Queued | Transferring | Verifying | Completed | Failed

  /** A file in the picked directory; `owner`, the id of the transferred file that was written there last, is history. */
  datatype DiskFile = DiskFile(owner: string, bytes: seq<byte>)

  /**
   * `saved` are the bytes handed over when a file was finalized: as a download, or to
   * the file in `disk` that its sink was opened on, the one called `names` of its id.
   */
  datatype RxState = RxState(
    receivers: map<string, FileRx>, pending: Option<Meta>, completed: set<string>,
    status: map<string, Status>, saved: map<string, seq<byte>>,
    names: map<string, Name>, disk: map<Name, DiskFile>, transferDone: bool)

  // ----- one handler, start to end -----

  /** `ok`: every platform call of this handler is fulfilled. */
  ghost function OnMessage(env: Env, st: RxState, m: FileMsg, ok: bool): RxState {
    match m
    case ChunkMeta(meta) => st.(pending := Some(meta))
    case Binary(data) => OnBinary(env, st, data, ok)
    case FileComplete(id, checksum) => OnFileComplete(env, st, id, checksum, ok)
    case TransferComplete(_) => st.(transferDone := true)
  }

  function OnBinary(env: Env, st: RxState, data: seq<byte>, ok: bool): RxState {
    if st.pending.None? then st
    else
      var meta := st.pending.value;
      var st1 := st.(pending := None);
      if meta.fileId !in st.receivers then st1
      else
        var rx := st.receivers[meta.fileId];
        var plain := Decode(env.cipher, meta.iv, data);
        if Wanted(rx, meta.chunkIndex) && plain.Some? && ok
        then AcceptInto(st1, meta, plain.value)
        else st1
  }

  /** The chunk is taken and progress reported. */
  function AcceptInto(st: RxState, meta: Meta, plain: seq<byte>): RxState
    requires meta.fileId in st.receivers
  {
    st.(receivers := st.receivers[meta.fileId := Accept(st.receivers[meta.fileId], meta.chunkIndex, plain)],
        status := st.status[meta.fileId := Transferring])
  }

  ghost function OnFileComplete(env: Env, st: RxState, id: string, checksum: string, ok: bool): RxState {
    if id !in st.receivers || id in st.completed then st
    else
      var st1 := BeginVerify(st, id);
      var verdict := Match(BytesToHex(env.h(st.receivers[id].hashed)), checksum);
      if verdict.None? || !ok then st1 else FinishVerify(st1, id, verdict.value)
  }

  /** The digest is taken; from here on the file ignores chunks. */
  function BeginVerify(st: RxState, id: string): RxState
    requires id in st.receivers
  {
    st.(receivers := st.receivers[id := st.receivers[id].(digested := true)],
        completed := st.completed + {id},
        status := st.status[id := Verifying])
  }

  ghost function FinishVerify(st: RxState, id: string, verified: bool): RxState
    requires id in st.receivers
  {
    var rx := st.receivers[id];
    st.(receivers := st.receivers[id := rx.(sink := AfterFinalize(rx.sink, true))],
        saved := st.saved[id := Sinks.Output(rx.sink)],
        disk := AfterClose(st, id),
        status := st.status[id := if verified then Completed else Failed])
  }

  /** Closing a file stream replaces the contents of the file it was opened on. */
  function AfterClose(st: RxState, id: string): map<Name, DiskFile>
    requires id in st.receivers
  {
    var sink := st.receivers[id].sink;
    if sink.Disk? && id in st.names then st.disk[st.names[id] := DiskFile(id, sink.stream)] else st.disk
  }

  // ----- what a handler leaves alone -----

  /** One file's rows are what they were. */
  ghost predicate Untouched(st: RxState, st': RxState, id: string) {
    && (id in st'.receivers <==> id in st.receivers) && (id in st.receivers ==> st'.receivers[id] == st.receivers[id])
    && (id in st'.saved <==> id in st.saved) && (id in st.saved ==> st'.saved[id] == st.saved[id])
    && (id in st'.status <==> id in st.status) && (id in st.status ==> st'.status[id] == st.status[id])
  }

  lemma BinaryEffect(env: Env, st: RxState, data: seq<byte>, ok: bool)
    ensures var st' := OnBinary(env, st, data, ok);
            && st'.completed == st.completed && st'.saved == st.saved && st'.names == st.names && st'.disk == st.disk
            && st'.transferDone == st.transferDone && st'.receivers.Keys == st.receivers.Keys
            && forall id :: id in st.receivers && st.receivers[id].digested ==> Untouched(st, st', id)
  {}

  lemma CompleteEffect(env: Env, st: RxState, id: string, checksum: string, ok: bool)
    ensures var st' := OnFileComplete(env, st, id, checksum, ok);
            && st'.pending == st.pending && st'.names == st.names && st'.transferDone == st.transferDone
            && st'.receivers.Keys == st.receivers.Keys
            && st'.completed == (if id in st.receivers then st.completed + {id} else st.completed)
            && (id !in st.receivers || id in st.completed ==> st' == st)
            && forall other :: other != id ==> Untouched(st, st', other)
  {}

  /** The in-order fold over handled messages, each with its outcome. */
  ghost function Fold(env: Env, st: RxState, handled: seq<(FileMsg, bool)>): RxState {
    if handled == [] then st
    else
      var last := handled[|handled| - 1];
      OnMessage(env, Fold(env, st, handled[..|handled| - 1]), last.0, last.1)
  }

  // ----- the queue of asynchronous handlers -----

  /** Where the running handler is suspended. */
  datatype Task =
    | Idle
    | Decrypting(meta: Meta, data: seq<byte>)
    | Writing(meta: Meta, plain: seq<byte>)
    | Finalizing(id: string, verified: bool)
    | Logging

  /** `handled` and `current` are history: finished messages with their outcome, and the one in progress. */
  datatype Queue = Queue(rx: RxState, inbox: seq<FileMsg>, task: Task, current: FileMsg, handled: seq<(FileMsg, bool)>)

  datatype QueueEvent =
    | Arrive(m: FileMsg)       // a frame is delivered and chained on the queue
    | Begin                    // the next handler starts
    | Settle(ok: bool)         // the awaited platform call is fulfilled or rejected

  ghost function QueueStep(env: Env, q: Queue, e: QueueEvent): Queue {
    match e
    case Arrive(m) => q.(inbox := q.inbox + [m])
    case Begin => if q.task.Idle? && q.inbox != [] then BeginHandler(env, q.(current := q.inbox[0], inbox := q.inbox[1..])) else q
    case Settle(ok) => SettleHandler(env, q, ok)
  }

  /** The handler is over; a rejection is swallowed by the queue's catch. */
  function Finish(q: Queue, ok: bool): Queue {
    q.(task := Idle, handled := q.handled + [(q.current, ok)])
  }

  /** From the start of the handler to its first await. */
  function BeginHandler(env: Env, q: Queue): Queue {
    var st := q.rx;
    match q.current
    case ChunkMeta(meta) => Finish(q.(rx := st.(pending := Some(meta))), true)
    case Binary(data) =>
      if st.pending.None? then Finish(q, true)
      else
        var meta := st.pending.value;
        var q1 := q.(rx := st.(pending := None));
        if meta.fileId !in st.receivers || !Wanted(st.receivers[meta.fileId], meta.chunkIndex) then Finish(q1, true)
        else if env.cipher.Some? && meta.iv.Some? then q1.(task := Decrypting(meta, data))
        else q1.(task := Writing(meta, data))
    case FileComplete(id, checksum) =>
      if id !in st.receivers || id in st.completed then Finish(q, true)
      else
        var q1 := q.(rx := BeginVerify(st, id));
        var verdict := Match(BytesToHex(env.h(st.receivers[id].hashed)), checksum);
        if verdict.None? then Finish(q1, false) else q1.(task := Finalizing(id, verdict.value))
    case TransferComplete(_) => Finish(q.(rx := st.(transferDone := true)), true)
  }

  /** From one await to the next, or to the end. */
  ghost function SettleHandler(env: Env, q: Queue, ok: bool): Queue {
    match q.task
    case Idle => q
    case Decrypting(meta, data) =>
      var plain := Decode(env.cipher, meta.iv, data);
      if ok && plain.Some? then q.(task := Writing(meta, plain.value)) else Finish(q, false)
    case Writing(meta, plain) =>
      if ok && meta.fileId in q.rx.receivers then Finish(q.(rx := AcceptInto(q.rx, meta, plain)), true) else Finish(q, false)
    case Finalizing(id, verified) =>
      if ok && id in q.rx.receivers then q.(rx := FinishVerify(q.rx, id, verified), task := Logging) else Finish(q, false)
    case Logging => Finish(q, true)
  }

  /** What the suspended handler has done so far, on top of the finished ones. */
  ghost predicate Refines(env: Env, rx0: RxState, q: Queue) {
    Suspended(env, Fold(env, rx0, q.handled), q)
  }

  ghost predicate Suspended(env: Env, st: RxState, q: Queue) {
    match q.task
    case Idle => q.rx == st
    case Decrypting(meta, data) => q.current == Binary(data) && WantsChunk(st, q.rx, meta)
    case Writing(meta, plain) =>
      q.current.Binary? && WantsChunk(st, q.rx, meta) && Decode(env.cipher, meta.iv, q.current.data) == Some(plain)
    case Finalizing(id, verified) =>
      && q.current.FileComplete? && q.current.fileId == id
      && id in st.receivers && id !in st.completed && q.rx == BeginVerify(st, id)
      && Match(BytesToHex(env.h(st.receivers[id].hashed)), q.current.checksum) == Some(verified)
    case Logging => q.current.FileComplete? && q.rx == OnMessage(env, st, q.current, true)
  }

  ghost predicate WantsChunk(st: RxState, rx: RxState, meta: Meta) {
    && st.pending == Some(meta) && rx == st.(pending := None)
    && meta.fileId in st.receivers && Wanted(st.receivers[meta.fileId], meta.chunkIndex)
  }

  /** `q'` has finished the current handler with the effect of the whole handler. */
  ghost predicate Finished(env: Env, st: RxState, q: Queue, q': Queue) {
    exists ok :: q' == Finish(q.(rx := OnMessage(env, st, q.current, ok)), ok)
  }

  lemma BeginRefines(env: Env, q: Queue)
    requires q.task.Idle?
    ensures var q' := BeginHandler(env, q);
            Finished(env, q.rx, q, q')
            || (!q'.task.Idle? && Suspended(env, q.rx, q') && q'.current == q.current && q'.handled == q.handled && q'.inbox == q.inbox)
  {
    var q' := BeginHandler(env, q);
    if q'.task.Idle? {
      var ok := q'.handled[|q.handled|].1;
      assert q' == Finish(q.(rx := OnMessage(env, q.rx, q.current, ok)), ok);
    }
  }

  /** The next state of a handler after an await: finished as a whole, or at its next await. */
  ghost predicate Continued(env: Env, st: RxState, q: Queue, q': Queue) {
    Finished(env, st, q, q')
    || (!q'.task.Idle? && Suspended(env, st, q') && q'.current == q.current && q'.handled == q.handled && q'.inbox == q.inbox)
  }

  lemma IsFinished(env: Env, st: RxState, q: Queue, q': Queue, ok: bool)
    requires q' == Finish(q.(rx := OnMessage(env, st, q.current, ok)), ok)
    ensures Finished(env, st, q, q')
  {}

  lemma ChunkSettles(env: Env, st: RxState, q: Queue, ok: bool)
    requires (q.task.Decrypting? || q.task.Writing?) && Suspended(env, st, q)
    ensures Continued(env, st, q, SettleHandler(env, q, ok))
  {
    var q' := SettleHandler(env, q, ok);
    if q'.task.Idle? { IsFinished(env, st, q, q', q.task.Writing? && ok); }
  }

  lemma FinalizeSettles(env: Env, st: RxState, q: Queue, ok: bool)
    requires q.task.Finalizing? && Suspended(env, st, q)
    ensures Continued(env, st, q, SettleHandler(env, q, ok))
  {
    if !ok { IsFinished(env, st, q, SettleHandler(env, q, ok), false); }
  }

  lemma SettleRefines(env: Env, st: RxState, q: Queue, ok: bool)
    requires !q.task.Idle? && Suspended(env, st, q)
    ensures Continued(env, st, q, SettleHandler(env, q, ok))
  {
    match q.task {
      case Finalizing(_, _) => FinalizeSettles(env, st, q, ok);
      case Logging => IsFinished(env, st, q, SettleHandler(env, q, ok), true);
      case _ => ChunkSettles(env, st, q, ok);
    }
  }

  lemma FoldSnoc(env: Env, rx0: RxState, handled: seq<(FileMsg, bool)>, m: FileMsg, ok: bool)
    ensures Fold(env, rx0, handled + [(m, ok)]) == OnMessage(env, Fold(env, rx0, handled), m, ok)
  {
    assert (handled + [(m, ok)])[..|handled|] == handled;
  }

  lemma FinishedRefines(env: Env, rx0: RxState, q: Queue, q': Queue)
    requires Finished(env, Fold(env, rx0, q.handled), q, q')
    ensures Refines(env, rx0, q')
  {
    var ok :| q' == Finish(q.(rx := OnMessage(env, Fold(env, rx0, q.handled), q.current, ok)), ok);
    FoldSnoc(env, rx0, q.handled, q.current, ok);
  }

  lemma BeginStepRefines(env: Env, rx0: RxState, q: Queue)
    requires Refines(env, rx0, q) && q.task.Idle? && q.inbox != []
    ensures var q' := QueueStep(env, q, Begin);
            Refines(env, rx0, q') && Taken(q') + q'.inbox == Taken(q) + q.inbox
  {
    var q' := QueueStep(env, q, Begin);
    var q1 := q.(current := q.inbox[0], inbox := q.inbox[1..]);
    BeginRefines(env, q1);
    if Finished(env, q1.rx, q1, q') {
      FinishedRefines(env, rx0, q1, q');
      FinishedTakes(env, q1.rx, q1, q');
    }
    assert Messages(q.handled) + [q.inbox[0]] + q.inbox[1..] == Messages(q.handled) + q.inbox;
  }

  lemma SettleStepRefines(env: Env, rx0: RxState, q: Queue, ok: bool)
    requires Refines(env, rx0, q) && !q.task.Idle?
    ensures var q' := QueueStep(env, q, Settle(ok));
            Refines(env, rx0, q') && Taken(q') + q'.inbox == Taken(q) + q.inbox
  {
    var q' := QueueStep(env, q, Settle(ok));
    var st := Fold(env, rx0, q.handled);
    SettleRefines(env, st, q, ok);
    if Finished(env, st, q, q') {
      FinishedRefines(env, rx0, q, q');
      FinishedTakes(env, st, q, q');
    }
  }

  lemma QueueStepRefines(env: Env, rx0: RxState, q: Queue, e: QueueEvent)
    requires Refines(env, rx0, q)
    ensures var q' := QueueStep(env, q, e);
            Refines(env, rx0, q') && Taken(q') + q'.inbox == Taken(q) + q.inbox + (if e.Arrive? then [e.m] else [])
  {
    if e.Begin? && q.task.Idle? && q.inbox != [] {
      BeginStepRefines(env, rx0, q);
    } else if e.Settle? && !q.task.Idle? {
      SettleStepRefines(env, rx0, q, e.ok);
    } else if e.Arrive? {
      assert Taken(q) + (q.inbox + [e.m]) == Taken(q) + q.inbox + [e.m];
    }
  }

  lemma FinishedTakes(env: Env, st: RxState, q: Queue, q': Queue)
    requires Finished(env, st, q, q')
    ensures q'.task.Idle? && q'.inbox == q.inbox && Taken(q') == Messages(q.handled) + [q.current]
  {
    assert Messages(q'.handled) == Messages(q.handled) + [q.current];
  }

  ghost function RunQueue(env: Env, q: Queue, events: seq<QueueEvent>): Queue {
    if events == [] then q
    else QueueStep(env, RunQueue(env, q, events[..|events| - 1]), events[|events| - 1])
  }

  /** The frames that arrived, in order. */
  function Arrived(events: seq<QueueEvent>): seq<FileMsg> {
    if events == [] then []
    else
      var e := events[|events| - 1];
      Arrived(events[..|events| - 1]) + (if e.Arrive? then [e.m] else [])
  }

  function Messages(handled: seq<(FileMsg, bool)>): seq<FileMsg> {
    seq(|handled|, i requires 0 <= i < |handled| => handled[i].0)
  }

  /** Frames taken from the queue so far, the one in progress included. */
  function Taken(q: Queue): seq<FileMsg> {
    Messages(q.handled) + (if q.task.Idle? then [] else [q.current])
  }

  /**
   * However arrivals, handler starts and settling awaits interleave, and whichever
   * handlers reject: whenever no handler is suspended, the receiver is the fold of
   * its handlers over a prefix of the arrived frames, in arrival order, and the
   * rest is still queued.
   */
  lemma {:induction false} QueueIsInOrderFold(env: Env, rx0: RxState, events: seq<QueueEvent>)
    ensures var q := RunQueue(env, Queue(rx0, [], Idle, TransferComplete({}), []), events);
            && Refines(env, rx0, q)
            && Taken(q) + q.inbox == Arrived(events)
            && (q.task.Idle? ==> q.rx == Fold(env, rx0, q.handled))
  {
    if events != [] {
      var init, e := events[..|events| - 1], events[|events| - 1];
      QueueIsInOrderFold(env, rx0, init);
      var q := RunQueue(env, Queue(rx0, [], Idle, TransferComplete({}), []), init);
      QueueStepRefines(env, rx0, q, e);
    }
  }
}
