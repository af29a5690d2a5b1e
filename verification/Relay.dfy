/**
 * The signaling relay (relay.ts) over the session store: its handlers as steps, the
 * object that performs them, and who can reach whom in any run.
 */
module Relay {
  import opened Basics
  import opened Sessions

  const MIN_SESSION_TIMEOUT_SECONDS: nat := 10 * 60
  const MAX_SESSION_TIMEOUT_SECONDS: nat := 60 * 60

  // ----- payloads -----

  datatype CreatePayload = CreatePayload(displayName: string, timeoutSeconds: Option<nat>)

  predicate ValidCreate(p: CreatePayload) {
    && 1 <= |p.displayName| <= 64
    && (p.timeoutSeconds.Some? ==> MIN_SESSION_TIMEOUT_SECONDS <= p.timeoutSeconds.value <= MAX_SESSION_TIMEOUT_SECONDS)
  }

  datatype JoinPayload = JoinPayload(sessionId: Option<string>, token: Option<string>, pairingCode: Option<string>, displayName: string)

  /** joinSessionPayloadSchema with its refinement. */
  predicate ValidJoin(p: JoinPayload) {
    && (p.sessionId.Some? ==> 4 <= |p.sessionId.value| <= 32)
    && (p.token.Some? ==> 16 <= |p.token.value| <= 256)
    && (p.pairingCode.Some? ==> 4 <= |p.pairingCode.value| <= 12)
    && 1 <= |p.displayName| <= 64
    && ((p.sessionId.Some? && p.token.Some?) || p.pairingCode.Some?)
  }

  datatype Kind = Offer | Answer | IceCandidate

  /** What the server sends; `Relayed` carries a peer's description or candidate. */
  datatype Envelope =
    | SessionCreated(id: string, token: string, pairingCode: string, expiresAt: int)
    | SessionJoined(id: string, peerDisplayName: string)
    | PeerJoined(id: string, peerDisplayName: string)
    | PeerLeft(id: string)
    | SessionExpired(id: string)
    | SessionNotFound
    | Relayed(kind: Kind, id: string, payload: string)
    | Error(code: string)

  datatype Out = Out(to: Socket, envelope: Envelope)

  /** Inputs of the server.  `id`, `code` and `token` of Create are the generators' draws. */
  datatype Event =
    | Create(socket: Socket, create: CreatePayload, id: string, code: string, token: string, now: int)
    | Join(socket: Socket, join: JoinPayload, lookupAt: int, now: int)
    | Signal(socket: Socket, kind: Kind, sessionId: Option<string>, payload: string, valid: bool)
    | Disconnect(socket: Socket)
    | Sweep(now: int)

  // ----- the step relation -----

  function CreateStep(st: Store, socket: Socket, p: CreatePayload, id: string, code: string, token: string, now: int): (Store, seq<Out>) {
    if !ValidCreate(p) then (st, [Out(socket, Error("INVALID_PAYLOAD"))])
    else if id in st.byId || code in st.idByCode then (st, []) // the generator draws again
    else
      var timeout := if p.timeoutSeconds.Some? then p.timeoutSeconds.value else DEFAULT_SESSION_TIMEOUT_SECONDS;
      var s := NewSession(id, code, token, Peer(socket, p.displayName, now), now, timeout);
      (Insert(st, s), [Out(socket, SessionCreated(id, token, code, s.expiresAt))])
  }

  /** The id a join looks up: the pairing code's if one is given, else the one named. */
  function Wanted(st: Store, p: JoinPayload): Option<string> {
    if p.pairingCode.Some? then
      if p.pairingCode.value in st.idByCode then Some(st.idByCode[p.pairingCode.value]) else None
    else p.sessionId
  }

  /** The session that a join request may enter, if any; the clock is read at lookup and once more afterwards. */
  function Admits(st: Store, p: JoinPayload, lookupAt: int, now: int): Option<string> {
    if !ValidJoin(p) || Wanted(st, p).None? then None
    else
      var id := Wanted(st, p).value;
      var found := Lookup(st, id, lookupAt);
      if found.None? || Expired(found.value, now) then None
      else if p.sessionId.Some? && p.token.Some? && found.value.token != p.token.value then None
      else if found.value.consumed then None
      else Some(id)
  }

  function Refusal(st: Store, p: JoinPayload, lookupAt: int, now: int): Envelope {
    if !ValidJoin(p) then Error("INVALID_PAYLOAD")
    else if Wanted(st, p).None? || Lookup(st, Wanted(st, p).value, lookupAt).None? then SessionNotFound
    else
      var s := Lookup(st, Wanted(st, p).value, lookupAt).value;
      if Expired(s, now) then SessionExpired(s.id)
      else if p.sessionId.Some? && p.token.Some? && s.token != p.token.value then Error("INVALID_TOKEN")
      else Error("SESSION_ALREADY_JOINED")
  }

  function JoinStep(st: Store, socket: Socket, p: JoinPayload, lookupAt: int, now: int): (Store, seq<Out>) {
    var st1 := if ValidJoin(p) && Wanted(st, p).Some? then AfterLookup(st, Wanted(st, p).value, lookupAt) else st;
    var admitted := Admits(st, p, lookupAt, now);
    if admitted.None? then (st1, [Out(socket, Refusal(st, p, lookupAt, now))])
    else
      var id := admitted.value;
      var s := st.byId[id];
      (Update(st1, id, Joined(s, Peer(socket, p.displayName, now))),
       [Out(socket, SessionJoined(s.id, if s.sender.Some? then s.sender.value.displayName else "Unknown device"))]
       + (if s.sender.Some? then [Out(s.sender.value.socket, PeerJoined(s.id, p.displayName))] else []))
  }

  /** The peer across from a role. */
  function Across(s: Session, role: Role): Option<Peer> {
    if role.SenderRole? then s.receiver else s.sender
  }

  function SignalOut(st: Store, socket: Socket, kind: Kind, sessionId: Option<string>, payload: string, valid: bool): seq<Out> {
    if !valid || sessionId.None? || sessionId.value == "" then [Out(socket, Error("INVALID_PAYLOAD"))]
    else
      var found := FindIn(st.byId, st.order, socket);
      if found.None? || st.byId[found.value.0].id != sessionId.value then [Out(socket, Error("NOT_IN_SESSION"))]
      else
        var peer := Across(st.byId[found.value.0], found.value.1);
        if peer.None? then (if kind.IceCandidate? then [] else [Out(socket, Error("PEER_NOT_CONNECTED"))])
        else [Out(peer.value.socket, Relayed(kind, sessionId.value, payload))]
  }

  function DisconnectStep(st: Store, socket: Socket): (Store, seq<Out>) {
    var found := FindIn(st.byId, st.order, socket);
    if found.None? then (st, [])
    else
      var id, role := found.value.0, found.value.1;
      var s := st.byId[id];
      var outs := if Across(s, role).Some? then [Out(Across(s, role).value.socket, PeerLeft(s.id))] else [];
      (if role.SenderRole? then Destroy(st, id) else Update(st, id, s.(receiver := None, consumed := false)), outs)
  }

  function Step(st: Store, e: Event): (Store, seq<Out>) {
    match e
    case Create(socket, p, id, code, token, now) => CreateStep(st, socket, p, id, code, token, now)
    case Join(socket, p, lookupAt, now) => JoinStep(st, socket, p, lookupAt, now)
    case Signal(socket, kind, sessionId, payload, valid) => (st, SignalOut(st, socket, kind, sessionId, payload, valid))
    case Disconnect(socket) => DisconnectStep(st, socket)
    case Sweep(now) => (SweepIn(st, st.order, now), SweepOut(Notices(st, st.order, now)))
  }

  function SweepOut(notices: seq<(Socket, string)>): (outs: seq<Out>)
    ensures |outs| == |notices|
    ensures forall i :: 0 <= i < |outs| ==> outs[i] == Out(notices[i].0, SessionExpired(notices[i].1))
  {
    seq(|notices|, i requires 0 <= i < |notices| => Out(notices[i].0, SessionExpired(notices[i].1)))
  }

  /** The store after a run from the empty one. */
  function StoreAfter(events: seq<Event>): Store {
    if events == [] then Store(map[], [], map[])
    else Step(StoreAfter(events[..|events| - 1]), events[|events| - 1]).0
  }

  // ----- the invariant -----

  lemma StepKeepsValid(st: Store, e: Event)
    requires Valid(st)
    ensures Valid(Step(st, e).0)
  {
    match e
    case Create(socket, p, id, code, token, now) =>
      if ValidCreate(p) && id !in st.byId && code !in st.idByCode {
        InsertKeepsValid(st, NewSession(id, code, token, Peer(socket, p.displayName, now), now,
                                        if p.timeoutSeconds.Some? then p.timeoutSeconds.value else DEFAULT_SESSION_TIMEOUT_SECONDS));
      }
    case Join(socket, p, lookupAt, now) => JoinKeepsValid(st, socket, p, lookupAt, now);
    case Signal(_, _, _, _, _) =>
    case Disconnect(socket) => DisconnectKeepsValid(st, socket);
    case Sweep(now) => SweepKeepsValid(st, st.order, now);
  }

  lemma JoinKeepsValid(st: Store, socket: Socket, p: JoinPayload, lookupAt: int, now: int)
    requires Valid(st)
    ensures Valid(JoinStep(st, socket, p, lookupAt, now).0)
  {
    if Wanted(st, p).Some? { DestroyKeepsValid(st, Wanted(st, p).value); }
    var admitted := Admits(st, p, lookupAt, now);
    if admitted.Some? {
      UpdateKeepsValid(st, admitted.value, Joined(st.byId[admitted.value], Peer(socket, p.displayName, now)));
    }
  }

  lemma DisconnectKeepsValid(st: Store, socket: Socket)
    requires Valid(st)
    ensures Valid(DisconnectStep(st, socket).0)
  {
    var found := FindIn(st.byId, st.order, socket);
    if found.Some? {
      var id := found.value.0;
      DestroyKeepsValid(st, id);
      UpdateKeepsValid(st, id, st.byId[id].(receiver := None, consumed := false));
    }
  }

  /**
   * In every reachable state: the id map and the pairing-code map are inverse to
   * each other, iteration lists every session once, every session has a sender, and
   * it is consumed exactly while it has a receiver.
   */
  lemma {:induction false} ReachableIsValid(events: seq<Event>)
    ensures Valid(StoreAfter(events))
  {
    if events != [] {
      ReachableIsValid(events[..|events| - 1]);
      StepKeepsValid(StoreAfter(events[..|events| - 1]), events[|events| - 1]);
    }
  }

  // ----- admission -----

  /** The request presents the session's pairing code, or its id and token, before it expires. */
  ghost predicate Presents(p: JoinPayload, s: Session, now: int) {
    && now <= s.expiresAt
    && (p.pairingCode == Some(s.pairingCode) || (p.sessionId == Some(s.id) && p.token == Some(s.token)))
  }

  /** Event j was the join by which the session's present receiver entered, and the session has not changed since. */
  ghost predicate EnteredAt(events: seq<Event>, id: string, s: Session, j: nat) {
    && j < |events| && events[j].Join? && s.receiver.Some?
    && Admits(StoreAfter(events[..j]), events[j].join, events[j].lookupAt, events[j].now) == Some(id)
    && s.receiver.value.socket == events[j].socket
    && Presents(events[j].join, s, events[j].now)
    && forall k :: j < k <= |events| ==> HasSession(StoreAfter(events[..k]), id, s)
  }

  predicate HasSession(st: Store, id: string, s: Session) {
    id in st.byId && st.byId[id] == s
  }

  lemma AdmissionPresents(st: Store, p: JoinPayload, lookupAt: int, now: int)
    requires Valid(st) && Admits(st, p, lookupAt, now).Some?
    ensures var id := Admits(st, p, lookupAt, now).value;
            id in st.byId && !st.byId[id].consumed && Presents(p, st.byId[id], now)
  {}

  /** The request names the session, and every credential in it that is looked at is right, before the session expires. */
  predicate Entitled(p: JoinPayload, s: Session, lookupAt: int, now: int) {
    && !Expired(s, lookupAt) && !Expired(s, now)
    && (if p.pairingCode.Some? then p.pairingCode.value == s.pairingCode else p.sessionId == Some(s.id))
    && (p.sessionId.Some? && p.token.Some? ==> p.token.value == s.token)
  }

  /** Exactly who gets in: a valid request with the right credentials, to a session without a receiver, first or not. */
  lemma AdmittedIff(st: Store, p: JoinPayload, lookupAt: int, now: int, id: string)
    requires Valid(st) && id in st.byId
    ensures Admits(st, p, lookupAt, now) == Some(id)
            <==> ValidJoin(p) && Entitled(p, st.byId[id], lookupAt, now) && st.byId[id].receiver.None?
  {
    assert st.idByCode[st.byId[id].pairingCode] == id;
  }

  /** A session that has a receiver after a step had the same one before, or the step is the join that let it in. */
  lemma ReceiverAppears(st: Store, e: Event, id: string)
    requires Valid(st)
    requires id in Step(st, e).0.byId && Step(st, e).0.byId[id].receiver.Some?
    ensures (id in st.byId && Step(st, e).0.byId[id] == st.byId[id])
            || (e.Join? && Admits(st, e.join, e.lookupAt, e.now) == Some(id) && id in st.byId
                && Step(st, e).0.byId[id] == Joined(st.byId[id], Peer(e.socket, e.join.displayName, e.now)))
  {
    match e
    case Sweep(now) => SweepRemovesExpired(st, st.order, now);
    case _ =>
  }

  lemma Extended(events: seq<Event>, e: Event, id: string, s: Session, j: nat)
    requires EnteredAt(events, id, s, j)
    requires HasSession(StoreAfter(events + [e]), id, s)
    ensures EnteredAt(events + [e], id, s, j)
  {
    var all := events + [e];
    assert all[..j] == events[..j] && all[j] == events[j];
    forall k | j < k <= |all|
      ensures HasSession(StoreAfter(all[..k]), id, s)
    {
      if k <= |events| {
        assert all[..k] == events[..k];
      } else {
        assert all[..k] == all;
      }
    }
  }

  lemma JoinedPresents(st: Store, e: Event, id: string)
    requires Valid(st) && e.Join? && Admits(st, e.join, e.lookupAt, e.now) == Some(id) && id in st.byId
    ensures Presents(e.join, Joined(st.byId[id], Peer(e.socket, e.join.displayName, e.now)), e.now)
  {
    AdmissionPresents(st, e.join, e.lookupAt, e.now);
  }

  lemma EnteredLast(events: seq<Event>, id: string, s: Session, j: nat)
    requires |events| == j + 1 && events[j].Join? && s.receiver.Some? && s.receiver.value.socket == events[j].socket
    requires Admits(StoreAfter(events[..j]), events[j].join, events[j].lookupAt, events[j].now) == Some(id)
    requires Presents(events[j].join, s, events[j].now) && HasSession(StoreAfter(events), id, s)
    ensures EnteredAt(events, id, s, j)
  {
    assert events[..j + 1] == events;
  }

  lemma {:induction false} ReceiverEntered(events: seq<Event>, id: string) returns (j: nat)
    requires id in StoreAfter(events).byId && StoreAfter(events).byId[id].receiver.Some?
    ensures EnteredAt(events, id, StoreAfter(events).byId[id], j)
  {
    var init, e := events[..|events| - 1], events[|events| - 1];
    var st, s := StoreAfter(init), StoreAfter(events).byId[id];
    assert events == init + [e];
    ReachableIsValid(init);
    ReceiverAppears(st, e, id);
    if id in st.byId && s == st.byId[id] {
      j := ReceiverEntered(init, id);
      Extended(init, e, id, s, j);
    } else {
      j := |init|;
      JoinedPresents(st, e, id);
      EnteredLast(events, id, s, j);
    }
  }

  // ----- isolation -----

  /** The two sockets are the two roles of the session. */
  ghost predicate Partners(s: Session, a: Socket, b: Socket) {
    && s.sender.Some? && s.receiver.Some?
    && ((s.sender.value.socket == a && s.receiver.value.socket == b) || (s.sender.value.socket == b && s.receiver.value.socket == a))
  }

  lemma SweepOnlyExpires(notices: seq<(Socket, string)>)
    ensures forall out :: out in SweepOut(notices) ==> out.envelope.SessionExpired?
  {}

  /** A description or candidate goes only from one role of a stored session to the other, under the id it names. */
  lemma RelayedToPartner(st: Store, e: Event, out: Out)
    requires Valid(st) && out in Step(st, e).1 && out.envelope.Relayed?
    ensures e.Signal? && e.sessionId == Some(out.envelope.id) && out.envelope.id in st.byId
            && out.envelope.kind == e.kind && out.envelope.payload == e.payload
            && Partners(st.byId[out.envelope.id], e.socket, out.to)
  {
    match e {
      case Signal(socket, kind, sessionId, payload, valid) => SignalToPartner(st, socket, kind, sessionId, payload, valid, out);
      case Sweep(now) => SweepOnlyExpires(Notices(st, st.order, now));
      case _ => OthersRelayNothing(st, e, out);
    }
  }

  lemma OthersRelayNothing(st: Store, e: Event, out: Out)
    requires !e.Sweep? && !e.Signal? && out in Step(st, e).1
    ensures !out.envelope.Relayed?
  {}

  lemma SignalToPartner(st: Store, socket: Socket, kind: Kind, sessionId: Option<string>, payload: string, valid: bool, out: Out)
    requires Valid(st) && out in SignalOut(st, socket, kind, sessionId, payload, valid) && out.envelope.Relayed?
    ensures sessionId == Some(out.envelope.id) && out.envelope.id in st.byId
            && out.envelope.kind == kind && out.envelope.payload == payload
            && Partners(st.byId[out.envelope.id], socket, out.to)
  {}

  /**
   * Isolation, in every run: whatever reaches a socket from another one was sent by
   * its partner in one stored session that the sender named, and the receiver of
   * that session got in by presenting the pairing code or the token before expiry
   * and has been its receiver ever since.
   */
  lemma RelayIsolation(events: seq<Event>, e: Event, out: Out) returns (j: nat)
    requires out in Step(StoreAfter(events), e).1 && out.envelope.Relayed?
    ensures var st := StoreAfter(events);
            && e.Signal? && e.sessionId == Some(out.envelope.id) && out.envelope.id in st.byId
            && Partners(st.byId[out.envelope.id], e.socket, out.to)
            && EnteredAt(events, out.envelope.id, st.byId[out.envelope.id], j)
  {
    ReachableIsValid(events);
    RelayedToPartner(StoreAfter(events), e, out);
    j := ReceiverEntered(events, out.envelope.id);
  }

  // ----- the link between two peers -----

  /** The session is stored with both of its ends: its signals are relayed. */
  predicate Linked(st: Store, id: string) {
    id in st.byId && st.byId[id].receiver.Some?
  }

  /** A signal reaches somebody only through a linked session. */
  lemma RelayedMeansLinked(st: Store, e: Event, out: Out)
    requires Valid(st) && out in Step(st, e).1 && out.envelope.Relayed?
    ensures e.Signal? && e.sessionId == Some(out.envelope.id) && Linked(st, out.envelope.id)
  {
    RelayedToPartner(st, e, out);
  }

  /** Whoever hears that the peer left, or that the session expired in a sweep, is told about a session no longer linked. */
  lemma NoticeMeansUnlinked(st: Store, e: Event, out: Out, id: string)
    requires Valid(st) && out in Step(st, e).1
    requires out.envelope == PeerLeft(id) || (e.Sweep? && out.envelope == SessionExpired(id))
    ensures !Linked(Step(st, e).0, id)
  {
    match e {
      case Sweep(now) =>
        SweepOnlyExpires(Notices(st, st.order, now));
        SweptIsGone(st, now, out, id);
      case Disconnect(socket) => LeftIsUnlinked(st, socket, out, id);
      case _ => OthersDoNotLeave(st, e, out);
    }
  }

  lemma OthersDoNotLeave(st: Store, e: Event, out: Out)
    requires !e.Sweep? && !e.Disconnect? && out in Step(st, e).1
    ensures !out.envelope.PeerLeft?
  {}

  lemma LeftIsUnlinked(st: Store, socket: Socket, out: Out, id: string)
    requires Valid(st) && out in DisconnectStep(st, socket).1 && out.envelope == PeerLeft(id)
    ensures !Linked(DisconnectStep(st, socket).0, id)
  {}

  lemma SweptIsGone(st: Store, now: int, out: Out, id: string)
    requires Valid(st) && out in SweepOut(Notices(st, st.order, now)) && out.envelope.SessionExpired? && out.envelope.id == id
    ensures id !in SweepIn(st, st.order, now).byId
  {
    var notices := Notices(st, st.order, now);
    var k :| 0 <= k < |notices| && SweepOut(notices)[k] == out;
    assert notices[k] in notices;
    OnlyExpiredAreNotified(st, st.order, now, notices[k]);
  }

  /** The sender's own socket closes: its session is gone. */
  lemma SenderGoneUnlinks(st: Store, socket: Socket, id: string)
    requires Valid(st) && FindIn(st.byId, st.order, socket) == Some((id, SenderRole))
    ensures id !in DisconnectStep(st, socket).0.byId
  {}

  /** After the first n events nobody joins the session. */
  predicate NobodyJoins(events: seq<Event>, n: nat, id: string) {
    |events| <= n
    || (&& NobodyJoins(events[..|events| - 1], n, id)
        && !JoinsSession(StoreAfter(events[..|events| - 1]), events[|events| - 1], id))
  }

  /**
   * The link does not come back by itself: if it is not there after the first n events
   * of a run, and nobody joins that session later, it is not there at the end.
   */
  lemma {:induction false} LinkStaysLost(events: seq<Event>, n: nat, id: string)
    requires n <= |events| && !Linked(StoreAfter(events[..n]), id) && NobodyJoins(events, n, id)
    ensures !Linked(StoreAfter(events), id)
  {
    if n == |events| {
      assert events[..n] == events;
    } else {
      var init := events[..|events| - 1];
      assert init[..n] == events[..n];
      LinkStaysLost(init, n, id);
      ReachableIsValid(init);
      StaysUnlinked(StoreAfter(init), events[|init|], id);
    }
  }

  lemma StaysUnlinked(st: Store, e: Event, id: string)
    requires Valid(st) && !Linked(st, id) && !JoinsSession(st, e, id)
    ensures !Linked(Step(st, e).0, id)
  {
    if Linked(Step(st, e).0, id) { ReceiverAppears(st, e, id); }
  }

  // ----- joins and departures alternate -----

  /** Event e lets a receiver into session id. */
  predicate JoinsSession(st: Store, e: Event, id: string) {
    e.Join? && Admits(st, e.join, e.lookupAt, e.now) == Some(id)
  }

  /** Event e is the departure of the receiver of session id. */
  predicate LeavesSession(st: Store, e: Event, id: string) {
    e.Disconnect? && FindIn(st.byId, st.order, e.socket) == Some((id, ReceiverRole))
  }

  predicate CreatesSession(st: Store, e: Event, id: string) {
    e.Create? && e.id == id && ValidCreate(e.create) && id !in st.byId && e.code !in st.idByCode
  }

  /** Successful joins minus departures since the session was created. */
  function Balance(events: seq<Event>, id: string): int {
    if events == [] then 0
    else
      var init, e := events[..|events| - 1], events[|events| - 1];
      var st := StoreAfter(init);
      if CreatesSession(st, e, id) then 0
      else Balance(init, id) + Change(st, e, id)
  }

  function Flag(b: bool): int {
    if b then 1 else 0
  }

  /** What an event does to the number of receivers of a session that is stored before and after. */
  function Change(st: Store, e: Event, id: string): int {
    if JoinsSession(st, e, id) then 1 else if LeavesSession(st, e, id) then -1 else 0
  }

  lemma BalanceStep(st: Store, e: Event, id: string)
    requires Valid(st) && id in Step(st, e).0.byId
    ensures var after := Flag(Step(st, e).0.byId[id].consumed);
            if CreatesSession(st, e, id) then after == 0
            else id in st.byId && after == Flag(st.byId[id].consumed) + Change(st, e, id)
  {
    if e.Sweep? {
      SweepRemovesExpired(st, st.order, e.now);
    } else if e.Join? {
      BalanceOfJoin(st, e, id);
    } else if e.Disconnect? {
      BalanceOfDisconnect(st, e, id);
    }
  }

  lemma BalanceOfJoin(st: Store, e: Event, id: string)
    requires Valid(st) && e.Join? && id in Step(st, e).0.byId
    ensures id in st.byId && Flag(Step(st, e).0.byId[id].consumed) == Flag(st.byId[id].consumed) + Change(st, e, id)
  {}

  lemma BalanceOfDisconnect(st: Store, e: Event, id: string)
    requires Valid(st) && e.Disconnect? && id in Step(st, e).0.byId
    ensures id in st.byId && Flag(Step(st, e).0.byId[id].consumed) == Flag(st.byId[id].consumed) + Change(st, e, id)
  {}

  lemma {:induction false} BalanceIsConsumed(events: seq<Event>, id: string)
    requires id in StoreAfter(events).byId
    ensures Balance(events, id) == Flag(StoreAfter(events).byId[id].consumed)
  {
    var init, e := events[..|events| - 1], events[|events| - 1];
    ReachableIsValid(init);
    BalanceStep(StoreAfter(init), e, id);
    if !CreatesSession(StoreAfter(init), e, id) {
      BalanceIsConsumed(init, id);
    }
  }

  /** Joins and departures strictly alternate: a join succeeds only at balance 0, the receiver departs only at balance 1. */
  lemma JoinsAlternateWithDepartures(events: seq<Event>, e: Event, id: string)
    ensures JoinsSession(StoreAfter(events), e, id) ==> Balance(events, id) == 0
    ensures LeavesSession(StoreAfter(events), e, id) ==> Balance(events, id) == 1
  {
    var st := StoreAfter(events);
    ReachableIsValid(events);
    if JoinsSession(st, e, id) || LeavesSession(st, e, id) {
      BalanceIsConsumed(events, id);
    }
  }

  // ----- a token admits more than once -----

  const CREATED: Event := Create(1, CreatePayload("sender", None), "session", "code", "0123456789abcdef", 0)

  /** A join with the session's id and token. */
  function ByToken(socket: Socket): Event {
    Join(socket, JoinPayload(Some("session"), Some("0123456789abcdef"), None, "receiver"), 1, 1)
  }

  function TheSession(receiver: Option<Peer>): Store {
    Store(map["session" := Session("session", "0123456789abcdef", "code", 0, DEFAULT_SESSION_TIMEOUT_SECONDS * 1000,
                                   receiver.Some?, Some(Peer(1, "sender", 0)), receiver)],
          ["session"], map["code" := "session"])
  }

  lemma AfterOne(e: Event)
    ensures StoreAfter([e]) == Step(Store(map[], [], map[]), e).0
  {
    assert [e][..0] == [];
  }

  lemma AfterMore(events: seq<Event>, e: Event)
    ensures StoreAfter(events + [e]) == Step(StoreAfter(events), e).0
  {
    assert (events + [e])[..|events|] == events;
  }

  lemma SessionCreatedFirst()
    ensures StoreAfter([CREATED]) == TheSession(None)
  {
    AfterOne(CREATED);
  }

  lemma JoinedByToken(socket: Socket)
    ensures JoinsSession(TheSession(None), ByToken(socket), "session")
    ensures Step(TheSession(None), ByToken(socket)).0 == TheSession(Some(Peer(socket, "receiver", 1)))
  {
    assert TheSession(None).byId["session"].id == "session";
  }

  lemma ReceiverGone(socket: Socket)
    requires socket != 1
    ensures Step(TheSession(Some(Peer(socket, "receiver", 1))), Disconnect(socket)).0 == TheSession(None)
  {
    var st := TheSession(Some(Peer(socket, "receiver", 1)));
    assert FindIn(st.byId, st.order, socket) == Some(("session", ReceiverRole));
  }

  /** Create, join, disconnect, join: the same token lets a second receiver in. */
  lemma TokenAdmitsAgain()
    ensures JoinsSession(StoreAfter([CREATED]), ByToken(2), "session")
    ensures JoinsSession(StoreAfter([CREATED, ByToken(2), Disconnect(2)]), ByToken(3), "session")
  {
    SessionCreatedFirst();
    JoinedByToken(2);
    AfterMore([CREATED], ByToken(2));
    ReceiverGone(2);
    AfterMore([CREATED] + [ByToken(2)], Disconnect(2));
    assert [CREATED, ByToken(2), Disconnect(2)] == [CREATED] + [ByToken(2)] + [Disconnect(2)];
    JoinedByToken(3);
  }

  // ----- what a disconnect cleans up -----

  lemma {:induction false} FindsIfPresent(byId: map<string, Session>, order: seq<string>, socket: Socket, id: string)
    requires id in order && id in byId && RoleOf(byId[id], socket).Some?
    ensures FindIn(byId, order, socket).Some?
  {
    if order[0] != id { FindsIfPresent(byId, order[1..], socket, id); }
  }

  /** A stored session in which the socket plays a role. */
  predicate PlaysIn(st: Store, socket: Socket, id: string) {
    id in st.byId && RoleOf(st.byId[id], socket).Some?
  }

  /**
   * A disconnect cleans up one session only: the socket has no role left afterwards
   * exactly when it had a role in at most one stored session.
   */
  lemma DisconnectCleansUpIff(st: Store, socket: Socket)
    requires Valid(st)
    ensures (forall id :: !PlaysIn(DisconnectStep(st, socket).0, socket, id))
            <==> (forall id, id' :: PlaysIn(st, socket, id) && PlaysIn(st, socket, id') ==> id == id')
  {
    var found, after := FindIn(st.byId, st.order, socket), DisconnectStep(st, socket).0;
    if found.Some? {
      var first := found.value.0;
      forall id
        ensures PlaysIn(after, socket, id) <==> PlaysIn(st, socket, id) && id != first
      {
      }
      assert PlaysIn(st, socket, first);
    } else {
      forall id | id in st.byId
        ensures !PlaysIn(st, socket, id)
      {
        if PlaysIn(st, socket, id) { FindsIfPresent(st.byId, st.order, socket, id); }
      }
    }
  }

  const SECOND: Event := Create(1, CreatePayload("sender", None), "another", "other", "0123456789abcdef", 0)

  lemma TwoSessions()
    ensures var st := Step(TheSession(None), SECOND).0;
            st.order == ["session", "another"] && PlaysIn(st, 1, "session") && PlaysIn(st, 1, "another")
  {}

  lemma FirstIsFound(st: Store)
    requires st.order == ["session", "another"] && PlaysIn(st, 1, "session") && PlaysIn(st, 1, "another")
    ensures PlaysIn(DisconnectStep(st, 1).0, 1, "another")
  {
    assert FindIn(st.byId, st.order, 1).value.0 == "session";
  }

  /** One socket, two sessions, then gone: the second session keeps its dead sender. */
  lemma DisconnectLeavesDeadSender()
    ensures PlaysIn(StoreAfter([CREATED, SECOND, Disconnect(1)]), 1, "another")
  {
    SessionCreatedFirst();
    AfterMore([CREATED], SECOND);
    TwoSessions();
    FirstIsFound(StoreAfter([CREATED] + [SECOND]));
    AfterMore([CREATED] + [SECOND], Disconnect(1));
    assert [CREATED, SECOND, Disconnect(1)] == [CREATED] + [SECOND] + [Disconnect(1)];
  }

  // ----- the relay object -----

  class SignalingRelay {
    const sessions: SessionManager
    var sent: seq<Out>

    constructor (sessions: SessionManager)
      ensures this.sessions == sessions && sent == []
    {
      this.sessions, sent := sessions, [];
    }

    method Send(to: Socket, envelope: Envelope)
      modifies this
      ensures sent == old(sent) + [Out(to, envelope)]
    {
      sent := sent + [Out(to, envelope)];
    }

    method FindForJoin(p: JoinPayload, lookupAt: int) returns (session: Option<Session>)
      requires ValidJoin(p)
      modifies sessions
      ensures var st, wanted := old(sessions.View()), Wanted(old(sessions.View()), p);
              && session == (if wanted.Some? then Lookup(st, wanted.value, lookupAt) else None)
              && sessions.View() == (if wanted.Some? then AfterLookup(st, wanted.value, lookupAt) else st)
    {
      if p.pairingCode.Some? {
        session := sessions.ResolvePairingCode(p.pairingCode.value, lookupAt);
      } else {
        session := sessions.GetById(p.sessionId.value, lookupAt);
      }
    }

    method HandleJoinSession(socket: Socket, p: JoinPayload, lookupAt: int, now: int)
      requires Valid(sessions.View())
      modifies this, sessions
      ensures sessions.View() == JoinStep(old(sessions.View()), socket, p, lookupAt, now).0
      ensures sent == old(sent) + JoinStep(old(sessions.View()), socket, p, lookupAt, now).1
    {
      if !ValidJoin(p) {
        Send(socket, Error("INVALID_PAYLOAD"));
        return;
      }
      var session := FindForJoin(p, lookupAt);
      if session.None? {
        Send(socket, SessionNotFound);
        return;
      }
      var s := session.value;
      if Expired(s, now) {
        Send(socket, SessionExpired(s.id));
        return;
      }
      if p.sessionId.Some? && p.token.Some? && s.token != p.token.value {
        Send(socket, Error("INVALID_TOKEN"));
        return;
      }
      if s.consumed {
        Send(socket, Error("SESSION_ALREADY_JOINED"));
        return;
      }
      sessions.JoinAsReceiver(s.id, Peer(socket, p.displayName, now));
      Send(socket, SessionJoined(s.id, if s.sender.Some? then s.sender.value.displayName else "Unknown device"));
      if s.sender.Some? {
        Send(s.sender.value.socket, PeerJoined(s.id, p.displayName));
      }
    }

    /** OFFER, ANSWER and ICE_CANDIDATE. */
    method HandleSignal(socket: Socket, kind: Kind, sessionId: Option<string>, payload: string, valid: bool)
      modifies this
      ensures sent == old(sent) + Step(sessions.View(), Signal(socket, kind, sessionId, payload, valid)).1
      ensures sessions.View() == Step(old(sessions.View()), Signal(socket, kind, sessionId, payload, valid)).0
    {
      if !valid || sessionId.None? || sessionId.value == "" {
        Send(socket, Error("INVALID_PAYLOAD"));
        return;
      }
      var found := sessions.FindSessionBySocket(socket);
      if found.None? || sessions.sessionsById[found.value.0].id != sessionId.value {
        Send(socket, Error("NOT_IN_SESSION"));
        return;
      }
      var session := sessions.sessionsById[found.value.0];
      var peer := if found.value.1.SenderRole? then session.receiver else session.sender;
      if peer.None? {
        if !kind.IceCandidate? {
          Send(socket, Error("PEER_NOT_CONNECTED"));
        }
        return;
      }
      Send(peer.value.socket, Relayed(kind, sessionId.value, payload));
    }

    method HandleDisconnect(socket: Socket)
      modifies this, sessions
      ensures sessions.View() == Step(old(sessions.View()), Disconnect(socket)).0
      ensures sent == old(sent) + Step(old(sessions.View()), Disconnect(socket)).1
    {
      var found := sessions.FindSessionBySocket(socket);
      if found.None? {
        return;
      }
      var (id, role) := found.value;
      var session := sessions.sessionsById[id];
      var other := if role.SenderRole? then session.receiver else session.sender;
      if other.Some? {
        Send(other.value.socket, PeerLeft(session.id));
      }
      if role.SenderRole? {
        sessions.DestroySession(id);
      } else {
        sessions.sessionsById := sessions.sessionsById[id := session.(receiver := None, consumed := false)];
      }
    }

    /** Which draws of the generators end up in use is the store's choice; the step is the one for those. */
    method HandleCreateSession(socket: Socket, p: CreatePayload, token: string, now: int, ids: seq<string>, codes: seq<string>)
      returns (created: Option<Session>)
      modifies this, sessions
      ensures !ValidCreate(p) ==> created == None && sessions.View() == old(sessions.View())
                                  && sent == old(sent) + [Out(socket, Error("INVALID_PAYLOAD"))]
      ensures created.Some? ==>
                var e := Create(socket, p, created.value.id, created.value.pairingCode, token, now);
                && CreatesSession(old(sessions.View()), e, created.value.id)
                && sessions.View() == Step(old(sessions.View()), e).0
                && sent == old(sent) + Step(old(sessions.View()), e).1
      ensures ValidCreate(p) && created.None? ==>
                && sessions.View() == old(sessions.View()) && sent == old(sent)
                && ((forall k :: 0 <= k < |ids| ==> ids[k] in old(sessions.sessionsById))
                    || (forall k :: 0 <= k < |codes| ==> codes[k] in old(sessions.sessionIdByPairingCode)))
    {
      if !ValidCreate(p) {
        Send(socket, Error("INVALID_PAYLOAD"));
        return None;
      }
      created := sessions.CreateSession(Peer(socket, p.displayName, now), token, p.timeoutSeconds, now, ids, codes);
      if created.Some? {
        var s := created.value;
        Send(socket, SessionCreated(s.id, s.token, s.pairingCode, s.expiresAt));
      }
    }
  }
}
