/**
 * The in-memory session store of the signaling server (sessionManager.ts): two
 * dictionaries that must stay inverse to each other, expiry and the sweep.
 */
module Sessions {
  import opened Basics

  const DEFAULT_SESSION_TIMEOUT_SECONDS: nat := 30 * 60

  type Socket = nat

  datatype Peer = Peer(socket: Socket, displayName: string, joinedAt: int)

  datatype Session = Session(
    id: string, token: string, pairingCode: string, createdAt: int, expiresAt: int,
    consumed: bool, sender: Option<Peer>, receiver: Option<Peer>)

  datatype Role = SenderRole | ReceiverRole

  /** `order` is the insertion order that a JavaScript Map keeps and that iteration follows. */
  datatype Store = Store(byId: map<string, Session>, order: seq<string>, idByCode: map<string, string>)

  // ----- what must hold -----

  /** The two dictionaries are inverse to each other. */
  ghost predicate Inverse(st: Store) {
    && (forall id :: id in st.byId ==>
          st.byId[id].id == id && st.byId[id].pairingCode in st.idByCode && st.idByCode[st.byId[id].pairingCode] == id)
    && (forall code :: code in st.idByCode ==>
          st.idByCode[code] in st.byId && st.byId[st.idByCode[code]].pairingCode == code)
  }

  /** The iteration order lists every stored id once. */
  ghost predicate Listed(st: Store) {
    Distinct(st.order) && forall id :: id in st.order <==> id in st.byId
  }

  /** Every stored session has a sender, and it is consumed exactly while it has a receiver. */
  ghost predicate Healthy(st: Store) {
    forall id :: id in st.byId ==> st.byId[id].sender.Some? && (st.byId[id].consumed <==> st.byId[id].receiver.Some?)
  }

  ghost predicate Valid(st: Store) {
    Inverse(st) && Listed(st) && Healthy(st)
  }

  // ----- operations -----

  function Expired(s: Session, now: int): bool {
    now > s.expiresAt
  }

  function NewSession(id: string, code: string, token: string, sender: Peer, now: int, timeoutSeconds: nat): Session {
    Session(id, token, code, now, now + timeoutSeconds * 1000, false, Some(sender), None)
  }

  function Insert(st: Store, s: Session): Store {
    Store(st.byId[s.id := s], st.order + [s.id], st.idByCode[s.pairingCode := s.id])
  }

  /** The order without one id. */
  function Without(order: seq<string>, id: string): (r: seq<string>) {
    if order == [] then []
    else if order[|order| - 1] == id then Without(order[..|order| - 1], id)
    else Without(order[..|order| - 1], id) + [order[|order| - 1]]
  }

  function Destroy(st: Store, id: string): Store {
    if id !in st.byId then st
    else Store(st.byId - {id}, Without(st.order, id), st.idByCode - {st.byId[id].pairingCode})
  }

  /** Looking an expired session up destroys it. */
  function AfterLookup(st: Store, id: string, now: int): Store {
    if id in st.byId && Expired(st.byId[id], now) then Destroy(st, id) else st
  }

  function Lookup(st: Store, id: string, now: int): Option<Session> {
    if id in st.byId && !Expired(st.byId[id], now) then Some(st.byId[id]) else None
  }

  function Update(st: Store, id: string, s: Session): Store {
    st.(byId := st.byId[id := s])
  }

  function Joined(s: Session, receiver: Peer): Session {
    s.(receiver := Some(receiver), consumed := true)
  }

  function RoleOf(s: Session, socket: Socket): Option<Role> {
    if s.sender.Some? && s.sender.value.socket == socket then Some(SenderRole)
    else if s.receiver.Some? && s.receiver.value.socket == socket then Some(ReceiverRole)
    else None
  }

  /** The first session in iteration order that the socket plays a role in. */
  function FindIn(byId: map<string, Session>, order: seq<string>, socket: Socket): (r: Option<(string, Role)>)
    ensures r.Some? ==> r.value.0 in order && r.value.0 in byId && RoleOf(byId[r.value.0], socket) == Some(r.value.1)
  {
    if order == [] then None
    else if order[0] in byId && RoleOf(byId[order[0]], socket).Some?
    then Some((order[0], RoleOf(byId[order[0]], socket).value))
    else FindIn(byId, order[1..], socket)
  }

  function SweepIn(st: Store, order: seq<string>, now: int): Store
    decreases |order|
  {
    if order == [] then st
    else SweepIn(AfterLookup(st, order[0], now), order[1..], now)
  }

  // ----- preservation -----

  lemma {:induction false} WithoutElements(order: seq<string>, id: string)
    ensures forall x :: x in Without(order, id) <==> x in order && x != id
    ensures Distinct(order) ==> Distinct(Without(order, id))
  {
    if order != [] {
      var init, last := order[..|order| - 1], order[|order| - 1];
      assert order == init + [last];
      WithoutElements(init, id);
      if Distinct(order) {
        forall i | 0 <= i < |init| ensures init[i] != last { assert order[i] != order[|order| - 1]; }
        assert last !in init;
      }
    }
  }

  lemma InsertKeepsValid(st: Store, s: Session)
    requires Valid(st) && s.id !in st.byId && s.pairingCode !in st.idByCode
    requires s.sender.Some? && (s.consumed <==> s.receiver.Some?)
    ensures Valid(Insert(st, s))
  {
    assert s.id !in st.order;
  }

  lemma DestroyKeepsValid(st: Store, id: string)
    requires Valid(st)
    ensures Valid(Destroy(st, id))
  {
    WithoutElements(st.order, id);
  }

  lemma UpdateKeepsValid(st: Store, id: string, s: Session)
    requires Valid(st) && id in st.byId && s.id == id && s.pairingCode == st.byId[id].pairingCode
    requires s.sender.Some? && (s.consumed <==> s.receiver.Some?)
    ensures Valid(Update(st, id, s))
  {}

  lemma {:induction false} SweepKeepsValid(st: Store, order: seq<string>, now: int)
    requires Valid(st)
    ensures Valid(SweepIn(st, order, now))
    decreases |order|
  {
    if order != [] {
      DestroyKeepsValid(st, order[0]);
      SweepKeepsValid(AfterLookup(st, order[0], now), order[1..], now);
    }
  }

  /** A sweep over `order` removes exactly the expired sessions listed there and changes no other. */
  lemma {:induction false} SweepRemovesExpired(st: Store, order: seq<string>, now: int)
    ensures var swept := SweepIn(st, order, now);
            && (forall id :: id in swept.byId <==> id in st.byId && !(id in order && Expired(st.byId[id], now)))
            && (forall id :: id in swept.byId ==> swept.byId[id] == st.byId[id])
    decreases |order|
  {
    if order != [] {
      assert order == [order[0]] + order[1..];
      SweepRemovesExpired(AfterLookup(st, order[0], now), order[1..], now);
    }
  }

  /** After a sweep exactly the sessions that are not expired remain, unchanged, and the dictionaries are still inverse. */
  lemma SweepLeavesTheLiving(st: Store, now: int)
    requires Valid(st)
    ensures var swept := SweepIn(st, st.order, now);
            && Valid(swept)
            && (forall id :: id in swept.byId <==> id in st.byId && now <= st.byId[id].expiresAt)
            && (forall id :: id in swept.byId ==> swept.byId[id] == st.byId[id])
  {
    SweepKeepsValid(st, st.order, now);
    SweepRemovesExpired(st, st.order, now);
  }

  // ----- the class -----

  class SessionManager {
    var sessionsById: map<string, Session>
    var insertionOrder: seq<string>
    var sessionIdByPairingCode: map<string, string>

    ghost function View(): Store
      reads this
    {
      Store(sessionsById, insertionOrder, sessionIdByPairingCode)
    }

    constructor ()
      ensures View() == Store(map[], [], map[])
    {
      sessionsById, insertionOrder, sessionIdByPairingCode := map[], [], map[];
    }

    /**
     * The candidates stand for the draws of the random generators: the first unused
     * one is taken.  None: every candidate given was in use (the original draws on).
     */
    method CreateSession(sender: Peer, token: string, timeoutSeconds: Option<nat>, now: int,
                         ids: seq<string>, codes: seq<string>) returns (r: Option<Session>)
      modifies this
      ensures r.None? ==> View() == old(View())
                          && ((forall k :: 0 <= k < |ids| ==> ids[k] in sessionsById)
                              || (forall k :: 0 <= k < |codes| ==> codes[k] in sessionIdByPairingCode))
      ensures r.Some? ==>
                && r.value.id in ids && r.value.id !in old(sessionsById)
                && r.value.pairingCode in codes && r.value.pairingCode !in old(sessionIdByPairingCode)
                && r.value == NewSession(r.value.id, r.value.pairingCode, token, sender, now,
                                         if timeoutSeconds.Some? then timeoutSeconds.value else DEFAULT_SESSION_TIMEOUT_SECONDS)
                && View() == Insert(old(View()), r.value)
    {
      var i, j := 0, 0;
      while i < |ids| && ids[i] in sessionsById
        invariant i <= |ids| && forall k :: 0 <= k < i ==> ids[k] in sessionsById
      {
        i := i + 1;
      }
      while j < |codes| && codes[j] in sessionIdByPairingCode
        invariant j <= |codes| && forall k :: 0 <= k < j ==> codes[k] in sessionIdByPairingCode
      {
        j := j + 1;
      }
      if i == |ids| || j == |codes| {
        return None;
      }
      var timeout := if timeoutSeconds.Some? then timeoutSeconds.value else DEFAULT_SESSION_TIMEOUT_SECONDS;
      var session := NewSession(ids[i], codes[j], token, sender, now, timeout);
      sessionsById := sessionsById[session.id := session];
      insertionOrder := insertionOrder + [session.id];
      sessionIdByPairingCode := sessionIdByPairingCode[session.pairingCode := session.id];
      return Some(session);
    }

    method GetById(id: string, now: int) returns (r: Option<Session>)
      modifies this
      ensures r == Lookup(old(View()), id, now) && View() == AfterLookup(old(View()), id, now)
    {
      if id !in sessionsById {
        return None;
      }
      if Expired(sessionsById[id], now) {
        DestroySession(id);
        return None;
      }
      return Some(sessionsById[id]);
    }

    method ResolvePairingCode(code: string, now: int) returns (r: Option<Session>)
      modifies this
      ensures code !in old(sessionIdByPairingCode) ==> r == None && View() == old(View())
      ensures code in old(sessionIdByPairingCode) ==>
                var id := old(sessionIdByPairingCode)[code];
                r == Lookup(old(View()), id, now) && View() == AfterLookup(old(View()), id, now)
    {
      if code !in sessionIdByPairingCode {
        return None;
      }
      r := GetById(sessionIdByPairingCode[code], now);
    }

    method JoinAsReceiver(id: string, receiver: Peer)
      requires id in sessionsById
      modifies this
      ensures View() == Update(old(View()), id, Joined(old(sessionsById)[id], receiver))
    {
      sessionsById := sessionsById[id := Joined(sessionsById[id], receiver)];
    }

    method FindSessionBySocket(socket: Socket) returns (r: Option<(string, Role)>)
      ensures r == FindIn(sessionsById, insertionOrder, socket)
    {
      for n := 0 to |insertionOrder|
        invariant FindIn(sessionsById, insertionOrder, socket) == FindIn(sessionsById, insertionOrder[n..], socket)
      {
        var id := insertionOrder[n];
        if id in sessionsById {
          var session := sessionsById[id];
          if session.sender.Some? && session.sender.value.socket == socket {
            return Some((id, SenderRole));
          }
          if session.receiver.Some? && session.receiver.value.socket == socket {
            return Some((id, ReceiverRole));
          }
        }
      }
      r := None;
    }

    method DestroySession(id: string)
      modifies this
      ensures View() == Destroy(old(View()), id)
    {
      if id !in sessionsById {
        return;
      }
      var session := sessionsById[id];
      sessionsById := sessionsById - {id};
      insertionOrder := Without(insertionOrder, id);
      sessionIdByPairingCode := sessionIdByPairingCode - {session.pairingCode};
    }

    /** Sessions are destroyed while the iteration goes on over the ids present at its start. */
    method SweepExpired(now: int) returns (notified: seq<(Socket, string)>)
      modifies this
      ensures View() == SweepIn(old(View()), old(insertionOrder), now)
      ensures notified == Notices(old(View()), old(insertionOrder), now)
    {
      var order := insertionOrder;
      notified := [];
      for n := 0 to |order|
        invariant SweepIn(old(View()), order, now) == SweepIn(View(), order[n..], now)
        invariant Notices(old(View()), order, now) == notified + Notices(View(), order[n..], now)
      {
        ghost var told := notified;
        SweepOne(View(), order, n, now);
        var id := order[n];
        if id in sessionsById && now > sessionsById[id].expiresAt {
          var session := sessionsById[id];
          notified := notified + PeersOf(session);
          DestroySession(id);
          assert told + (PeersOf(session) + Notices(View(), order[n + 1..], now)) == notified + Notices(View(), order[n + 1..], now);
        }
      }
    }
  }

  /** SESSION_EXPIRED goes to both peers of an expired session. */
  function PeersOf(s: Session): seq<(Socket, string)> {
    (if s.sender.Some? then [(s.sender.value.socket, s.id)] else [])
    + (if s.receiver.Some? then [(s.receiver.value.socket, s.id)] else [])
  }

  function Notices(st: Store, order: seq<string>, now: int): seq<(Socket, string)>
    decreases |order|
  {
    if order == [] then []
    else
      (if order[0] in st.byId && Expired(st.byId[order[0]], now) then PeersOf(st.byId[order[0]]) else [])
      + Notices(AfterLookup(st, order[0], now), order[1..], now)
  }

  /** One turn of the sweep. */
  lemma SweepOne(st: Store, order: seq<string>, n: nat, now: int)
    requires n < |order|
    ensures var st1 := AfterLookup(st, order[n], now);
            && SweepIn(st, order[n..], now) == SweepIn(st1, order[n + 1..], now)
            && Notices(st, order[n..], now)
               == (if order[n] in st.byId && Expired(st.byId[order[n]], now)
                   then PeersOf(st.byId[order[n]]) + Notices(st1, order[n + 1..], now)
                   else Notices(st1, order[n + 1..], now))
  {
    assert order[n..][0] == order[n] && order[n..][1..] == order[n + 1..];
  }

  /** A sweep notifies nobody but the peers of sessions that it removes. */
  lemma {:induction false} OnlyExpiredAreNotified(st: Store, order: seq<string>, now: int, n: (Socket, string))
    requires Valid(st) && n in Notices(st, order, now)
    ensures n.1 in st.byId && Expired(st.byId[n.1], now) && RoleOf(st.byId[n.1], n.0).Some?
    ensures n.1 !in SweepIn(st, order, now).byId
    decreases |order|
  {
    var first, st1 := order[0], AfterLookup(st, order[0], now);
    DestroyKeepsValid(st, first);
    SweepRemovesExpired(st1, order[1..], now);
    if first in st.byId && Expired(st.byId[first], now) && n in PeersOf(st.byId[first]) {
      assert n.1 == first;
    } else {
      OnlyExpiredAreNotified(st1, order[1..], now, n);
    }
  }
}
