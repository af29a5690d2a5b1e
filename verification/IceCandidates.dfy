/**
 * Early ICE candidates (PeerConnectionManager.ts): candidates that arrive before
 * the remote description are kept and handed over afterwards, while further ones
 * may arrive between any two of those hand-overs.
 */
module IceCandidates {
  import opened Basics

  type Candidate = string

  /** Where setRemoteDescription is: not past its first await, awaiting hand-over `next` - 1, or through. */
  datatype Phase = Before | Flushing(next: nat) | Through

  /** `applied` is what the connection was handed, in order; `early` and `late` are the arrivals before and after the description (history). */
  datatype State = State(
    phase: Phase, remoteDescriptionSet: bool, pending: seq<Candidate>, applied: seq<Candidate>,
    early: seq<Candidate>, late: seq<Candidate>)

  datatype Event =
    | Arrive(c: Candidate)   // addRemoteIceCandidate is called
    | DescriptionSet         // the description is in place: the first await is over
    | HandedOver             // the awaited hand-over is over

  const INITIAL: State := State(Before, false, [], [], [], [])

  /** The loop's next turn: hand over the next kept candidate, or clear the list. */
  function FlushTurn(s: State, next: nat): State {
    if next < |s.pending| then s.(phase := Flushing(next + 1), applied := s.applied + [s.pending[next]])
    else s.(phase := Through, pending := [])
  }

  function Step(s: State, e: Event): State {
    match e
    case Arrive(c) =>
      if s.remoteDescriptionSet then s.(applied := s.applied + [c], late := s.late + [c])
      else s.(pending := s.pending + [c], early := s.early + [c])
    case DescriptionSet => if s.phase.Before? then FlushTurn(s.(remoteDescriptionSet := true), 0) else s
    case HandedOver => if s.phase.Flushing? then FlushTurn(s, s.phase.next) else s
  }

  function Run(events: seq<Event>): State {
    if events == [] then INITIAL else Step(Run(events[..|events| - 1]), events[|events| - 1])
  }

  /** The candidates that arrived, in order. */
  function Arrivals(events: seq<Event>): seq<Candidate> {
    if events == [] then []
    else
      var e := events[|events| - 1];
      if e.Arrive? then Arrivals(events[..|events| - 1]) + [e.c] else Arrivals(events[..|events| - 1])
  }

  /** s is a and b interleaved, each in its own order, nothing added and nothing dropped. */
  predicate Interleaves<T(==)>(s: seq<T>, a: seq<T>, b: seq<T>) {
    if s == [] then a == [] && b == []
    else
      var init, last := s[..|s| - 1], s[|s| - 1];
      || (a != [] && a[|a| - 1] == last && Interleaves(init, a[..|a| - 1], b))
      || (b != [] && b[|b| - 1] == last && Interleaves(init, a, b[..|b| - 1]))
  }

  lemma MoreLeft<T>(s: seq<T>, a: seq<T>, b: seq<T>, x: T)
    requires Interleaves(s, a, b)
    ensures Interleaves(s + [x], a + [x], b)
  {
    assert (s + [x])[..|s|] == s && (a + [x])[..|a|] == a;
  }

  lemma MoreRight<T>(s: seq<T>, a: seq<T>, b: seq<T>, x: T)
    requires Interleaves(s, a, b)
    ensures Interleaves(s + [x], a, b + [x])
  {
    assert (s + [x])[..|s|] == s && (b + [x])[..|b|] == b;
  }

  lemma {:induction false} InterleavesCounts<T>(s: seq<T>, a: seq<T>, b: seq<T>)
    requires Interleaves(s, a, b)
    ensures multiset(s) == multiset(a) + multiset(b)
  {
    if s != [] {
      var init, last := s[..|s| - 1], s[|s| - 1];
      assert s == init + [last];
      if a != [] && a[|a| - 1] == last && Interleaves(init, a[..|a| - 1], b) {
        assert a == a[..|a| - 1] + [last];
        InterleavesCounts(init, a[..|a| - 1], b);
      } else {
        assert b == b[..|b| - 1] + [last];
        InterleavesCounts(init, a, b[..|b| - 1]);
      }
    }
  }

  /** The kept candidates not handed over yet. */
  function Waiting(s: State): seq<Candidate> {
    match s.phase
    case Before => s.pending
    case Flushing(next) => s.pending[Min(next, |s.pending|)..]
    case Through => []
  }

  ghost predicate Inv(s: State) {
    match s.phase
    case Before => !s.remoteDescriptionSet && s.applied == [] && s.pending == s.early && s.late == []
    case Flushing(next) =>
      s.remoteDescriptionSet && s.pending == s.early && next <= |s.early| && Interleaves(s.applied, s.early[..next], s.late)
    case Through => s.remoteDescriptionSet && s.pending == [] && Interleaves(s.applied, s.early, s.late)
  }

  lemma FlushTurnKeepsInv(s: State, next: nat)
    requires s.remoteDescriptionSet && s.pending == s.early && next <= |s.early|
    requires Interleaves(s.applied, s.early[..next], s.late)
    ensures Inv(FlushTurn(s, next))
  {
    if next < |s.pending| {
      MoreLeft(s.applied, s.early[..next], s.late, s.early[next]);
      assert s.early[..next] + [s.early[next]] == s.early[..next + 1];
    } else {
      assert s.early[..next] == s.early;
    }
  }

  lemma StepKeepsInv(s: State, e: Event)
    requires Inv(s)
    ensures Inv(Step(s, e))
  {
    match e
    case Arrive(c) =>
      if s.phase.Flushing? {
        MoreRight(s.applied, s.early[..s.phase.next], s.late, c);
      } else if s.phase.Through? {
        MoreRight(s.applied, s.early, s.late, c);
      }
    case DescriptionSet => if s.phase.Before? { FlushTurnKeepsInv(s.(remoteDescriptionSet := true), 0); }
    case HandedOver => if s.phase.Flushing? { FlushTurnKeepsInv(s, s.phase.next); }
  }

  lemma {:induction false} RunKeepsInv(events: seq<Event>)
    ensures Inv(Run(events)) && Run(events).early + Run(events).late == Arrivals(events)
  {
    if events != [] {
      var init, e := events[..|events| - 1], events[|events| - 1];
      RunKeepsInv(init);
      StepKeepsInv(Run(init), e);
      var s := Run(init);
      if e.Arrive? && s.remoteDescriptionSet {
        assert s.early + (s.late + [e.c]) == s.early + s.late + [e.c];
      } else if e.Arrive? {
        assert s.early + [e.c] + [] == s.early + [] + [e.c];
      }
    }
  }

  /**
   * Under any interleaving of arrivals with the awaits: nothing is handed over before
   * the description is set; at every moment the candidates received are those handed
   * over plus those waiting, each once; the early ones are handed over in arrival
   * order, and so are the late ones.
   */
  lemma EachCandidateOnceInOrder(events: seq<Event>)
    ensures var s := Run(events);
            && (!s.remoteDescriptionSet ==> s.applied == [])
            && multiset(Arrivals(events)) == multiset(s.applied) + multiset(Waiting(s))
            && (exists handed :: handed + Waiting(s) == s.early && Interleaves(s.applied, handed, s.late))
            && s.early + s.late == Arrivals(events)
            && (s.phase.Through? ==> Waiting(s) == [] && multiset(s.applied) == multiset(Arrivals(events)))
  {
    RunKeepsInv(events);
    var s := Run(events);
    var handed := HandedOf(s);
    assert handed + Waiting(s) == s.early && Interleaves(s.applied, handed, s.late);
    InterleavesCounts(s.applied, handed, s.late);
    assert multiset(s.early) == multiset(handed) + multiset(Waiting(s));
    assert multiset(Arrivals(events)) == multiset(s.early) + multiset(s.late);
  }

  /** The early candidates handed over so far. */
  lemma HandedOf(s: State) returns (handed: seq<Candidate>)
    requires Inv(s)
    ensures handed + Waiting(s) == s.early && Interleaves(s.applied, handed, s.late)
  {
    match s.phase
    case Before => handed := [];
    case Flushing(next) => handed := s.early[..next];
    case Through => handed := s.early;
  }

  // ----- the object -----

  class PeerConnectionManager {
    var pendingRemoteCandidates: seq<Candidate>
    var remoteDescriptionSet: bool
    var phase: Phase
    var applied: seq<Candidate>
    ghost var early: seq<Candidate>
    ghost var late: seq<Candidate>

    ghost function View(): State
      reads this
    {
      State(phase, remoteDescriptionSet, pendingRemoteCandidates, applied, early, late)
    }

    constructor ()
      ensures View() == INITIAL
    {
      pendingRemoteCandidates, remoteDescriptionSet := [], false;
      phase, applied := Before, [];
      early, late := [], [];
    }

    method AddRemoteIceCandidate(c: Candidate)
      modifies this
      ensures View() == Step(old(View()), Arrive(c))
    {
      if !remoteDescriptionSet {
        pendingRemoteCandidates := pendingRemoteCandidates + [c];
        early := early + [c];
        return;
      }
      applied := applied + [c];
      late := late + [c];
    }

    /** setRemoteDescription, from the end of its first await to its next one. */
    method OnDescriptionSet()
      modifies this
      ensures View() == Step(old(View()), DescriptionSet)
    {
      if phase.Before? {
        remoteDescriptionSet := true;
        TakeTurn(0);
      }
    }

    /** setRemoteDescription, from the end of one hand-over to the next. */
    method OnHandedOver()
      modifies this
      ensures View() == Step(old(View()), HandedOver)
    {
      if phase.Flushing? {
        TakeTurn(phase.next);
      }
    }

    method TakeTurn(next: nat)
      modifies this
      ensures View() == FlushTurn(old(View()), next)
    {
      if next < |pendingRemoteCandidates| {
        applied := applied + [pendingRemoteCandidates[next]];
        phase := Flushing(next + 1);
      } else {
        pendingRemoteCandidates := [];
        phase := Through;
      }
    }
  }
}
