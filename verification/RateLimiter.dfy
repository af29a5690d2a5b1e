/**
 * The sliding-window limiter (rateLimiter.ts).  It keeps a pruned log of calls per
 * key; over every run with a clock that does not go back it answers as the full
 * log would, so no window admits more calls than the limit.
 */
module RateLimiter {
  /** The entries later than `start`. */
  function Recent(log: seq<int>, start: int): (r: seq<int>) {
    if log == [] then []
    else
      var init, t := log[..|log| - 1], log[|log| - 1];
      if t > start then Recent(init, start) + [t] else Recent(init, start)
  }

  function HitsOf(hits: map<string, seq<int>>, key: string): seq<int> {
    if key in hits then hits[key] else []
  }

  // ----- the class -----

  function AfterCheck(hits: map<string, seq<int>>, windowMs: int, key: string, now: int): map<string, seq<int>> {
    hits[key := Recent(HitsOf(hits, key), now - windowMs) + [now]]
  }

  function AfterSweep(hits: map<string, seq<int>>, windowMs: int, now: int): map<string, seq<int>> {
    map k | k in hits && Recent(hits[k], now - windowMs) != [] :: Recent(hits[k], now - windowMs)
  }

  method Filter(log: seq<int>, start: int) returns (r: seq<int>)
    ensures r == Recent(log, start)
  {
    r := [];
    for n := 0 to |log|
      invariant r == Recent(log[..n], start)
    {
      assert log[..n + 1][..n] == log[..n];
      if log[n] > start {
        r := r + [log[n]];
      }
    }
    assert log[..|log|] == log;
  }

  class RateLimiter {
    const windowMs: int
    const maxHits: int
    var hits: map<string, seq<int>>

    constructor (windowMs: int, maxHits: int)
      ensures this.windowMs == windowMs && this.maxHits == maxHits && hits == map[]
    {
      this.windowMs, this.maxHits, hits := windowMs, maxHits, map[];
    }

    method Check(key: string, now: int) returns (allowed: bool)
      modifies this
      ensures hits == AfterCheck(old(hits), windowMs, key, now)
      ensures allowed <==> |Recent(HitsOf(old(hits), key), now - windowMs)| + 1 <= maxHits
    {
      var recent := Filter(HitsOf(hits, key), now - windowMs);
      recent := recent + [now];
      hits := hits[key := recent];
      allowed := |recent| <= maxHits;
    }

    method Reset(key: string)
      modifies this
      ensures hits == old(hits) - {key}
    {
      hits := hits - {key};
    }

    method Sweep(now: int)
      modifies this
      ensures hits == AfterSweep(old(hits), windowMs, now)
    {
      var entries, before := hits.Keys, hits;
      while entries != {}
        invariant entries <= before.Keys
        invariant forall k :: k in entries ==> k in hits && hits[k] == before[k]
        invariant forall k :: k in hits && k !in entries ==>
                    k in before && hits[k] == Recent(before[k], now - windowMs) && hits[k] != []
        invariant forall k :: k in before && k !in entries && k !in hits ==> Recent(before[k], now - windowMs) == []
        decreases entries
      {
        var key :| key in entries;
        var recent := Filter(hits[key], now - windowMs);
        if |recent| == 0 {
          hits := hits - {key};
        } else {
          hits := hits[key := recent];
        }
        entries := entries - {key};
      }
    }
  }

  // ----- runs -----

  datatype Event = Checked(key: string, now: int) | Cleared(key: string) | Swept(now: int)

  function HitsAfter(hits: map<string, seq<int>>, windowMs: int, e: Event): map<string, seq<int>> {
    match e
    case Checked(key, now) => AfterCheck(hits, windowMs, key, now)
    case Cleared(key) => hits - {key}
    case Swept(now) => AfterSweep(hits, windowMs, now)
  }

  function LogAfter(log: seq<int>, key: string, e: Event): seq<int> {
    match e
    case Checked(k, now) => if k == key then log + [now] else log
    case Cleared(k) => if k == key then [] else log
    case Swept(_) => log
  }

  function Hits(windowMs: int, events: seq<Event>): map<string, seq<int>> {
    if events == [] then map[] else HitsAfter(Hits(windowMs, events[..|events| - 1]), windowMs, events[|events| - 1])
  }

  /** All calls of the key since its last reset, admitted or not. */
  function Log(events: seq<Event>, key: string): seq<int> {
    if events == [] then [] else LogAfter(Log(events[..|events| - 1], key), key, events[|events| - 1])
  }

  /** The clock does not go back, and `last` is not before any event. */
  ghost predicate Clocked(events: seq<Event>, last: int) {
    events == [] ||
    var e := events[|events| - 1];
    if e.Cleared? then Clocked(events[..|events| - 1], last) else e.now <= last && Clocked(events[..|events| - 1], e.now)
  }

  lemma {:induction false} ClockedLater(events: seq<Event>, last: int, later: int)
    requires Clocked(events, last) && last <= later
    ensures Clocked(events, later)
  {
    if events != [] && events[|events| - 1].Cleared? {
      ClockedLater(events[..|events| - 1], last, later);
    }
  }

  lemma RecentSnoc(log: seq<int>, t: int, start: int)
    ensures Recent(log + [t], start) == if t > start then Recent(log, start) + [t] else Recent(log, start)
  {
    assert (log + [t])[..|log|] == log;
  }

  lemma {:induction false} RecentTwice(log: seq<int>, a: int, b: int)
    requires a <= b
    ensures Recent(Recent(log, a), b) == Recent(log, b)
  {
    if log != [] {
      var init, t := log[..|log| - 1], log[|log| - 1];
      assert log == init + [t];
      RecentTwice(init, a, b);
      RecentSnoc(init, t, a);
      RecentSnoc(init, t, b);
      RecentSnoc(Recent(init, a), t, b);
    }
  }

  lemma PruneAndPush(kept: seq<int>, log: seq<int>, t: int, a: int, b: int)
    requires a <= b && Recent(kept, b) == Recent(log, b)
    ensures Recent(Recent(kept, a) + [t], b) == Recent(log + [t], b)
  {
    RecentTwice(kept, a, b);
    RecentSnoc(Recent(kept, a), t, b);
    RecentSnoc(log, t, b);
  }

  lemma CheckLikeFullLog(windowMs: int, hits: map<string, seq<int>>, log: seq<int>, key: string, k: string, t: int, start: int)
    requires Recent(HitsOf(hits, key), start) == Recent(log, start) && t - windowMs <= start
    ensures Recent(HitsOf(AfterCheck(hits, windowMs, k, t), key), start) == Recent(if k == key then log + [t] else log, start)
  {
    if k == key {
      assert HitsOf(AfterCheck(hits, windowMs, k, t), key) == Recent(HitsOf(hits, key), t - windowMs) + [t];
      PruneAndPush(HitsOf(hits, key), log, t, t - windowMs, start);
    } else {
      assert HitsOf(AfterCheck(hits, windowMs, k, t), key) == HitsOf(hits, key);
    }
  }

  /** A swept entry is the pruned one; that a key without calls has none makes no difference. */
  lemma SweptEntry(hits: map<string, seq<int>>, windowMs: int, key: string, t: int)
    ensures HitsOf(AfterSweep(hits, windowMs, t), key) == Recent(HitsOf(hits, key), t - windowMs)
  {
    if key in hits {
      assert HitsOf(hits, key) == hits[key];
    } else {
      assert HitsOf(hits, key) == [] && Recent([], t - windowMs) == [];
    }
  }

  lemma SweepLikeFullLog(windowMs: int, hits: map<string, seq<int>>, log: seq<int>, key: string, t: int, start: int)
    requires Recent(HitsOf(hits, key), start) == Recent(log, start) && t - windowMs <= start
    ensures Recent(HitsOf(AfterSweep(hits, windowMs, t), key), start) == Recent(log, start)
  {
    SweptEntry(hits, windowMs, key, t);
    calc {
      Recent(HitsOf(AfterSweep(hits, windowMs, t), key), start);
      Recent(Recent(HitsOf(hits, key), t - windowMs), start);
      { RecentTwice(HitsOf(hits, key), t - windowMs, start); }
      Recent(HitsOf(hits, key), start);
      Recent(log, start);
    }
  }

  lemma ClearLikeFullLog(hits: map<string, seq<int>>, log: seq<int>, key: string, k: string, start: int)
    requires Recent(HitsOf(hits, key), start) == Recent(log, start)
    ensures Recent(HitsOf(hits - {k}, key), start) == Recent(if k == key then [] else log, start)
  {
    assert HitsOf(hits - {k}, key) == if k == key then [] else HitsOf(hits, key);
  }

  /** The limiter's entry for a key, restricted to a window, is the full log's. */
  ghost predicate SameFrom(hits: map<string, seq<int>>, log: seq<int>, key: string, start: int) {
    Recent(HitsOf(hits, key), start) == Recent(log, start)
  }

  lemma StepLikeFullLog(windowMs: int, hits: map<string, seq<int>>, log: seq<int>, key: string, e: Event, now: int)
    requires SameFrom(hits, log, key, now - windowMs) && (!e.Cleared? ==> e.now <= now)
    ensures SameFrom(HitsAfter(hits, windowMs, e), LogAfter(log, key, e), key, now - windowMs)
  {
    if e.Checked? {
      CheckLikeFullLog(windowMs, hits, log, key, e.key, e.now, now - windowMs);
    } else if e.Cleared? {
      ClearLikeFullLog(hits, log, key, e.key, now - windowMs);
    } else {
      SweepLikeFullLog(windowMs, hits, log, key, e.now, now - windowMs);
    }
  }

  /** From now on, pruning what the limiter pruned makes no difference. */
  lemma {:induction false} PrunedLikeFullLog(windowMs: int, events: seq<Event>, key: string, now: int)
    requires Clocked(events, now)
    ensures SameFrom(Hits(windowMs, events), Log(events, key), key, now - windowMs)
  {
    if events != [] {
      var init, e := events[..|events| - 1], events[|events| - 1];
      if !e.Cleared? { ClockedLater(init, e.now, now); }
      PrunedLikeFullLog(windowMs, init, key, now);
      StepLikeFullLog(windowMs, Hits(windowMs, init), Log(init, key), key, e, now);
    }
  }

  /** The number of entries in (from, to]. */
  function CountIn(log: seq<int>, from: int, to: int): nat {
    if log == [] then 0
    else
      var t := log[|log| - 1];
      CountIn(log[..|log| - 1], from, to) + (if from < t <= to then 1 else 0)
  }

  lemma {:induction false} CountRecent(log: seq<int>, from: int, to: int)
    requires forall i :: 0 <= i < |log| ==> log[i] <= to
    ensures |Recent(log, from)| == CountIn(log, from, to)
  {
    if log != [] { CountRecent(log[..|log| - 1], from, to); }
  }

  lemma {:induction false} LogUpToNow(events: seq<Event>, key: string, now: int)
    requires Clocked(events, now)
    ensures forall i :: 0 <= i < |Log(events, key)| ==> Log(events, key)[i] <= now
  {
    if events != [] {
      var init, e := events[..|events| - 1], events[|events| - 1];
      LogUpToNow(init, key, if e.Cleared? then now else e.now);
    }
  }

  /** What the limiter answers to a call after the given events. */
  function Allows(windowMs: int, maxHits: int, events: seq<Event>, key: string, now: int): bool {
    |Recent(HitsOf(Hits(windowMs, events), key), now - windowMs)| + 1 <= maxHits
  }

  /** The limiter counts the calls of the full log. */
  lemma CountsFullLog(windowMs: int, events: seq<Event>, key: string, now: int)
    requires Clocked(events, now)
    ensures |Recent(HitsOf(Hits(windowMs, events), key), now - windowMs)| == CountIn(Log(events, key), now - windowMs, now)
  {
    PrunedLikeFullLog(windowMs, events, key, now);
    LogUpToNow(events, key, now);
    CountRecent(Log(events, key), now - windowMs, now);
  }

  /**
   * With a clock that does not go back and any interleaving of keys, resets and
   * sweeps: a call is allowed if and only if the key's calls in (now - windowMs, now]
   * since its last reset, rejected ones and this one included, number at most maxHits.
   */
  lemma AnswersLikeFullLog(windowMs: int, maxHits: int, events: seq<Event>, key: string, now: int)
    requires windowMs > 0 && Clocked(events, now)
    ensures Allows(windowMs, maxHits, events, key, now)
            <==> CountIn(Log(events + [Checked(key, now)], key), now - windowMs, now) <= maxHits
  {
    assert (events + [Checked(key, now)])[..|events|] == events;
    CountsFullLog(windowMs, events, key, now);
    CountSnoc(Log(events, key), Checked(key, now), now - windowMs, now);
  }

  /** The admitted calls of the key since its last reset. */
  function Admitted(windowMs: int, maxHits: int, events: seq<Event>, key: string): seq<int> {
    if events == [] then []
    else
      var init := events[..|events| - 1];
      var before := Admitted(windowMs, maxHits, init, key);
      match events[|events| - 1]
      case Checked(k, now) => if k == key && Allows(windowMs, maxHits, init, key, now) then before + [now] else before
      case Cleared(k) => if k == key then [] else before
      case Swept(_) => before
  }

  lemma {:induction false} AdmittedWereCalls(windowMs: int, maxHits: int, events: seq<Event>, key: string, from: int, to: int)
    ensures CountIn(Admitted(windowMs, maxHits, events, key), from, to) <= CountIn(Log(events, key), from, to)
  {
    if events != [] {
      var init := events[..|events| - 1];
      AdmittedWereCalls(windowMs, maxHits, init, key, from, to);
      CountSnoc(Admitted(windowMs, maxHits, init, key), events[|events| - 1], from, to);
      CountSnoc(Log(init, key), events[|events| - 1], from, to);
    }
  }

  lemma CountSnoc(log: seq<int>, e: Event, from: int, to: int)
    ensures !e.Cleared? ==> CountIn(log + [e.now], from, to) == CountIn(log, from, to) + (if from < e.now <= to then 1 else 0)
  {
    if !e.Cleared? { assert (log + [e.now])[..|log|] == log; }
  }

  lemma {:induction false} NarrowerCountsLess(log: seq<int>, from: int, to: int, from': int, to': int)
    requires from' <= from && to <= to'
    ensures CountIn(log, from, to) <= CountIn(log, from', to')
  {
    if log != [] { NarrowerCountsLess(log[..|log| - 1], from, to, from', to'); }
  }

  lemma {:induction false} NothingLater(log: seq<int>, from: int, to: int, to': int)
    requires to <= to' && forall i :: 0 <= i < |log| ==> log[i] <= to
    ensures CountIn(log, from, to') == CountIn(log, from, to)
  {
    if log != [] { NothingLater(log[..|log| - 1], from, to, to'); }
  }

  /** Between two resets no window of the given length, wherever it starts, admits more than maxHits calls. */
  lemma {:induction false} NoWindowAdmitsMore(windowMs: int, maxHits: nat, events: seq<Event>, key: string, now: int, from: int)
    requires windowMs > 0 && Clocked(events, now)
    ensures CountIn(Admitted(windowMs, maxHits, events, key), from, from + windowMs) <= maxHits
  {
    if events != [] {
      var init, e := events[..|events| - 1], events[|events| - 1];
      NoWindowAdmitsMore(windowMs, maxHits, init, key, if e.Cleared? then now else e.now, from);
      if e.Checked? && e.key == key && Allows(windowMs, maxHits, init, key, e.now) && from < e.now <= from + windowMs {
        LastAdmission(windowMs, maxHits, init, key, e.now, from);
        CountSnoc(Admitted(windowMs, maxHits, init, key), e, from, from + windowMs);
      } else if !e.Cleared? {
        CountSnoc(Admitted(windowMs, maxHits, init, key), e, from, from + windowMs);
      }
    }
  }

  /** An admitted call sees every earlier admission of any window it falls into. */
  lemma LastAdmission(windowMs: int, maxHits: nat, events: seq<Event>, key: string, now: int, from: int)
    requires windowMs > 0 && Clocked(events, now) && Allows(windowMs, maxHits, events, key, now)
    requires from < now <= from + windowMs
    ensures CountIn(Admitted(windowMs, maxHits, events, key), from, from + windowMs) + 1 <= maxHits
  {
    var log := Log(events, key);
    CountsFullLog(windowMs, events, key, now);
    LogUpToNow(events, key, now);
    AdmittedWereCalls(windowMs, maxHits, events, key, from, from + windowMs);
    NothingLater(log, from, now, from + windowMs);
    NarrowerCountsLess(log, from, now, now - windowMs, now);
  }
}
