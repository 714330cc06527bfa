/** The circuit breaker's state is a function of its history of outcomes. */
module CircuitBreaker {
  import opened Common

  datatype CircuitState = CLOSED | OPEN | HALF_OPEN

  /** What happens to a breaker, in time order. A late outcome of an earlier call is an outcome like any other.
      A failure reads the clock twice: for its own time, then for the time the circuit opened. */
  datatype Event = Success(at: int) | Failure(seen: int, at: int) | Query(at: int)

  datatype Change = Change(from: CircuitState, to: CircuitState)

  class Breaker {
    const failureThreshold: int
    const recoveryTimeoutMs: int
    var state: CircuitState
    var failures: int
    var openedAt: int
    var lastSuccessAt: Option<int>
    var lastFailureAt: Option<int>
    ghost var history: seq<Event>
    ghost var changes: seq<Change>       // the transitions reported to the listener

    /** The fields are what the history makes of them. */
    ghost predicate Valid()
      reads this
    {
      && InOrder(history) && Chained(changes, state)
      && failures == Trailing(history)
      && lastFailureAt == LastSeen(history) && lastSuccessAt == LastSuccess(history)
      && (state == CLOSED <==> Trailing(history) < Threshold(failureThreshold))
      && (state != CLOSED ==> LastFailure(history) == Some(openedAt))
      && (state == HALF_OPEN ==> history != [] && Now(history) - openedAt >= recoveryTimeoutMs)
    }

    constructor (failureThreshold: int, recoveryTimeoutMs: int)
      ensures Valid() && history == [] && changes == [] && state == CLOSED
      ensures this.failureThreshold == failureThreshold && this.recoveryTimeoutMs == recoveryTimeoutMs
    {
      this.failureThreshold, this.recoveryTimeoutMs := failureThreshold, recoveryTimeoutMs;
      state, failures, openedAt, lastSuccessAt, lastFailureAt := CLOSED, 0, 0, None, None;
      history, changes := [], [];
    }

    method RecordSuccess(now: int)
      requires Valid() && (history != [] ==> Now(history) <= now)
      modifies this
      ensures Valid() && history == old(history) + [Success(now)] && state == CLOSED
      ensures changes == if old(state) == CLOSED then old(changes) else old(changes) + [Change(old(state), CLOSED)]
    {
      hide Trailing, LastFailure, LastSeen, LastSuccess, InOrder, Now, Chained;
      Snoc(history, Success(now));
      history := history + [Success(now)];
      var prev := state;
      failures := 0;
      lastSuccessAt := Some(now);
      state := CLOSED;
      if prev != CLOSED {
        ChainSnoc(changes, prev, CLOSED);
        changes := changes + [Change(prev, CLOSED)];
      }
    }

    method RecordFailure(now: int, later: int)
      requires Valid() && (history != [] ==> Now(history) <= now) && now <= later
      modifies this
      ensures Valid() && history == old(history) + [Failure(now, later)]
      ensures state == if |SinceSuccess(history)| >= failureThreshold then OPEN else old(state)
      ensures changes == if state == old(state) then old(changes) else old(changes) + [Change(old(state), OPEN)]
    {
      TrailingCounts(history + [Failure(now, later)]);
      hide Trailing, LastFailure, LastSeen, LastSuccess, InOrder, Now, Chained;
      Snoc(history, Failure(now, later));
      history := history + [Failure(now, later)];
      failures := failures + 1;
      lastFailureAt := Some(now);
      if failures >= failureThreshold {
        var prev := state;
        state := OPEN;
        openedAt := later;
        if prev != OPEN {
          ChainSnoc(changes, prev, OPEN);
          changes := changes + [Change(prev, OPEN)];
        }
      }
    }

    method GetState(now: int) returns (s: CircuitState)
      requires Valid() && (history != [] ==> Now(history) <= now)
      modifies this
      ensures Valid() && history == old(history) + [Query(now)] && s == state
      ensures s == StateAt(failureThreshold, recoveryTimeoutMs, old(history), now)
      ensures Follows(failureThreshold, recoveryTimeoutMs, old(history), now, s)
      ensures changes == if state == old(state) then old(changes) else old(changes) + [Change(OPEN, HALF_OPEN)]
    {
      StateFollows(failureThreshold, recoveryTimeoutMs, history, now);
      hide Trailing, LastFailure, LastSeen, LastSuccess, InOrder, Now, Chained, Follows;
      Snoc(history, Query(now));
      history := history + [Query(now)];
      if state == OPEN {
        var elapsed := now - openedAt;
        if elapsed >= recoveryTimeoutMs {
          ChainSnoc(changes, OPEN, HALF_OPEN);
          changes := changes + [Change(OPEN, HALF_OPEN)];
          state := HALF_OPEN;
        }
      }
      return state;
    }

    /** False: the call is refused. */
    method AssertClosed(now: int) returns (allowed: bool)
      requires Valid() && (history != [] ==> Now(history) <= now)
      modifies this
      ensures Valid() && history == old(history) + [Query(now)]
      ensures allowed <==> StateAt(failureThreshold, recoveryTimeoutMs, old(history), now) != OPEN
      ensures allowed <==> !Follows(failureThreshold, recoveryTimeoutMs, old(history), now, OPEN)
    {
      OneAnswer(failureThreshold, recoveryTimeoutMs, history, now);
      hide Follows;
      var s := GetState(now);
      allowed := s != OPEN;
    }
  }

  // ------------------------------------------------------------------ the state as a function of history

  /** A threshold below one acts as one: nothing opens before a first failure. */
  function Threshold(t: int): int { if t < 1 then 1 else t }

  function Now(h: seq<Event>): int
    requires h != []
  {
    h[|h| - 1].at
  }

  predicate InOrder(h: seq<Event>) { forall i, j :: 0 <= i < j < |h| ==> h[i].at <= h[j].at }

  /** Failures since the last success. */
  function Trailing(h: seq<Event>): nat {
    if h == [] then 0
    else match h[|h| - 1] {
      case Success(_) => 0
      case Failure(_, _) => Trailing(h[..|h| - 1]) + 1
      case Query(_) => Trailing(h[..|h| - 1])
    }
  }

  function LastSeen(h: seq<Event>): Option<int> {
    if h == [] then None else if h[|h| - 1].Failure? then Some(h[|h| - 1].seen) else LastSeen(h[..|h| - 1])
  }

  /** When the last failure read the clock for the second time. */
  function LastFailure(h: seq<Event>): Option<int> {
    if h == [] then None else if h[|h| - 1].Failure? then Some(h[|h| - 1].at) else LastFailure(h[..|h| - 1])
  }

  function LastSuccess(h: seq<Event>): Option<int> {
    if h == [] then None else if h[|h| - 1].Success? then Some(h[|h| - 1].at) else LastSuccess(h[..|h| - 1])
  }

  /** Closed while the trailing failures are below the threshold; otherwise open until the recovery time
      has passed since the last failure, and half-open from then on. */
  function StateAt(threshold: int, recovery: int, h: seq<Event>, now: int): CircuitState {
    if Trailing(h) < Threshold(threshold) then CLOSED
    else if LastFailure(h).Some? && now - LastFailure(h).value < recovery then OPEN
    else HALF_OPEN
  }

  /** The positions of the failures after the last success. */
  function SinceSuccess(h: seq<Event>): set<int> {
    set i | 0 <= i < |h| && h[i].Failure? && forall j :: i < j < |h| ==> !h[j].Success?
  }

  /** What a question at `now` is answered after this history: closed without a failure since the last success, or with
      fewer than the threshold; otherwise open as long as the recovery time has not passed since the last one. */
  ghost predicate Follows(threshold: int, recovery: int, h: seq<Event>, now: int, s: CircuitState) {
    var failures := SinceSuccess(h);
    && (s == CLOSED <==> failures == {} || |failures| < threshold)
    && (s == OPEN <==>
          && failures != {} && |failures| >= threshold
          && exists i :: i in failures && (forall j :: j in failures ==> j <= i) && now - h[i].at < recovery)
  }

  lemma SinceSnoc(h: seq<Event>, e: Event)
    ensures SinceSuccess(h + [e])
            == match e { case Success(_) => {} case Failure(_, _) => SinceSuccess(h) + {|h|} case Query(_) => SinceSuccess(h) }
  {
    var log := h + [e];
    assert log[|h|] == e && forall i :: 0 <= i < |h| ==> log[i] == h[i];
    forall i | i in SinceSuccess(log) ensures i < |h| ==> i in SinceSuccess(h) {
      forall j | i < j < |h| ensures !h[j].Success? { assert !log[j].Success?; }
    }
  }

  lemma {:induction false} TrailingCounts(h: seq<Event>)
    ensures Trailing(h) == |SinceSuccess(h)|
  {
    if h != [] {
      var front, e := h[..|h| - 1], h[|h| - 1];
      TrailingCounts(front);
      SinceSnoc(front, e);
      assert h == front + [e];
      assert |front| !in SinceSuccess(front);
    }
  }

  /** The last of them, if any, is the last failure. */
  lemma {:induction false} LastFailureIs(h: seq<Event>) returns (i: int)
    ensures SinceSuccess(h) != {} ==>
              && i in SinceSuccess(h) && (forall j :: j in SinceSuccess(h) ==> j <= i) && LastFailure(h) == Some(h[i].at)
  {
    i := 0;
    if h != [] {
      var front, e := h[..|h| - 1], h[|h| - 1];
      SinceSnoc(front, e);
      assert h == front + [e];
      if e.Failure? {
        i := |front|;
      } else {
        i := LastFailureIs(front);
      }
    }
  }

  /** The answer is the one that follows from the history, and no other does. */
  lemma StateFollows(threshold: int, recovery: int, h: seq<Event>, now: int)
    ensures Follows(threshold, recovery, h, now, StateAt(threshold, recovery, h, now))
  {
    TrailingCounts(h);
    var failures := SinceSuccess(h);
    var i := LastFailureIs(h);
    forall k | k in failures && forall j :: j in failures ==> j <= k ensures k == i { }
    hide Trailing, LastFailure, SinceSuccess;
  }

  lemma OneAnswer(threshold: int, recovery: int, h: seq<Event>, now: int)
    ensures Follows(threshold, recovery, h, now, OPEN) <==> StateAt(threshold, recovery, h, now) == OPEN
  {
    StateFollows(threshold, recovery, h, now);
  }

  /** Each reported transition starts where the previous one ended, and really changes the state. */
  predicate Chained(changes: seq<Change>, state: CircuitState) {
    && (forall i :: 0 <= i < |changes| ==> changes[i].from != changes[i].to)
    && (forall i :: 0 < i < |changes| ==> changes[i].from == changes[i - 1].to)
    && (changes != [] ==> changes[0].from == CLOSED)
    && state == if changes == [] then CLOSED else changes[|changes| - 1].to
  }

  lemma Snoc(h: seq<Event>, e: Event)
    ensures h + [e] != [] && Now(h + [e]) == e.at
    ensures InOrder(h) && (h != [] ==> Now(h) <= e.at) ==> InOrder(h + [e])
    ensures Trailing(h + [e])
            == match e { case Success(_) => 0 case Failure(_, _) => Trailing(h) + 1 case Query(_) => Trailing(h) }
    ensures LastFailure(h + [e]) == if e.Failure? then Some(e.at) else LastFailure(h)
    ensures LastSeen(h + [e]) == if e.Failure? then Some(e.seen) else LastSeen(h)
    ensures LastSuccess(h + [e]) == if e.Success? then Some(e.at) else LastSuccess(h)
  {
    assert (h + [e])[..|h|] == h;
  }

  lemma ChainSnoc(changes: seq<Change>, from: CircuitState, to: CircuitState)
    requires Chained(changes, from) && from != to
    ensures Chained(changes + [Change(from, to)], to)
  {
  }

  /** Asking does not change what later questions are answered. */
  lemma {:induction false} QueriesAreInvisible(threshold: int, recovery: int, h: seq<Event>, now: int)
    ensures StateAt(threshold, recovery, h, now) == StateAt(threshold, recovery, Outcomes(h), now)
  {
    OutcomeFacts(h);
  }

  function Outcomes(h: seq<Event>): seq<Event> {
    if h == [] then []
    else Outcomes(h[..|h| - 1]) + (if h[|h| - 1].Query? then [] else [h[|h| - 1]])
  }

  lemma {:induction false} OutcomeFacts(h: seq<Event>)
    ensures Trailing(Outcomes(h)) == Trailing(h) && LastFailure(Outcomes(h)) == LastFailure(h)
  {
    if h != [] {
      var front, e := h[..|h| - 1], h[|h| - 1];
      OutcomeFacts(front);
      assert (Outcomes(front) + [e])[..|Outcomes(front)|] == Outcomes(front);
      assert Outcomes(front) + [] == Outcomes(front);
    }
  }

  /** The trailing count is the longest run of failures at the end, read off the outcomes. */
  lemma {:induction false} TrailingIs(h: seq<Event>)
    requires forall e :: e in h ==> !e.Query?
    ensures Trailing(h) <= |h|
    ensures forall i :: |h| - Trailing(h) <= i < |h| ==> h[i].Failure?
    ensures Trailing(h) < |h| ==> h[|h| - 1 - Trailing(h)].Success?
  {
    if h != [] {
      var front := h[..|h| - 1];
      assert h[|h| - 1] in h;
      forall e | e in front ensures !e.Query? { assert e in h; }
      TrailingIs(front);
    }
  }
}
