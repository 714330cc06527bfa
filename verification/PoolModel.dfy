/** The reader pool as a state machine: acquisitions, releases, timeouts, health failures and close. */
module PoolModel {
  import opened Common

  type Handle = nat
  /** Acquisitions are numbered in the order they are made. */
  type Call = nat

  datatype Outcome = Served(handle: Handle) | TimedOut | Rejected | OpenFailed

  datatype State = State(
    min: nat, max: nat,
    idle: seq<Handle>,
    waiters: seq<Call>,
    open: int,
    active: int,
    closed: bool,
    inUse: set<Handle>,
    nextHandle: Handle,
    nextCall: Call,
    waited: set<Call>,               // log: calls that had to queue
    outcome: map<Call, Outcome>,     // log: how each call settled
    lost: set<Call>)                 // log: waiters taken off the queue that nobody settled

  datatype Step =
    | Acquire(bad: set<Handle>, opens: bool)            // `bad` handles fail their health check
    | TimeOut(call: Call)
    | Release(handle: Handle, healthy: bool, opens: bool)
    | BeginClose
    | FinishClose

  predicate Enabled(s: State, step: Step) {
    match step
    case Acquire(_, _) => true
    case TimeOut(c) => c in s.waiters
    case Release(h, _, _) => h in s.inUse
    case BeginClose => !s.closed
    case FinishClose => s.closed
  }

  function Settle(s: State, call: Call, o: Outcome): State { s.(outcome := s.outcome[call := o]) }

  function Serve(s: State, call: Call, h: Handle): State {
    Settle(s.(active := s.active + 1, inUse := s.inUse + {h}), call, Served(h))
  }

  function OpenReader(s: State): State { s.(open := s.open + 1, nextHandle := s.nextHandle + 1) }

  /** The idle handles left once the unhealthy ones on top are discarded. */
  function Drained(idle: seq<Handle>, bad: set<Handle>): seq<Handle> {
    if idle != [] && idle[|idle| - 1] in bad then Drained(idle[..|idle| - 1], bad) else idle
  }

  function AcquireAs(s: State, call: Call, bad: set<Handle>, opens: bool): State {
    if s.closed then Settle(s, call, Rejected)
    else
      var left := Drained(s.idle, bad);
      var t := s.(idle := left, open := s.open - (|s.idle| - |left|));
      if left != [] then Serve(t.(idle := left[..|left| - 1]), call, left[|left| - 1])
      else if t.open < t.max then
        if opens then Serve(OpenReader(t), call, t.nextHandle) else Settle(t, call, OpenFailed)
      else t.(waiters := t.waiters + [call], waited := t.waited + {call})
  }

  function Without(waiters: seq<Call>, call: Call): seq<Call> {
    if waiters == [] then []
    else if waiters[0] == call then waiters[1..]
    else [waiters[0]] + Without(waiters[1..], call)
  }

  function GiveUp(s: State, h: Handle): State { s.(active := s.active - 1, inUse := s.inUse - {h}) }

  function CloseHandle(s: State): State { s.(open := s.open - 1) }

  function ReleaseHandle(s: State, h: Handle, healthy: bool, opens: bool): State {
    var t := GiveUp(s, h);
    if t.closed then CloseHandle(t)
    else if t.waiters != [] then
      var u := t.(waiters := t.waiters[1..]);
      if healthy then Serve(u, t.waiters[0], h)
      else if opens then Serve(OpenReader(CloseHandle(u)), t.waiters[0], u.nextHandle)
      else CloseHandle(u.(lost := u.lost + {t.waiters[0]}))
    else if !healthy || |t.idle| >= t.min then CloseHandle(t)
    else t.(idle := t.idle + [h])
  }

  function RejectAll(outcome: map<Call, Outcome>, waiters: seq<Call>): map<Call, Outcome> {
    map c | c in outcome.Keys + Elems(waiters) :: if c in waiters then Rejected else outcome[c]
  }

  function Apply(s: State, step: Step): State {
    match step
    case Acquire(bad, opens) => AcquireAs(s.(nextCall := s.nextCall + 1), s.nextCall, bad, opens)
    case TimeOut(c) => Settle(s.(waiters := Without(s.waiters, c)), c, TimedOut)
    case Release(h, healthy, opens) => ReleaseHandle(s, h, healthy, opens)
    case BeginClose => s.(closed := true, waiters := [], outcome := RejectAll(s.outcome, s.waiters))
    case FinishClose => s.(idle := [], open := s.open - |s.idle|)
  }

  function Warm(min: nat, max: nat): State {
    State(min, max, seq(min, i => i), [], min, 0, false, {}, min, 0, {}, map[], {})
  }

  predicate IsRun(s: State, steps: seq<Step>)
    decreases |steps|
  {
    steps == [] || (Enabled(s, steps[0]) && IsRun(Apply(s, steps[0]), steps[1..]))
  }

  function After(s: State, steps: seq<Step>): State
    decreases |steps|
  {
    if steps == [] then s else After(Apply(s, steps[0]), steps[1..])
  }
}

module PoolTheorems {
  import opened Common
  import opened PoolModel

  /** Open readers are exactly the lent and the idle ones, within both limits. */
  ghost predicate Accounts(s: State) {
    && 1 <= s.min <= s.max
    && s.open == s.active + |s.idle| <= s.max && |s.idle| <= s.min && s.active == |s.inUse|
  }

  /** Each handle is lent to at most one reader. */
  ghost predicate Handles(s: State) {
    && NoDup(s.idle) && (forall h :: h in s.idle ==> h !in s.inUse && h < s.nextHandle)
    && (forall h :: h in s.inUse ==> h < s.nextHandle)
  }

  /** Every call waits, in order of arrival, or is settled, or is lost, and only one of these. */
  ghost predicate Calls(s: State) {
    && Rising(s.waiters)
    && (forall c: Call :: CallOk(s, c))
  }

  predicate CallOk(s: State, c: Call) {
    && (c in s.waiters ==> c < s.nextCall && c in s.waited && c !in s.outcome && c !in s.lost)
    && (c in s.lost ==> c < s.nextCall && c in s.waited && c !in s.outcome)
    && (c < s.nextCall ==> c in s.waiters || c in s.outcome || c in s.lost)
    && (c in s.outcome || c in s.waited ==> c < s.nextCall)
  }

  /** A caller that queued is served only once every earlier one that queued is settled or lost. */
  ghost predicate Fifo(s: State) {
    forall a, b :: a in s.waited && b in s.waited && a < b && b in s.outcome && s.outcome[b].Served? ==>
      a in s.outcome || a in s.lost
  }

  /** While anyone waits, nothing is idle, and the pool is full but for one reader a lost waiter. */
  ghost predicate Saturated(s: State) {
    s.waiters != [] ==> s.max - |s.lost| <= s.open && s.idle == [] && !s.closed
  }

  ghost predicate Inv(s: State) { Accounts(s) && Handles(s) && Calls(s) && Fifo(s) && Saturated(s) }

  lemma WarmInv(min: nat, max: nat)
    requires 1 <= min <= max
    ensures Inv(Warm(min, max))
  {
  }

  // ------------------------------------------------------------------ acquire

  lemma {:induction false} DrainedPrefix(idle: seq<Handle>, bad: set<Handle>)
    ensures Drained(idle, bad) <= idle
    ensures Drained(idle, bad) != [] ==> Drained(idle, bad)[|Drained(idle, bad)| - 1] !in bad
  {
    if idle != [] && idle[|idle| - 1] in bad {
      DrainedPrefix(idle[..|idle| - 1], bad);
    }
  }

  /** Discarding idle handles keeps everything but a full pool's saturation, which needs no idle ones. */
  lemma DrainKeeps(s: State, left: seq<Handle>)
    requires Inv(s) && left <= s.idle
    ensures Inv(s.(idle := left, open := s.open - (|s.idle| - |left|)))
  {
    var t := s.(idle := left, open := s.open - (|s.idle| - |left|));
    forall c: Call ensures CallOk(t, c) { assert CallOk(s, c); }
  }

  /** The state in between: call `c` has been numbered but neither queued nor settled. */
  ghost predicate Numbered(s: State, c: Call) {
    && Accounts(s) && Handles(s) && Fifo(s) && Saturated(s)
    && s.nextCall == c + 1 && c !in s.waiters && c !in s.outcome && c !in s.waited && c !in s.lost
    && Calls(s.(nextCall := c))
  }

  lemma SettleKeeps(s: State, c: Call, o: Outcome)
    requires Numbered(s, c)
    ensures Inv(Settle(s, c, o))
  {
    var t := Settle(s, c, o);
    forall d: Call ensures CallOk(t, d) { assert CallOk(s.(nextCall := c), d); }
  }

  lemma ServeIdleKeeps(s: State, c: Call)
    requires Numbered(s, c) && s.idle != []
    ensures Inv(Serve(s.(idle := s.idle[..|s.idle| - 1]), c, s.idle[|s.idle| - 1]))
  {
    var h := s.idle[|s.idle| - 1];
    assert h in s.idle;
    var t := Serve(s.(idle := s.idle[..|s.idle| - 1]), c, h);
    forall g | g in t.idle ensures g in s.idle && g != h {
      var i :| 0 <= i < |t.idle| && t.idle[i] == g;
      assert s.idle[i] == g;
    }
    forall d: Call ensures CallOk(t, d) { assert CallOk(s.(nextCall := c), d); }
  }

  lemma OpenKeeps(s: State, c: Call)
    requires Numbered(s, c) && s.open < s.max
    ensures Inv(Serve(OpenReader(s), c, s.nextHandle))
  {
    var t := Serve(OpenReader(s), c, s.nextHandle);
    forall h | h in t.idle ensures h !in t.inUse && h < t.nextHandle { assert h in s.idle; }
    forall h | h in t.inUse ensures h < t.nextHandle { assert h == s.nextHandle || h in s.inUse; }
    assert s.nextHandle !in s.inUse;
    forall d: Call ensures CallOk(t, d) { assert CallOk(s.(nextCall := c), d); }
  }

  lemma QueueKeeps(s: State, c: Call)
    requires Numbered(s, c) && !s.closed && s.idle == [] && s.open == s.max
    ensures Inv(s.(waiters := s.waiters + [c], waited := s.waited + {c}))
  {
    var t := s.(waiters := s.waiters + [c], waited := s.waited + {c});
    forall d: Call ensures CallOk(t, d) { assert CallOk(s.(nextCall := c), d); }
    forall b | b in s.waited ensures b < c { assert CallOk(s.(nextCall := c), b); }
    forall i | 0 <= i < |s.waiters| ensures s.waiters[i] < c { assert CallOk(s.(nextCall := c), s.waiters[i]); }
  }

  lemma AcquireKeeps(s: State, bad: set<Handle>, opens: bool)
    requires Inv(s)
    ensures Inv(AcquireAs(s.(nextCall := s.nextCall + 1), s.nextCall, bad, opens))
  {
    hide Inv, Accounts, Handles, Calls, Fifo, Saturated, Numbered, Settle, Serve, OpenReader, Drained;
    var c := s.nextCall;
    var left := Drained(s.idle, bad);
    DrainedPrefix(s.idle, bad);
    DrainKeeps(s, left);
    if s.closed {
      NumberedFrom(s, s.(nextCall := c + 1));
      SettleKeeps(s.(nextCall := c + 1), c, Rejected);
    } else {
      var d := s.(idle := left, open := s.open - (|s.idle| - |left|));
      NumberedFrom(d, d.(nextCall := c + 1));
      DrainedAcquire(d.(nextCall := c + 1), c, opens);
      assert s.(nextCall := c + 1, idle := left, open := d.open) == d.(nextCall := c + 1);
    }
  }

  /** The acquisition once the unhealthy idle handles are gone. */
  lemma DrainedAcquire(t: State, c: Call, opens: bool)
    requires Numbered(t, c) && !t.closed
    ensures Inv(if t.idle != [] then Serve(t.(idle := t.idle[..|t.idle| - 1]), c, t.idle[|t.idle| - 1])
                else if t.open < t.max then
                  if opens then Serve(OpenReader(t), c, t.nextHandle) else Settle(t, c, OpenFailed)
                else t.(waiters := t.waiters + [c], waited := t.waited + {c}))
  {
    assert t.open <= t.max;
    hide Inv, Accounts, Handles, Calls, Fifo, Saturated, Numbered, Settle, Serve, OpenReader;
    if t.idle != [] {
      ServeIdleKeeps(t, c);
    } else if t.open < t.max {
      OpenKeeps(t, c);
      SettleKeeps(t, c, OpenFailed);
    } else {
      QueueKeeps(t, c);
    }
  }

  lemma NumberedFrom(s: State, n: State)
    requires Inv(s) && n == s.(nextCall := s.nextCall + 1)
    ensures Numbered(n, s.nextCall)
  {
    assert CallOk(s, s.nextCall);
    assert s.nextCall !in s.waiters && s.nextCall !in s.outcome && s.nextCall !in s.lost;
    assert n.(nextCall := s.nextCall) == s;
  }

  // ------------------------------------------------------------------ timeouts

  predicate Rising(waiters: seq<Call>) { forall i, j :: 0 <= i < j < |waiters| ==> waiters[i] < waiters[j] }

  lemma RisingTail(waiters: seq<Call>)
    requires Rising(waiters) && waiters != []
    ensures Rising(waiters[1..]) && forall x :: x in waiters[1..] ==> waiters[0] < x
  {
  }

  lemma RisingCons(c: Call, waiters: seq<Call>)
    requires Rising(waiters) && forall x :: x in waiters ==> c < x
    ensures Rising([c] + waiters)
  {
    assert forall i :: 0 <= i < |waiters| ==> waiters[i] in waiters;
  }

  lemma {:induction false} WithoutIs(waiters: seq<Call>, c: Call)
    requires Rising(waiters)
    ensures Rising(Without(waiters, c)) && forall x :: x in Without(waiters, c) <==> x in waiters && x != c
    decreases |waiters|
  {
    if waiters != [] {
      var rest := waiters[1..];
      RisingTail(waiters);
      WithoutIs(rest, c);
      hide Rising;
      assert waiters == [waiters[0]] + rest;
      if waiters[0] != c { RisingCons(waiters[0], Without(rest, c)); }
    }
  }

  lemma TimeOutKeeps(s: State, c: Call)
    requires Inv(s) && c in s.waiters
    ensures Inv(Apply(s, TimeOut(c)))
  {
    forall d: Call ensures CallOk(Apply(s, TimeOut(c)), d) { WithoutIs(s.waiters, c); assert CallOk(s, d); }
    WithoutIs(s.waiters, c);
    hide Without;
    var t := Apply(s, TimeOut(c));
    assert t.waiters != [] ==> t.waiters[0] in s.waiters;
  }

  // ------------------------------------------------------------------ release

  /** The longest-waiting call is handed `h`. */
  lemma ServeHeadKeeps(s: State, t: State, h: Handle)
    requires Inv(s) && s.waiters != []
    requires t == Serve(s.(waiters := s.waiters[1..], active := s.active - 1, inUse := t.inUse - {h},
                           nextHandle := t.nextHandle), s.waiters[0], h)
    requires h !in s.idle && h < t.nextHandle && t.nextHandle >= s.nextHandle
    requires t.inUse - {h} <= s.inUse && |t.inUse - {h}| == s.active - 1 && h in t.inUse
    ensures Inv(t)
  {
    var head := s.waiters[0];
    assert s.waiters == [head] + s.waiters[1..];
    assert forall c :: c in s.waiters[1..] ==> c in s.waiters && c > head;
    assert |t.inUse| == s.active by { assert t.inUse == t.inUse - {h} + {h}; }
    assert Fifo(t) by {
      forall a, b | a in t.waited && b in t.waited && a < b && b in t.outcome && t.outcome[b].Served?
        ensures a in t.outcome || a in t.lost {
        if b == head && a !in s.outcome {
          assert CallOk(s, a);
        }
      }
    }
    forall c: Call ensures CallOk(t, c) { assert CallOk(s, c); }
  }

  lemma CloseKeeps(s: State, h: Handle)
    requires Inv(s) && h in s.inUse && s.waiters == []
    ensures Inv(CloseHandle(GiveUp(s, h)))
  {
    var t := CloseHandle(GiveUp(s, h));
    forall c: Call ensures CallOk(t, c) { assert CallOk(s, c); }
  }

  lemma IdleKeeps(s: State, h: Handle)
    requires Inv(s) && h in s.inUse && s.waiters == [] && |s.idle| < s.min
    ensures Inv(GiveUp(s, h).(idle := s.idle + [h]))
  {
    var t := GiveUp(s, h).(idle := s.idle + [h]);
    forall c: Call ensures CallOk(t, c) { assert CallOk(s, c); }
  }

  /** The head of the queue is dropped with the unhealthy handle. */
  lemma LoseKeeps(s: State, h: Handle)
    requires Inv(s) && h in s.inUse && s.waiters != []
    ensures Inv(ReleaseHandle(s, h, false, false))
  {
    var t := ReleaseHandle(s, h, false, false);
    var head := s.waiters[0];
    assert s.waiters == [head] + s.waiters[1..];
    assert CallOk(s, head);
    RisingTail(s.waiters);
    forall c: Call ensures CallOk(t, c) { assert CallOk(s, c); }
  }

  lemma ReleaseKeeps(s: State, h: Handle, healthy: bool, opens: bool)
    requires Inv(s) && h in s.inUse
    ensures Inv(ReleaseHandle(s, h, healthy, opens))
  {
    assert !s.closed || s.waiters == [];
    assert h !in s.idle && h < s.nextHandle && s.active == |s.inUse|;
    var t := ReleaseHandle(s, h, healthy, opens);
    if s.waiters == [] {
      hide Inv;
      CloseKeeps(s, h);
      if |s.idle| < s.min { IdleKeeps(s, h); }
    } else if healthy {
      assert t.inUse - {h} == s.inUse - {h};
      ServeHeadKeeps(s, t, h);
    } else if opens {
      var spare := s.nextHandle;
      assert spare !in s.inUse && spare !in s.idle;
      assert t.inUse - {spare} == s.inUse - {h};
      ServeHeadKeeps(s, t, spare);
    } else {
      LoseKeeps(s, h);
    }
  }

  /** What the pool promises its callers: each of them waits or is settled, and while anyone waits the pool is full. */
  ghost predicate Promises(s: State) {
    && (forall c: Call :: c < s.nextCall ==> c in s.waiters || c in s.outcome)
    && (s.waiters != [] ==> s.open == s.max && s.idle == [])
  }

  lemma PromisesIff(s: State)
    requires Inv(s)
    ensures Promises(s) <==> s.lost == {}
  {
    if s.lost == {} {
      forall c: Call | c < s.nextCall ensures c in s.waiters || c in s.outcome { assert CallOk(s, c); }
    } else {
      var c :| c in s.lost;
      assert CallOk(s, c);
    }
  }

  /** A release keeps the promises exactly unless somebody waits, the handle is unhealthy and its replacement
      cannot be opened. */
  lemma ReleaseKeepsIff(s: State, h: Handle, healthy: bool, opens: bool)
    requires Inv(s) && Promises(s) && h in s.inUse
    ensures Promises(ReleaseHandle(s, h, healthy, opens)) <==> s.waiters == [] || healthy || opens
  {
    assert s.closed ==> s.waiters == [];
    ReleaseKeeps(s, h, healthy, opens);
    PromisesIff(s);
    PromisesIff(ReleaseHandle(s, h, healthy, opens));
  }

  /** Whoever comes while others wait queues behind them exactly when the pool is full. */
  lemma NoOvertakingIff(s: State, bad: set<Handle>, opens: bool)
    requires Inv(s) && s.waiters != []
    ensures Apply(s, Acquire(bad, opens)).waiters == s.waiters + [s.nextCall] <==> s.open == s.max
    ensures s.open < s.max && opens ==>
              s.nextCall in Apply(s, Acquire(bad, opens)).outcome && Apply(s, Acquire(bad, opens)).outcome[s.nextCall].Served?
  {
  }

  /** The dropped waiter is neither waiting nor settled, and whoever still waits behind it is overtaken by the
      next caller who finds a reader to open. */
  lemma WaiterLost(s: State, h: Handle, bad: set<Handle>)
    requires Inv(s) && h in s.inUse && s.waiters != []
    ensures var t := ReleaseHandle(s, h, false, false);
            && s.waiters[0] < t.nextCall && s.waiters[0] !in t.waiters && s.waiters[0] !in t.outcome
            && var u := Apply(t, Acquire(bad, true));
               |s.waiters| > 1 ==>
                 && s.waiters[1] in u.waiters && s.waiters[1] < s.nextCall
                 && s.nextCall in u.outcome && u.outcome[s.nextCall].Served?
  {
    var t := ReleaseHandle(s, h, false, false);
    LoseKeeps(s, h);
    assert CallOk(s, s.waiters[0]);
    assert s.waiters[0] in t.lost && CallOk(t, s.waiters[0]);
    if |s.waiters| > 1 {
      assert CallOk(s, s.waiters[1]);
      assert t.waiters[0] == s.waiters[1] && t.open < t.max;
      NoOvertakingIff(t, bad, true);
    }
  }

  // ------------------------------------------------------------------ close

  lemma BeginCloseKeeps(s: State)
    requires Inv(s)
    ensures Inv(Apply(s, BeginClose))
  {
    var t := Apply(s, BeginClose);
    forall c: Call ensures CallOk(t, c) { assert CallOk(s, c); }
  }

  lemma FinishCloseKeeps(s: State)
    requires Inv(s) && s.closed
    ensures Inv(Apply(s, FinishClose))
  {
    var t := Apply(s, FinishClose);
    forall c: Call ensures CallOk(t, c) { assert CallOk(s, c); }
  }

  // ------------------------------------------------------------------ runs

  lemma StepKeepsInv(s: State, step: Step)
    requires Inv(s) && Enabled(s, step)
    ensures Inv(Apply(s, step))
  {
    if step == FinishClose { FinishCloseKeeps(s); }
    hide Inv;
    match step
    case Acquire(bad, opens) => AcquireKeeps(s, bad, opens);
    case TimeOut(c) => TimeOutKeeps(s, c);
    case Release(h, healthy, opens) => ReleaseKeeps(s, h, healthy, opens);
    case BeginClose => BeginCloseKeeps(s);
    case FinishClose =>
  }

  /** Settled calls stay settled the same way, lost ones stay lost, and the limits are fixed. */
  ghost predicate Later(s: State, t: State) {
    && (forall c :: c in s.outcome ==> c in t.outcome && t.outcome[c] == s.outcome[c])
    && s.lost <= t.lost && t.min == s.min && t.max == s.max
  }

  lemma StepIsLater(s: State, step: Step)
    requires Inv(s) && Enabled(s, step)
    ensures Later(s, Apply(s, step))
  {
    match step
    case Acquire(_, _) => assert CallOk(s, s.nextCall);
    case Release(h, _, _) => assert s.waiters != [] ==> CallOk(s, s.waiters[0]);
    case TimeOut(c) => assert CallOk(s, c);
    case BeginClose => forall c | c in s.outcome ensures c !in s.waiters { assert CallOk(s, c); }
    case FinishClose =>
  }

  lemma {:induction false} RunKeepsInv(s: State, steps: seq<Step>)
    requires Inv(s) && IsRun(s, steps)
    ensures Inv(After(s, steps)) && Later(s, After(s, steps))
    decreases |steps|
  {
    if steps != [] {
      StepKeepsInv(s, steps[0]);
      StepIsLater(s, steps[0]);
      hide Inv, Enabled, Apply;
      RunKeepsInv(Apply(s, steps[0]), steps[1..]);
    }
  }

  /** Over every run whatever: readers are the lent and the idle ones, within both limits, and no handle is lent
      twice; each call waits, is settled, or is lost; waiters are in order of arrival, and one is served only when
      every earlier one is settled or lost; while anyone waits nothing is idle. */
  lemma PoolAccounting(min: nat, max: nat, steps: seq<Step>)
    requires 1 <= min <= max && IsRun(Warm(min, max), steps)
    ensures var s := After(Warm(min, max), steps);
            && s.open == s.active + |s.idle| <= max && |s.idle| <= min && s.active == |s.inUse|
            && NoDup(s.idle) && (forall h :: h in s.idle ==> h !in s.inUse)
            && Rising(s.waiters) && (s.waiters != [] ==> max - |s.lost| <= s.open && s.idle == [])
            && (forall c: Call :: c < s.nextCall ==> (c in s.waiters <==> c !in s.outcome && c !in s.lost))
            && (forall c: Call :: c in s.lost ==> c !in s.outcome)
            && (forall a, b :: a in s.waited && b in s.waited && a < b && b in s.outcome && s.outcome[b].Served?
                  ==> a in s.outcome || a in s.lost)
  {
    WarmInv(min, max);
    RunKeepsInv(Warm(min, max), steps);
    var s := After(Warm(min, max), steps);
    forall c: Call | c < s.nextCall ensures c in s.waiters <==> c !in s.outcome && c !in s.lost { assert CallOk(s, c); }
    forall c: Call | c in s.lost ensures c !in s.outcome { assert CallOk(s, c); }
  }

  /** A replacement for an unhealthy handle can be opened whenever somebody waits for it. */
  predicate Replaceable(s: State, step: Step) { step.Release? ==> s.waiters == [] || step.healthy || step.opens }

  predicate AllReplaceable(s: State, steps: seq<Step>)
    decreases |steps|
  {
    steps == [] || (Replaceable(s, steps[0]) && AllReplaceable(Apply(s, steps[0]), steps[1..]))
  }

  lemma StepLosesIff(s: State, step: Step)
    requires Inv(s) && Enabled(s, step)
    ensures Apply(s, step).lost == s.lost <==> Replaceable(s, step)
  {
    if step.Release? && s.waiters != [] { assert CallOk(s, s.waiters[0]); }
  }

  lemma {:induction false} RunLosesIff(s: State, steps: seq<Step>)
    requires Inv(s) && IsRun(s, steps)
    ensures After(s, steps).lost == s.lost <==> AllReplaceable(s, steps)
    decreases |steps|
  {
    if steps != [] {
      StepLosesIff(s, steps[0]);
      StepKeepsInv(s, steps[0]);
      StepIsLater(s, steps[0]);
      RunKeepsInv(Apply(s, steps[0]), steps[1..]);
      hide Inv, Enabled, Apply, Replaceable;
      RunLosesIff(Apply(s, steps[0]), steps[1..]);
    }
  }

  /** The promises hold after a run exactly when every unhealthy handle released to a waiter could be replaced. */
  lemma PromisesKeptIff(min: nat, max: nat, steps: seq<Step>)
    requires 1 <= min <= max && IsRun(Warm(min, max), steps)
    ensures Promises(After(Warm(min, max), steps)) <==> AllReplaceable(Warm(min, max), steps)
  {
    WarmInv(min, max);
    RunKeepsInv(Warm(min, max), steps);
    RunLosesIff(Warm(min, max), steps);
    hide Inv, IsRun, After, AllReplaceable;
    PromisesIff(After(Warm(min, max), steps));
  }

  /** Each acquisition settles once, in every run whatever: what settled at any point never changes later. */
  lemma SettledOnce(min: nat, max: nat, first: seq<Step>, more: seq<Step>, c: Call)
    requires 1 <= min <= max && IsRun(Warm(min, max), first)
    requires IsRun(After(Warm(min, max), first), more) && c in After(Warm(min, max), first).outcome
    ensures var s := After(Warm(min, max), first);
            c in After(s, more).outcome && After(s, more).outcome[c] == s.outcome[c]
  {
    WarmInv(min, max);
    RunKeepsInv(Warm(min, max), first);
    RunKeepsInv(After(Warm(min, max), first), more);
  }

  /** Three callers share one reader; it turns out unhealthy, and no other opens until a fourth caller comes. */
  const LOSING_STEPS := [Acquire({}, true), Acquire({}, true), Acquire({}, true), Release(0, false, false), Acquire({}, true)]

  /** The one reader is lent to the first caller; the other two wait. */
  const QUEUED := State(1, 1, [], [1, 2], 1, 1, false, {0}, 1, 3, {1, 2}, map[0 := Served(0)], {})

  lemma LossQueued()
    ensures var s1 := Apply(Warm(1, 1), LOSING_STEPS[0]);
            Apply(Apply(s1, LOSING_STEPS[1]), LOSING_STEPS[2]) == QUEUED
  {
    var s0 := Warm(1, 1);
    assert s0.idle == [0];
    var s1 := Apply(s0, LOSING_STEPS[0]);
    assert Drained([0], {}) == [0];
    assert s1 == State(1, 1, [], [], 1, 1, false, {0}, 1, 1, {}, map[0 := Served(0)], {});
  }

  lemma LossOvertaken()
    ensures var s4 := Apply(QUEUED, LOSING_STEPS[3]);
            var s5 := Apply(s4, LOSING_STEPS[4]);
            && Enabled(QUEUED, LOSING_STEPS[3]) && s5.lost == {1} && s5.waiters == [2]
            && 1 !in s5.outcome && 3 in s5.outcome && s5.outcome[3].Served?
  {
    var s4 := Apply(QUEUED, LOSING_STEPS[3]);
    assert s4 == State(1, 1, [], [2], 0, 0, false, {}, 1, 3, {1, 2}, map[0 := Served(0)], {1});
  }

  /** From a warm pool of one, that run loses the second caller and serves the fourth before the third. */
  lemma LossReached()
    ensures IsRun(Warm(1, 1), LOSING_STEPS)
    ensures var s := After(Warm(1, 1), LOSING_STEPS);
            && s.lost == {1} && 1 !in s.waiters && 1 !in s.outcome
            && s.waiters == [2] && 3 in s.outcome && s.outcome[3].Served?
  {
    LossQueued();
    LossOvertaken();
    hide Apply;
    var t := LOSING_STEPS;
    var s1 := Apply(Warm(1, 1), t[0]);
    var s2 := Apply(s1, t[1]);
    var s4 := Apply(QUEUED, t[3]);
    FiveSteps(Warm(1, 1), t, s1, s2, QUEUED, s4, Apply(s4, t[4]));
  }

  lemma FiveSteps(s0: State, t: seq<Step>, s1: State, s2: State, s3: State, s4: State, s5: State)
    requires |t| == 5
    requires Enabled(s0, t[0]) && Enabled(s1, t[1]) && Enabled(s2, t[2]) && Enabled(s3, t[3]) && Enabled(s4, t[4])
    requires s1 == Apply(s0, t[0]) && s2 == Apply(s1, t[1]) && s3 == Apply(s2, t[2])
    requires s4 == Apply(s3, t[3]) && s5 == Apply(s4, t[4])
    ensures IsRun(s0, t) && After(s0, t) == s5
  {
    hide Apply, Enabled;
    assert t[1..][1..] == t[2..] && t[2..][1..] == t[3..] && t[3..][1..] == t[4..] && t[4..][1..] == [];
    assert IsRun(s5, []) && After(s5, []) == s5;
    assert IsRun(s4, t[4..]) && After(s4, t[4..]) == s5;
    assert IsRun(s3, t[3..]) && After(s3, t[3..]) == s5;
    assert IsRun(s2, t[2..]) && After(s2, t[2..]) == s5;
    assert IsRun(s1, t[1..]) && After(s1, t[1..]) == s5;
  }
}
