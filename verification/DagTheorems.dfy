/** What every abort-free run of the DAG executor guarantees. */
module DagTheorems {
  import opened Common
  import opened DagModel
  import opened DagInvariant
  import opened DagSettlement
  import opened DagTermination
  import opened DagTrace

  // ------------------------------------------------------------------ safety at every step

  function Busy(s: State): set<NodeId> {
    set n | n in s.phase && s.phase[n] in {Dispatching, Stored, Paying}
  }

  ghost predicate LimiterSafe(s: State) {
    && NoDup(s.started) && s.started <= s.submitted && s.submitted == s.started + s.queue
    && Busy(s) <= s.slots && |s.slots| <= s.limit
    && (s.queue != [] ==> |s.slots| == s.limit)
  }

  ghost predicate StartsSafe(s: State) {
    forall n :: n in s.started ==>
      && n in s.dag.deps && n in s.contexts && Delivers(s.dag.deps[n], s.results, s.contexts[n])
      && forall d :: d in s.dag.deps[n] ==> d in s.completed
  }

  lemma DependencySafety(dag: Dag, limit: nat, status: map<NodeId, Status>, results: map<NodeId, string>,
                         releases: multiset<NodeId>, env: Env, steps: seq<Step>)
    requires ValidStart(dag, limit, status)
    requires IsRun(Begin(dag, limit, status, results, releases), env, steps)
    ensures var s := After(Begin(dag, limit, status, results, releases), steps);
            s.dag == dag && s.limit == limit && LimiterSafe(s) && StartsSafe(s)
  {
    var st := StartOf(dag, status);
    var s := After(Begin(dag, limit, status, results, releases), steps);
    hide StartOf, Begin, IsRun, After, Core, Reasons, SettleOk, Trace, LimiterSafe, StartsSafe;
    Reachable(dag, limit, status, results, releases, env, steps);
    RunDag(dag, limit, status, results, releases, env, steps);
    CoreIsSafe(s, env, st);
    StartsAreSafe(s, st);
  }

  lemma StartsAreSafe(s: State, st: Start)
    requires Trace(s, st)
    ensures StartsSafe(s)
  {
    forall n | n in s.started
      ensures n in s.dag.deps && n in s.contexts && Delivers(s.dag.deps[n], s.results, s.contexts[n])
      ensures forall d :: d in s.dag.deps[n] ==> d in s.completed {
      assert n in s.dag.deps && s.contexts[n] == ContextOf(DepsOf(s, n), s.results);
      hide Trace, Delivers;
      assert DepsIn(s, n, s.completed) && DepsOf(s, n) == s.dag.deps[n];
      ContextDelivers(s.dag.deps[n], s.results);
    }
  }

  lemma CoreIsSafe(s: State, env: Env, st: Start)
    requires Core(s, env, st)
    ensures LimiterSafe(s)
  {
    forall n | n in Busy(s) ensures n in s.slots {
      PhaseInStatus(s, env, st, n);
      assert NodeOk(s, env, st, n);
    }
    forall i, j | 0 <= i < j < |s.started| ensures s.started[i] != s.started[j] {
      assert s.submitted[i] == s.started[i] && s.submitted[j] == s.started[j];
    }
  }

  // ------------------------------------------------------------------ schedule independence

  /** `x` holds the pre-completed nodes and every succeeding node whose dependencies it holds. */
  ghost predicate Closed(dag: Dag, pre: set<NodeId>, succeeds: set<NodeId>, x: set<NodeId>)
    requires dag.Valid()
  {
    && pre <= x
    && forall n :: n in dag.deps && n in succeeds && (forall d :: d in dag.deps[n] ==> d in x) ==> n in x
  }

  ghost predicate LeastClosed(dag: Dag, pre: set<NodeId>, succeeds: set<NodeId>, x: set<NodeId>)
    requires dag.Valid()
  {
    && Closed(dag, pre, succeeds, x)
    && forall y :: Closed(dag, pre, succeeds, y) ==> x <= y
  }

  lemma {:induction false} StartedInEvery(s: State, env: Env, st: Start, y: set<NodeId>, i: nat)
    requires s.dag.Valid() && s.status.Keys == s.dag.deps.Keys
    requires Reasons(s, env, st, false) && StartOrder(s, st) && ContextsOk(s)
    requires Closed(s.dag, st.pre, env.succeeds, y) && i <= |s.started|
    requires s.completed <= s.status.Keys
    ensures forall j :: 0 <= j < i && s.started[j] in s.completed ==> s.started[j] in y
  {
    hide Closed, Reasons, StartOrder, ContextsOk;
    if i > 0 {
      StartedInEvery(s, env, st, y, i - 1);
      var n := s.started[i - 1];
      if n in s.completed {
        StartedInOne(s, env, st, y, i - 1);
      }
    }
  }

  lemma StartedInOne(s: State, env: Env, st: Start, y: set<NodeId>, i: nat)
    requires s.dag.Valid() && s.status.Keys == s.dag.deps.Keys && s.completed <= s.status.Keys
    requires Reasons(s, env, st, false) && StartOrder(s, st) && ContextsOk(s)
    requires Closed(s.dag, st.pre, env.succeeds, y) && i < |s.started| && s.started[i] in s.completed
    requires forall j :: 0 <= j < i && s.started[j] in s.completed ==> s.started[j] in y
    ensures s.started[i] in y
  {
    var n := s.started[i];
    assert CompletedOk(s, env, st, n);
    assert DepsIn(s, n, st.pre + Elems(s.started[..i]));
    forall d | d in s.dag.deps[n] ensures d in y {
      assert d in DepsOf(s, n);
      if d !in st.pre {
        assert d in s.started[..i];
        var j :| 0 <= j < i && s.started[j] == d;
        assert d in s.completed;
      }
    }
  }

  lemma CompletedIsLeast(s: State, env: Env, st: Start)
    requires Inv(s, env, st) && Trace(s, st) && s.settled && st.stuck == {}
    ensures s.dag.Valid() && LeastClosed(s.dag, st.pre, env.succeeds, s.completed)
    ensures s.failed == s.dag.Ids() - s.completed
  {
    SettledFacts(s, env, st);
    hide Core, SettleOk, Closed, Trace;
    SettledClosed(s, env, st);
    forall y | Closed(s.dag, st.pre, env.succeeds, y) ensures s.completed <= y {
      SettledBelow(s, env, st, y);
    }
  }

  lemma SettledFacts(s: State, env: Env, st: Start)
    requires Inv(s, env, st) && s.settled
    ensures s.dag.Valid() && s.status.Keys == s.dag.deps.Keys && st.pre <= s.completed && Covered(s)
    ensures s.completed !! s.failed && s.dag.Ids() == s.status.Keys
  {
    hide Reasons, NodeOk, Limiter, Counts;
  }

  lemma SettledClosed(s: State, env: Env, st: Start)
    requires Reasons(s, env, st, false) && Covered(s) && st.stuck == {}
    requires s.dag.Valid() && s.status.Keys == s.dag.deps.Keys && st.pre <= s.completed && s.completed !! s.failed
    ensures Closed(s.dag, st.pre, env.succeeds, s.completed)
  {
    forall n | n in s.dag.deps && n in env.succeeds && (forall d :: d in s.dag.deps[n] ==> d in s.completed)
      ensures n in s.completed
    {
      assert n in s.completed + s.failed;
      assert FailedOk(s, env, st, false, n);
    }
  }

  lemma SettledBelow(s: State, env: Env, st: Start, y: set<NodeId>)
    requires s.dag.Valid() && s.status.Keys == s.dag.deps.Keys && Covered(s)
    requires Reasons(s, env, st, false) && Trace(s, st)
    requires Closed(s.dag, st.pre, env.succeeds, y)
    ensures s.completed <= y
  {
    StartedInEvery(s, env, st, y, |s.started|);
    forall n | n in s.completed ensures n in y {
      assert CompletedOk(s, env, st, n);
      if n !in st.pre {
        var j :| 0 <= j < |s.started| && s.started[j] == n;
      }
    }
  }

  /** A settled run completes exactly the least closed set, and fails exactly the rest. */
  lemma ScheduleIndependence(dag: Dag, limit: nat, status: map<NodeId, Status>, results: map<NodeId, string>,
                             releases: multiset<NodeId>, env: Env, steps: seq<Step>)
    requires FreshStart(dag, limit, status)
    requires IsRun(Begin(dag, limit, status, results, releases), env, steps)
    requires After(Begin(dag, limit, status, results, releases), steps).settled
    ensures var s := After(Begin(dag, limit, status, results, releases), steps);
            && LeastClosed(dag, StartOf(dag, status).pre, env.succeeds, s.completed)
            && s.failed == dag.Ids() - s.completed
  {
    hide LeastClosed, Begin, IsRun, After, Inv, Trace;
    Reachable(dag, limit, status, results, releases, env, steps);
    var s := After(Begin(dag, limit, status, results, releases), steps);
    CompletedIsLeast(s, env, StartOf(dag, status));
    RunDag(dag, limit, status, results, releases, env, steps);
  }

  lemma RunDag(dag: Dag, limit: nat, status: map<NodeId, Status>, results: map<NodeId, string>,
               releases: multiset<NodeId>, env: Env, steps: seq<Step>)
    requires ValidStart(dag, limit, status)
    requires IsRun(Begin(dag, limit, status, results, releases), env, steps)
    ensures After(Begin(dag, limit, status, results, releases), steps).dag == dag
    ensures After(Begin(dag, limit, status, results, releases), steps).limit == limit
  {
    var st := StartOf(dag, status);
    hide Core, IsRun, After, ScheduleReadyNodes, StartOf;
    FreshCore(dag, limit, status, results, releases, env);
    BeginCore(dag, limit, status, results, releases, env);
    ScheduleReadyKeepsDag(Fresh(dag, limit, status, results, releases), env, st);
    RunKeepsDag(Begin(dag, limit, status, results, releases), env, st, steps);
  }

  lemma LeastIsUnique(dag: Dag, pre: set<NodeId>, succeeds: set<NodeId>, x: set<NodeId>, y: set<NodeId>)
    requires dag.Valid() && LeastClosed(dag, pre, succeeds, x) && LeastClosed(dag, pre, succeeds, y)
    ensures x == y
  {
  }

  /** Two runs of one DAG agree on the outcome of every node, whatever the interleaving and the limits. */
  lemma AnyTwoRunsAgree(dag: Dag, limit1: nat, limit2: nat, status: map<NodeId, Status>,
                        results: map<NodeId, string>, releases: multiset<NodeId>, env: Env,
                        run1: seq<Step>, run2: seq<Step>)
    requires FreshStart(dag, limit1, status) && FreshStart(dag, limit2, status)
    requires IsRun(Begin(dag, limit1, status, results, releases), env, run1)
    requires IsRun(Begin(dag, limit2, status, results, releases), env, run2)
    requires After(Begin(dag, limit1, status, results, releases), run1).settled
    requires After(Begin(dag, limit2, status, results, releases), run2).settled
    ensures var s := After(Begin(dag, limit1, status, results, releases), run1);
            var t := After(Begin(dag, limit2, status, results, releases), run2);
            s.completed == t.completed && s.failed == t.failed
  {
    hide LeastClosed, Begin, IsRun, After;
    ScheduleIndependence(dag, limit1, status, results, releases, env, run1);
    ScheduleIndependence(dag, limit2, status, results, releases, env, run2);
    LeastIsUnique(dag, StartOf(dag, status).pre, env.succeeds,
                  After(Begin(dag, limit1, status, results, releases), run1).completed,
                  After(Begin(dag, limit2, status, results, releases), run2).completed);
  }

  // ------------------------------------------------------------------ settlement

  /** No run is longer than the measure of its first state. */
  lemma {:induction false} RunBound(s: State, env: Env, st: Start, steps: seq<Step>)
    requires Inv(s, env, st) && IsRun(s, env, steps)
    ensures |steps| + Measure(After(s, steps)) <= Measure(s)
    decreases |steps|
  {
    hide Inv, Apply, Enabled, Measure;
    if steps == [] {
    } else {
      StepKeepsInv(s, env, st, steps[0]);
      assert Core(s, env, st) by { InvCore(s, env, st); }
      StepLowersMeasure(s, env, st, steps[0]);
      RunBound(Apply(s, steps[0]), env, st, steps[1..]);
    }
  }

  lemma InvCore(s: State, env: Env, st: Start)
    requires Inv(s, env, st)
    ensures Core(s, env, st)
  {
  }

  /** Any state of a run can be carried on to settlement. */
  lemma {:induction false} CanSettle(s: State, env: Env, st: Start) returns (steps: seq<Step>)
    requires Inv(s, env, st) && st.stuck == {}
    ensures IsRun(s, env, steps) && After(s, steps).settled
    decreases Measure(s)
  {
    hide Inv, Apply, Enabled, Measure;
    if s.settled {
      steps := [];
    } else {
      var step := Progress(s, env, st);
      StepKeepsInv(s, env, st, step);
      InvCore(s, env, st);
      StepLowersMeasure(s, env, st, step);
      var rest := CanSettle(Apply(s, step), env, st);
      steps := [step] + rest;
      assert steps[1..] == rest;
    }
  }

  lemma SettledMeansNoStuck(s: State, env: Env, st: Start)
    requires Inv(s, env, st) && s.settled
    ensures st.stuck == {}
  {
    hide Reasons, NodeOk, Limiter, Counts;
    assert st.stuck == st.stuck * (s.completed + s.failed);
  }

  /** A run can settle exactly when every node starts pending or completed. */
  lemma SettlesIffFresh(dag: Dag, limit: nat, status: map<NodeId, Status>, results: map<NodeId, string>,
                        releases: multiset<NodeId>, env: Env)
    requires ValidStart(dag, limit, status)
    ensures (exists steps :: IsRun(Begin(dag, limit, status, results, releases), env, steps)
                             && After(Begin(dag, limit, status, results, releases), steps).settled)
            <==> FreshStart(dag, limit, status)
  {
    hide Begin, IsRun, After, Inv, Trace;
    var s := Begin(dag, limit, status, results, releases);
    var st := StartOf(dag, status);
    BeginInv(dag, limit, status, results, releases, env);
    if steps :| IsRun(s, env, steps) && After(s, steps).settled {
      Reachable(dag, limit, status, results, releases, env, steps);
      SettledMeansNoStuck(After(s, steps), env, st);
      forall n | n in status ensures status[n] in {Pending, Completed} {
        assert n !in st.stuck;
      }
    }
    if FreshStart(dag, limit, status) {
      var steps := CanSettle(s, env, st);
    }
  }

  /** While a run is unsettled it can continue, and it stops within a number of steps fixed at its start. */
  lemma EveryRunSettles(dag: Dag, limit: nat, status: map<NodeId, Status>, results: map<NodeId, string>,
                        releases: multiset<NodeId>, env: Env, steps: seq<Step>)
    requires FreshStart(dag, limit, status)
    requires IsRun(Begin(dag, limit, status, results, releases), env, steps)
    ensures |steps| <= Measure(Begin(dag, limit, status, results, releases))
    ensures var s := After(Begin(dag, limit, status, results, releases), steps);
            s.settled || exists step :: Enabled(s, env, step)
  {
    hide Begin, IsRun, After, Inv, Trace, Measure;
    var b := Begin(dag, limit, status, results, releases);
    BeginInv(dag, limit, status, results, releases, env);
    RunBound(b, env, StartOf(dag, status), steps);
    Reachable(dag, limit, status, results, releases, env, steps);
    if !After(b, steps).settled {
      assert StartOf(dag, status).stuck == {};
      var step := Progress(After(b, steps), env, StartOf(dag, status));
    }
  }

  /** One task status is ever emitted, and what it says. */
  lemma SettlesOnce(dag: Dag, limit: nat, status: map<NodeId, Status>, results: map<NodeId, string>,
                    releases: multiset<NodeId>, env: Env, steps: seq<Step>)
    requires FreshStart(dag, limit, status)
    requires IsRun(Begin(dag, limit, status, results, releases), env, steps)
    ensures var s := After(Begin(dag, limit, status, results, releases), steps);
            && (!s.settled ==> s.emitted == [])
            && (s.settled ==> s.completed !! s.failed && s.completed + s.failed == dag.Ids())
            && (s.settled && s.failed != {} ==> s.emitted == [TaskFailed])
            && (s.settled && s.failed == {} && s.paymentFaults != {} ==> s.emitted == [TaskPaymentFailed])
            && (s.settled && s.failed == {} && s.paymentFaults == {} ==> s.emitted == [TaskCompleted])
  {
    hide Begin, IsRun, After, Trace, Core, Reasons;
    Reachable(dag, limit, status, results, releases, env, steps);
    RunDag(dag, limit, status, results, releases, env, steps);
    var s := After(Begin(dag, limit, status, results, releases), steps);
    if s.settled {
      SettledFacts(s, env, StartOf(dag, status));
    }
  }

  ghost predicate Final(s: State, t: State) {
    && t.settled && t.emitted == s.emitted && t.completed == s.completed && t.failed == s.failed
    && t.releases == s.releases && t.started == s.started
  }

  lemma DrainAfterSettlement(s: State, env: Env, st: Start, n: NodeId)
    requires Core(s, env, st) && s.settled && Covered(s) && At(s, n, Recorded)
    ensures Final(s, DrainNode(s, n))
  {
    hide Core, Covered;
    LeaveCore(s, env, st, n);
    assert Covered(Leave(s, n)) by { CoverLeave(s, n); }
    ScheduleKeepsSettled(Leave(s, n), env, st, true);
    ScheduleKeepsSettled(Leave(s, n), env, st, false);
  }

  lemma NoRunAfterSettlement(s: State, env: Env, st: Start, step: Step)
    requires Core(s, env, st) && Covered(s) && Enabled(s, env, step)
    ensures !InRun(step)
  {
    hide Core, Covered;
    SettledIdle(s, env, st, step.n);
  }

  lemma StepAfterSettlement(s: State, env: Env, st: Start, step: Step)
    requires Inv(s, env, st) && s.settled && Enabled(s, env, step)
    ensures Final(s, Apply(s, step))
  {
    hide Core, Reasons, Covered, DrainNode, StartNode;
    NoRunAfterSettlement(s, env, st, step);
    if step.Drain? {
      DrainAfterSettlement(s, env, st, step.n);
    } else {
      QueueHead2(s, env, st);
    }
  }

  lemma CoverLeave(s: State, n: NodeId)
    requires Covered(s)
    ensures Covered(Leave(s, n))
  {
  }

  lemma QueueHead2(s: State, env: Env, st: Start)
    requires Core(s, env, st) && Covered(s)
    ensures s.queue == []
  {
    if s.queue != [] {
      QueueHead(s);
      SettledIdle(s, env, st, s.queue[0]);
    }
  }

  /** After settlement nothing more starts, is released, or is emitted. */
  lemma {:induction false} NothingAfterSettlement(s: State, env: Env, st: Start, steps: seq<Step>)
    requires Inv(s, env, st) && s.settled && IsRun(s, env, steps)
    ensures Final(s, After(s, steps))
    decreases |steps|
  {
    hide Inv, Apply, Enabled;
    if steps == [] {
    } else {
      StepKeepsInv(s, env, st, steps[0]);
      StepAfterSettlement(s, env, st, steps[0]);
      NothingAfterSettlement(Apply(s, steps[0]), env, st, steps[1..]);
    }
  }

  // ------------------------------------------------------------------ results

  /** `out` is a deterministic agent: what it answers for a node and its context. */
  ghost predicate FollowsAgent(s: State, steps: seq<Step>, out: (NodeId, seq<string>) -> Option<string>)
    decreases |steps|
  {
    steps == [] ||
    (&& (steps[0].Complete? ==> steps[0].n in s.contexts && steps[0].result == out(steps[0].n, s.contexts[steps[0].n]))
     && FollowsAgent(Apply(s, steps[0]), steps[1..], out))
  }

  predicate Delivered(s: State, st: Start, n: NodeId) {
    || (n in s.completed && n !in st.pre)
    || (n in s.phase && s.phase[n] in {Stored, Paying, Returned(true)})
  }

  ghost predicate AgentOk(s: State, st: Start, out: (NodeId, seq<string>) -> Option<string>, before: map<NodeId, string>) {
    && (forall n :: n in st.pre ==> Lookup(s.results, n) == Lookup(before, n))
    && (forall n :: Delivered(s, st, n) ==> Lookup(s.results, n) == out(n, ContextOf(DepsOf(s, n), s.results)))
  }

  lemma AgentFrame(s: State, t: State, st: Start, out: (NodeId, seq<string>) -> Option<string>, before: map<NodeId, string>)
    requires AgentOk(s, st, out, before) && t.dag == s.dag && t.results == s.results
    requires forall n :: Delivered(t, st, n) ==> Delivered(s, st, n)
    ensures AgentOk(t, st, out, before)
  {
    forall n | Delivered(t, st, n) ensures Lookup(t.results, n) == out(n, ContextOf(DepsOf(t, n), t.results)) {
      assert Delivered(s, st, n);
    }
  }

  ghost predicate QuietGrowth(s: State, t: State) {
    && t.dag == s.dag && t.results == s.results && t.completed == s.completed
    && forall n :: n in t.phase && t.phase[n] !in {Queued, Dispatching} ==> n in s.phase && s.phase[n] == t.phase[n]
  }

  lemma QuietSubmit(s: State, n: NodeId)
    ensures QuietGrowth(s, Submit(s, n))
  {
    hide StartNode, Enqueue, Arrive;
    if s.active < s.limit { QuietStart(s, n); } else { QuietEnqueue(s, n); }
  }

  lemma QuietStart(s: State, n: NodeId)
    ensures QuietGrowth(s, StartNode(Arrive(s, n), n))
  {
  }

  lemma QuietEnqueue(s: State, n: NodeId)
    ensures QuietGrowth(s, Enqueue(Arrive(s, n), n))
  {
  }

  lemma {:induction false} QuietSchedule(s: State, i: nat)
    ensures QuietGrowth(s, ScheduleFrom(s, i))
    decreases |s.dag.order| - i
  {
    hide Submit, Ready;
    if i < |s.dag.order| {
      if Ready(s, s.dag.order[i]) {
        QuietSubmit(s, s.dag.order[i]);
        QuietSchedule(Submit(s, s.dag.order[i]), i + 1);
      } else {
        QuietSchedule(s, i + 1);
      }
    }
  }

  lemma QuietScheduleReady(s: State, env: Env, st: Start)
    requires Core(s, env, st)
    ensures QuietGrowth(s, ScheduleReadyNodes(s))
  {
    hide Core, QuietGrowth;
    QuietSchedule(s, 0);
    ScheduleFromCore(s, env, st, 0);
    FailFromCore(ScheduleFrom(s, 0), env, st, true, 0);
    QuietSame(s, ScheduleFrom(s, 0), FinishIfSettled(FailFrom(ScheduleFrom(s, 0), true, 0)));
  }

  lemma QuietSame(s: State, t: State, u: State)
    requires QuietGrowth(s, t) && u.dag == t.dag && u.results == t.results && u.completed == t.completed && u.phase == t.phase
    ensures QuietGrowth(s, u)
  {
  }

  lemma QuietDrain(s: State, env: Env, st: Start, n: NodeId)
    requires Core(s, env, st) && At(s, n, Recorded)
    ensures QuietGrowth(Leave(s, n), DrainNode(s, n))
  {
    hide Core, QuietGrowth, ScheduleReadyNodes;
    var t := Leave(s, n);
    LeaveCore(s, env, st, n);
    QuietScheduleReady(t, env, st);
    ScheduleReadyCore(t, env, st);
    FailFromCore(ScheduleReadyNodes(t), env, st, false, 0);
    QuietSame(t, ScheduleReadyNodes(t), DrainNode(s, n));
  }

  lemma QuietDelivered(s: State, t: State, st: Start, n: NodeId)
    requires QuietGrowth(s, t) && Delivered(t, st, n)
    ensures Delivered(s, st, n)
  {
  }

  lemma LeaveDelivered(s: State, st: Start, n: NodeId, m: NodeId)
    requires Delivered(Leave(s, n), st, m)
    ensures Delivered(s, st, m)
  {
  }

  lemma QuietFreeSlot(s: State, n: NodeId)
    ensures QuietGrowth(s, FreeSlotOf(s, n))
  {
    if s.queue == [] {
    } else {
      hide StartNode;
      QuietStartOnly(GiveBack(s, n).(queue := s.queue[1..]), s.queue[0]);
    }
  }

  lemma QuietStartOnly(s: State, n: NodeId)
    ensures QuietGrowth(s, StartNode(s, n))
  {
  }

  ghost predicate Answers(s: State, m: NodeId, out: (NodeId, seq<string>) -> Option<string>) {
    Lookup(s.results, m) == out(m, ContextOf(DepsOf(s, m), s.results))
  }

  lemma CompleteSelf(s: State, n: NodeId, r: Option<string>, out: (NodeId, seq<string>) -> Option<string>)
    requires DepsIn(s, n, s.completed) && n !in s.completed
    requires r == out(n, ContextOf(DepsOf(s, n), s.results))
    ensures Answers(Apply(s, Complete(n, r)), n, out)
  {
    ContextFrame(DepsOf(s, n), s.results, Apply(s, Complete(n, r)).results);
  }

  lemma CompleteOther(s: State, n: NodeId, r: Option<string>, out: (NodeId, seq<string>) -> Option<string>, m: NodeId)
    requires DepsIn(s, m, s.completed) && n !in s.completed && m != n && Answers(s, m, out)
    ensures Answers(Apply(s, Complete(n, r)), m, out)
  {
    ContextFrame(DepsOf(s, m), s.results, Apply(s, Complete(n, r)).results);
  }

  lemma CompleteDelivered(s: State, st: Start, n: NodeId, r: Option<string>, m: NodeId)
    requires Delivered(Apply(s, Complete(n, r)), st, m) && m != n
    ensures Delivered(s, st, m)
  {
  }

  lemma CompletePre(s: State, st: Start, n: NodeId, r: Option<string>, out: (NodeId, seq<string>) -> Option<string>,
                    before: map<NodeId, string>)
    requires AgentOk(s, st, out, before) && n !in st.pre
    requires forall m :: Delivered(Apply(s, Complete(n, r)), st, m) ==> Answers(Apply(s, Complete(n, r)), m, out)
    ensures AgentOk(Apply(s, Complete(n, r)), st, out, before)
  {
    var t := Apply(s, Complete(n, r));
    forall m | Delivered(t, st, m) ensures Lookup(t.results, m) == out(m, ContextOf(DepsOf(t, m), t.results)) {
      assert Answers(t, m, out);
    }
  }

  lemma AgentAnswers(s: State, st: Start, out: (NodeId, seq<string>) -> Option<string>, before: map<NodeId, string>, m: NodeId)
    requires AgentOk(s, st, out, before) && Delivered(s, st, m)
    ensures Answers(s, m, out)
  {
  }

  lemma CompleteAgent(s: State, env: Env, st: Start, n: NodeId, r: Option<string>,
                      out: (NodeId, seq<string>) -> Option<string>, before: map<NodeId, string>)
    requires Inv(s, env, st) && Trace(s, st) && AgentOk(s, st, out, before) && At(s, n, Dispatching)
    requires n in s.contexts && r == out(n, s.contexts[n])
    ensures AgentOk(Apply(s, Complete(n, r)), st, out, before)
  {
    hide Inv, AgentOk, Delivered, Answers, Apply, Trace;
    assert Core(s, env, st) by { InvCore(s, env, st); }
    hide Core;
    ReturnedFacts(s, env, st, n);
    StartedUnlessQueued(s, env, st, n);
    NotPre(s, env, st, n);
    StartedContext(s, st, n);
    CompleteSelf(s, n, r, out);
    forall m | Delivered(Apply(s, Complete(n, r)), st, m) ensures Answers(Apply(s, Complete(n, r)), m, out) {
      if m != n {
        CompleteDelivered(s, st, n, r, m);
        AgentAnswers(s, st, out, before, m);
        DeliveredDeps(s, env, st, m);
        CompleteOther(s, n, r, out, m);
      }
    }
    CompletePre(s, st, n, r, out, before);
  }

  lemma NotPre(s: State, env: Env, st: Start, n: NodeId)
    requires Core(s, env, st) && Open(s, n)
    ensures n !in st.pre
  {
  }

  lemma StartedContext(s: State, st: Start, n: NodeId)
    requires Trace(s, st) && n in s.started
    ensures n in s.contexts && s.contexts[n] == ContextOf(DepsOf(s, n), s.results)
  {
  }

  lemma DeliveredDeps(s: State, env: Env, st: Start, m: NodeId)
    requires Inv(s, env, st) && Delivered(s, st, m)
    ensures DepsIn(s, m, s.completed)
  {
    if m in s.phase && s.phase[m] != Queued {
      StartedUnlessQueued(s, env, st, m);
    } else {
      assert CompletedOk(s, env, st, m);
    }
  }

  lemma RecordDelivered(s: State, env: Env, st: Start, n: NodeId, m: NodeId)
    requires Enabled(s, env, Record(n)) && Delivered(Apply(s, Record(n)), st, m)
    ensures Delivered(s, st, m)
  {
    hide RecordNode, Delivered;
    RecordNodeDelivered(s, st, n, At(s, n, Returned(true)), m);
  }

  lemma RecordNodeDelivered(s: State, st: Start, n: NodeId, ok: bool, m: NodeId)
    requires Delivered(RecordNode(s, n, ok), st, m) && (ok ==> At(s, n, Returned(true)))
    ensures Delivered(s, st, m)
  {
  }

  lemma InRunDelivered(s: State, env: Env, st: Start, step: Step, m: NodeId)
    requires InRun(step) && !step.Complete? && Enabled(s, env, step) && Delivered(Apply(s, step), st, m)
    ensures Delivered(s, st, m)
  {
    hide RecordNode, FailInRun;
    if step.Record? {
      RecordDelivered(s, env, st, step.n, m);
    } else if step.DispatchFails? || step.FaultBeforeRelease? || step.FaultAfterRelease? {
      FailDelivered(s, st, step.n, m);
    }
  }

  lemma FailDelivered(s: State, st: Start, n: NodeId, m: NodeId)
    requires Delivered(FailInRun(s, n), st, m)
    ensures Delivered(s, st, m)
  {
  }

  lemma FreeSlotAgent(s: State, st: Start, n: NodeId,
                      out: (NodeId, seq<string>) -> Option<string>, before: map<NodeId, string>)
    requires AgentOk(s, st, out, before)
    ensures AgentOk(FreeSlotOf(s, n), st, out, before)
  {
    hide AgentOk, FreeSlotOf, Delivered;
    QuietFreeSlot(s, n);
    forall m | Delivered(FreeSlotOf(s, n), st, m) ensures Delivered(s, st, m) {
      QuietDelivered(s, FreeSlotOf(s, n), st, m);
    }
    AgentFrame(s, FreeSlotOf(s, n), st, out, before);
  }

  lemma DrainAgent(s: State, env: Env, st: Start, n: NodeId,
                   out: (NodeId, seq<string>) -> Option<string>, before: map<NodeId, string>)
    requires Core(s, env, st) && AgentOk(s, st, out, before) && At(s, n, Recorded)
    ensures AgentOk(DrainNode(s, n), st, out, before)
  {
    hide Core, AgentOk, DrainNode, Delivered, Leave;
    QuietDrain(s, env, st, n);
    forall m | Delivered(DrainNode(s, n), st, m) ensures Delivered(s, st, m) {
      QuietDelivered(Leave(s, n), DrainNode(s, n), st, m);
      LeaveDelivered(s, st, n, m);
    }
    LeaveResults(s, n);
    AgentFrame(s, DrainNode(s, n), st, out, before);
  }

  lemma InRunAgent(s: State, env: Env, st: Start, step: Step,
                   out: (NodeId, seq<string>) -> Option<string>, before: map<NodeId, string>)
    requires AgentOk(s, st, out, before) && Enabled(s, env, step) && InRun(step) && !step.Complete?
    ensures AgentOk(Apply(s, step), st, out, before)
  {
    hide AgentOk, Apply, Delivered;
    InRunTraceFrame(s, env, step);
    forall m | Delivered(Apply(s, step), st, m) ensures Delivered(s, st, m) {
      InRunDelivered(s, env, st, step, m);
    }
    AgentFrame(s, Apply(s, step), st, out, before);
  }

  lemma StepKeepsAgent(s: State, env: Env, st: Start, step: Step,
                       out: (NodeId, seq<string>) -> Option<string>, before: map<NodeId, string>)
    requires Inv(s, env, st) && Trace(s, st) && AgentOk(s, st, out, before) && Enabled(s, env, step)
    requires step.Complete? ==> step.n in s.contexts && step.result == out(step.n, s.contexts[step.n])
    ensures AgentOk(Apply(s, step), st, out, before)
  {
    hide Inv, Trace, AgentOk, Apply;
    InvCore(s, env, st);
    hide Core;
    if step.Complete? {
      CompleteAgent(s, env, st, step.n, step.result, out, before);
    } else if InRun(step) {
      InRunAgent(s, env, st, step, out, before);
    } else if step.FreeSlot? {
      FreeSlotAgent(s, st, step.n, out, before);
      assert Apply(s, step) == FreeSlotOf(s, step.n) by { LoopSteps(s, step); }
    } else {
      DrainAgent(s, env, st, step.n, out, before);
      assert Apply(s, step) == DrainNode(s, step.n) by { LoopSteps(s, step); }
    }
  }

  lemma LoopSteps(s: State, step: Step)
    ensures step.FreeSlot? ==> Apply(s, step) == FreeSlotOf(s, step.n)
    ensures step.Drain? ==> Apply(s, step) == DrainNode(s, step.n)
  {
    hide FreeSlotOf, DrainNode;
  }

  lemma LeaveResults(s: State, n: NodeId)
    ensures Leave(s, n).results == s.results && Leave(s, n).dag == s.dag
  {
  }

  lemma {:induction false} RunKeepsAgent(s: State, env: Env, st: Start, steps: seq<Step>,
                                         out: (NodeId, seq<string>) -> Option<string>, before: map<NodeId, string>)
    requires Inv(s, env, st) && Trace(s, st) && AgentOk(s, st, out, before)
    requires IsRun(s, env, steps) && FollowsAgent(s, steps, out)
    ensures AgentOk(After(s, steps), st, out, before)
    decreases |steps|
  {
    hide Inv, Trace, AgentOk, Apply, Enabled;
    if steps == [] {
    } else {
      StepKeepsAgent(s, env, st, steps[0], out, before);
      StepKeepsInv(s, env, st, steps[0]);
      StepKeepsTrace(s, env, st, steps[0]);
      RunKeepsAgent(Apply(s, steps[0]), env, st, steps[1..], out, before);
    }
  }

  lemma BeginAgent(dag: Dag, limit: nat, status: map<NodeId, Status>, results: map<NodeId, string>,
                   releases: multiset<NodeId>, env: Env, out: (NodeId, seq<string>) -> Option<string>)
    requires ValidStart(dag, limit, status)
    ensures AgentOk(Begin(dag, limit, status, results, releases), StartOf(dag, status), out, results)
  {
    var f := Fresh(dag, limit, status, results, releases);
    var st := StartOf(dag, status);
    FreshCore(dag, limit, status, results, releases, env);
    assert AgentOk(f, st, out, results);
    hide Core, AgentOk, ScheduleReadyNodes, Delivered;
    QuietScheduleReady(f, env, st);
    forall m | Delivered(ScheduleReadyNodes(f), st, m) ensures Delivered(f, st, m) {
      QuietDelivered(f, ScheduleReadyNodes(f), st, m);
    }
    AgentFrame(f, ScheduleReadyNodes(f), st, out, results);
  }

  lemma SameResultAt(s: State, t: State, st: Start,
                     out: (NodeId, seq<string>) -> Option<string>, before: map<NodeId, string>, i: nat)
    requires AgentOk(s, st, out, before) && AgentOk(t, st, out, before)
    requires s.dag == t.dag && s.completed == t.completed && Trace(s, st)
    requires i < |s.started| && s.started[i] in s.completed && s.started[i] !in st.pre
    requires forall j :: 0 <= j < i && s.started[j] in s.completed ==>
               Lookup(s.results, s.started[j]) == Lookup(t.results, s.started[j])
    ensures Lookup(s.results, s.started[i]) == Lookup(t.results, s.started[i])
  {
    hide Delivered;
    var n := s.started[i];
    assert DepsIn(s, n, st.pre + Elems(s.started[..i]));
    forall d | d in DepsOf(s, n) ensures Lookup(s.results, d) == Lookup(t.results, d) {
      if d !in st.pre {
        assert d in s.started[..i];
        var j :| 0 <= j < i && s.started[j] == d;
        assert d in s.completed;
      }
    }
    ContextFrame(DepsOf(s, n), s.results, t.results);
    CompletedDelivered(s, st, n);
    CompletedDelivered(t, st, n);
    assert DepsOf(s, n) == DepsOf(t, n);
  }

  lemma CompletedDelivered(s: State, st: Start, n: NodeId)
    requires n in s.completed && n !in st.pre
    ensures Delivered(s, st, n)
  {
  }

  /** Two settled runs of one deterministic agent hold the same results, by order of start. */
  lemma {:induction false} SameResultsUpTo(s: State, t: State, st: Start,
                                           out: (NodeId, seq<string>) -> Option<string>, before: map<NodeId, string>, i: nat)
    requires AgentOk(s, st, out, before) && AgentOk(t, st, out, before)
    requires s.dag == t.dag && s.completed == t.completed && Trace(s, st) && i <= |s.started|
    ensures forall j :: 0 <= j < i && s.started[j] in s.completed ==>
              Lookup(s.results, s.started[j]) == Lookup(t.results, s.started[j])
  {
    hide AgentOk, Trace;
    if i > 0 {
      SameResultsUpTo(s, t, st, out, before, i - 1);
      if s.started[i - 1] in st.pre {
        PreResults(s, t, st, out, before, s.started[i - 1]);
      } else if s.started[i - 1] in s.completed {
        SameResultAt(s, t, st, out, before, i - 1);
      }
    }
  }

  /** With a deterministic agent, any two settled runs store the same result for every completed node. */
  lemma ResultsAreDetermined(dag: Dag, limit1: nat, limit2: nat, status: map<NodeId, Status>,
                             results: map<NodeId, string>, releases: multiset<NodeId>, env: Env,
                             run1: seq<Step>, run2: seq<Step>, out: (NodeId, seq<string>) -> Option<string>, n: NodeId)
    requires FreshStart(dag, limit1, status) && FreshStart(dag, limit2, status)
    requires IsRun(Begin(dag, limit1, status, results, releases), env, run1)
    requires IsRun(Begin(dag, limit2, status, results, releases), env, run2)
    requires FollowsAgent(Begin(dag, limit1, status, results, releases), run1, out)
    requires FollowsAgent(Begin(dag, limit2, status, results, releases), run2, out)
    requires After(Begin(dag, limit1, status, results, releases), run1).settled
    requires After(Begin(dag, limit2, status, results, releases), run2).settled
    requires n in After(Begin(dag, limit1, status, results, releases), run1).completed
    ensures Lookup(After(Begin(dag, limit1, status, results, releases), run1).results, n)
            == Lookup(After(Begin(dag, limit2, status, results, releases), run2).results, n)
  {
    hide Begin, IsRun, After, Inv, Trace, AgentOk, FollowsAgent;
    var st := StartOf(dag, status);
    var s := After(Begin(dag, limit1, status, results, releases), run1);
    var t := After(Begin(dag, limit2, status, results, releases), run2);
    AnyTwoRunsAgree(dag, limit1, limit2, status, results, releases, env, run1, run2);
    SettledAgent(dag, limit1, status, results, releases, env, run1, out);
    SettledAgent(dag, limit2, status, results, releases, env, run2, out);
    SameResultsUpTo(s, t, st, out, results, |s.started|);
    assert n in st.pre || n in s.started by { CompletedStarted(s, env, st, n); }
    if n in st.pre {
      PreResults(s, t, st, out, results, n);
    } else {
      var j :| 0 <= j < |s.started| && s.started[j] == n;
    }
  }

  lemma SettledAgent(dag: Dag, limit: nat, status: map<NodeId, Status>, results: map<NodeId, string>,
                     releases: multiset<NodeId>, env: Env, run: seq<Step>, out: (NodeId, seq<string>) -> Option<string>)
    requires ValidStart(dag, limit, status)
    requires IsRun(Begin(dag, limit, status, results, releases), env, run)
    requires FollowsAgent(Begin(dag, limit, status, results, releases), run, out)
    ensures var s := After(Begin(dag, limit, status, results, releases), run);
            && AgentOk(s, StartOf(dag, status), out, results) && s.dag == dag
            && Inv(s, env, StartOf(dag, status)) && Trace(s, StartOf(dag, status))
  {
    hide Begin, IsRun, After, Inv, Trace, AgentOk, FollowsAgent, StartOf;
    BeginInv(dag, limit, status, results, releases, env);
    BeginTrace(dag, limit, status, results, releases, env);
    BeginAgent(dag, limit, status, results, releases, env, out);
    RunKeepsAgent(Begin(dag, limit, status, results, releases), env, StartOf(dag, status), run, out, results);
    Reachable(dag, limit, status, results, releases, env, run);
    RunDag(dag, limit, status, results, releases, env, run);
  }

  lemma CompletedStarted(s: State, env: Env, st: Start, n: NodeId)
    requires Inv(s, env, st) && n in s.completed
    ensures n in st.pre || n in s.started
  {
    assert CompletedOk(s, env, st, n);
  }

  lemma PreResults(s: State, t: State, st: Start, out: (NodeId, seq<string>) -> Option<string>,
                   before: map<NodeId, string>, n: NodeId)
    requires AgentOk(s, st, out, before) && AgentOk(t, st, out, before) && n in st.pre
    ensures Lookup(s.results, n) == Lookup(t.results, n)
  {
  }
}
