/** Start order and contexts: a node starts only after its dependencies, on their final results. */
module DagTrace {
  import opened Common
  import opened DagModel
  import opened DagInvariant
  import opened DagSettlement
  import opened DagTermination

  // ------------------------------------------------------------------ the order of starts

  ghost predicate StartOrder(s: State, st: Start) {
    forall i :: 0 <= i < |s.started| ==> DepsIn(s, s.started[i], st.pre + Elems(s.started[..i]))
  }

  ghost predicate ContextsOk(s: State) {
    forall n :: n in s.started ==>
      (n in s.dag.deps && DepsIn(s, n, s.completed) && n in s.contexts && s.contexts[n] == ContextOf(DepsOf(s, n), s.results))
  }

  ghost predicate Trace(s: State, st: Start) { StartOrder(s, st) && ContextsOk(s) }

  lemma {:induction false} ContextFrame(deps: seq<NodeId>, r: map<NodeId, string>, q: map<NodeId, string>)
    requires forall d :: d in deps ==> Lookup(r, d) == Lookup(q, d)
    ensures ContextOf(deps, r) == ContextOf(deps, q)
  {
    if deps != [] {
      assert deps[0] in deps;
      assert Lookup(r, deps[0]) == Lookup(q, deps[0]);
      ContextFrame(deps[1..], r, q);
    }
  }

  function Before(deps: seq<NodeId>, results: map<NodeId, string>, i: int): set<int> {
    set j | 0 <= j < i && j < |deps| && deps[j] in results
  }

  lemma {:induction false} ContextSnoc(deps: seq<NodeId>, d: NodeId, results: map<NodeId, string>)
    ensures ContextOf(deps + [d], results) == ContextOf(deps, results) + if d in results then [results[d]] else []
  {
    if deps != [] {
      ContextSnoc(deps[1..], d, results);
      assert (deps + [d])[1..] == deps[1..] + [d];
    }
  }

  lemma BeforeSnoc(front: seq<NodeId>, d: NodeId, results: map<NodeId, string>, i: int)
    requires 0 <= i <= |front| + 1
    ensures i <= |front| ==> Before(front + [d], results, i) == Before(front, results, i)
    ensures i == |front| + 1 ==>
              Before(front + [d], results, i) == Before(front, results, |front|) + if d in results then {|front|} else {}
  {
  }

  ghost predicate PlacedAt(deps: seq<NodeId>, results: map<NodeId, string>, parts: seq<string>, i: int) {
    0 <= i < |deps| && deps[i] in results ==>
      |Before(deps, results, i)| < |parts| && parts[|Before(deps, results, i)|] == results[deps[i]]
  }

  lemma {:induction false} ContextPlaces(deps: seq<NodeId>, results: map<NodeId, string>)
    ensures |ContextOf(deps, results)| == |Before(deps, results, |deps|)|
    ensures forall i :: PlacedAt(deps, results, ContextOf(deps, results), i)
  {
    if deps == [] {
      assert Before(deps, results, 0) == {};
    } else {
      hide ContextOf, PlacedAt, Before;
      var k := |deps| - 1;
      var front, d := deps[..k], deps[k];
      ContextPlaces(front, results);
      ContextSnoc(front, d, results);
      assert deps == front + [d];
      PlacesSnoc(front, d, results, ContextOf(front, results), ContextOf(deps, results));
    }
  }

  lemma PlacesSnoc(front: seq<NodeId>, d: NodeId, results: map<NodeId, string>, was: seq<string>, now: seq<string>)
    requires |was| == |Before(front, results, |front|)| && forall i :: PlacedAt(front, results, was, i)
    requires now == was + if d in results then [results[d]] else []
    ensures |now| == |Before(front + [d], results, |front| + 1)|
    ensures forall i :: PlacedAt(front + [d], results, now, i)
  {
    var deps := front + [d];
    BeforeSnoc(front, d, results, |front| + 1);
    assert |front| !in Before(front, results, |front|);
    forall i ensures PlacedAt(deps, results, now, i) {
      if 0 <= i < |deps| {
        BeforeSnoc(front, d, results, i);
        assert PlacedAt(front, results, was, i);
      }
    }
  }

  lemma {:induction false} AllBefore(deps: seq<NodeId>, results: map<NodeId, string>, i: nat)
    requires i <= |deps| && forall j :: 0 <= j < |deps| ==> deps[j] in results
    ensures |Before(deps, results, i)| == i
  {
    if i == 0 {
      assert Before(deps, results, 0) == {};
    } else {
      AllBefore(deps, results, i - 1);
      assert Before(deps, results, i) == Before(deps, results, i - 1) + {i - 1};
    }
  }

  /** A context holds exactly the results of the dependencies that have one, in order. */
  lemma ContextDelivers(deps: seq<NodeId>, results: map<NodeId, string>)
    ensures Delivers(deps, results, ContextOf(deps, results))
  {
    hide ContextOf;
    var parts := ContextOf(deps, results);
    ContextPlaces(deps, results);
    assert Before(deps, results, |deps|) == set i | 0 <= i < |deps| && deps[i] in results;
    forall i | 0 <= i < |deps| && deps[i] in results
      ensures var place := |set j | 0 <= j < i && deps[j] in results|;
              place < |parts| && parts[place] == results[deps[i]] {
      assert PlacedAt(deps, results, parts, i);
      assert Before(deps, results, i) == set j | 0 <= j < i && deps[j] in results;
    }
    if forall i :: 0 <= i < |deps| ==> deps[i] in results {
      AllBefore(deps, results, |deps|);
      forall i | 0 <= i < |deps| ensures parts[i] == results[deps[i]] {
        AllBefore(deps, results, i);
        assert PlacedAt(deps, results, parts, i);
      }
    }
  }

  function Lookup(r: map<NodeId, string>, n: NodeId): Option<string> {
    if n in r then Some(r[n]) else None
  }

  lemma StartTrace(s: State, st: Start, n: NodeId)
    requires Trace(s, st) && DepsIn(s, n, s.completed) && n in s.dag.deps
    requires s.completed <= st.pre + Elems(s.started)
    ensures Trace(StartNode(s, n), st)
  {
    var t := StartNode(s, n);
    forall i | 0 <= i < |t.started| ensures DepsIn(t, t.started[i], st.pre + Elems(t.started[..i])) {
      if i < |s.started| {
        assert DepsIn(s, s.started[i], st.pre + Elems(s.started[..i]));
        assert t.started[..i] == s.started[..i];
      } else {
        assert t.started[..i] == s.started;
      }
    }
    forall m | m in t.started
      ensures m in t.dag.deps && DepsIn(t, m, t.completed) && m in t.contexts && t.contexts[m] == ContextOf(DepsOf(t, m), t.results)
    {
      assert m in s.started || m == n;
      assert DepsOf(t, m) == DepsOf(s, m);
    }
  }

  lemma TraceFrame(s: State, t: State, st: Start)
    requires Trace(s, st) && t.dag == s.dag && t.started == s.started && t.contexts == s.contexts
    requires s.completed <= t.completed
    requires forall d :: d in s.completed ==> Lookup(s.results, d) == Lookup(t.results, d)
    ensures Trace(t, st)
  {
    forall i | 0 <= i < |t.started| ensures DepsIn(t, t.started[i], st.pre + Elems(t.started[..i])) {
      assert DepsIn(s, s.started[i], st.pre + Elems(s.started[..i]));
    }
    forall m | m in t.started
      ensures m in t.dag.deps && DepsIn(t, m, t.completed) && m in t.contexts && t.contexts[m] == ContextOf(DepsOf(t, m), t.results)
    {
      assert DepsIn(s, m, s.completed);
      assert DepsOf(t, m) == DepsOf(s, m);
      ContextFrame(DepsOf(s, m), s.results, t.results);
    }
  }

  lemma CompletedFrom(s: State, env: Env, st: Start)
    requires Reasons(s, env, st, false)
    ensures s.completed <= st.pre + Elems(s.started)
  {
    forall n | n in s.completed ensures n in st.pre + Elems(s.started) {
      assert CompletedOk(s, env, st, n);
    }
  }

  lemma SubmitTrace(s: State, env: Env, st: Start, n: NodeId)
    requires Trace(s, st) && Reasons(s, env, st, false) && Ready(s, n) && n in s.dag.deps
    ensures Trace(Submit(s, n), st)
  {
    hide Trace, StartNode, Reasons;
    CompletedFrom(s, env, st);
    TraceFrame(s, Arrive(s, n), st);
    if s.active < s.limit {
      StartTrace(Arrive(s, n), st, n);
    } else {
      TraceFrame(s, Enqueue(Arrive(s, n), n), st);
    }
  }

  lemma {:induction false} ScheduleFromTrace(s: State, env: Env, st: Start, i: nat)
    requires Core(s, env, st) && Trace(s, st) && Reasons(s, env, st, false)
    ensures Trace(ScheduleFrom(s, i), st)
    decreases |s.dag.order| - i
  {
    hide Core, Submit, Ready, Trace, Reasons;
    if i < |s.dag.order| {
      var n := s.dag.order[i];
      if Ready(s, n) {
        OrderInStatus(s, env, st, i);
        assert n in s.dag.deps by { CoreDag(s, env, st); }
        SubmitCore(s, env, st, n);
        SubmitReasonFrame(s, n);
        ReasonsByFrame(s, Submit(s, n), env, st, false);
        SubmitTrace(s, env, st, n);
        ScheduleFromTrace(Submit(s, n), env, st, i + 1);
      } else {
        ScheduleFromTrace(s, env, st, i + 1);
      }
    }
  }

  lemma CoreDag(s: State, env: Env, st: Start)
    requires Core(s, env, st)
    ensures s.status.Keys == s.dag.deps.Keys == s.dag.Ids()
  {
  }

  lemma FailFinishTrace(s: State, env: Env, st: Start, deadlocked: bool)
    requires Core(s, env, st) && Trace(s, st)
    ensures Trace(FinishIfSettled(FailFrom(s, deadlocked, 0)), st)
  {
    hide Core, Trace;
    FailFromCore(s, env, st, deadlocked, 0);
    TraceFrame(s, FinishIfSettled(FailFrom(s, deadlocked, 0)), st);
  }

  lemma ScheduleReadyTrace(s: State, env: Env, st: Start)
    requires Core(s, env, st) && Trace(s, st) && Reasons(s, env, st, false)
    ensures Trace(ScheduleReadyNodes(s), st)
  {
    hide Core, Trace, Reasons, FinishIfSettled;
    ScheduleFromCore(s, env, st, 0);
    ScheduleFromTrace(s, env, st, 0);
    FailFinishTrace(ScheduleFrom(s, 0), env, st, true);
  }

  lemma DrainTrace(s: State, env: Env, st: Start, n: NodeId)
    requires Inv(s, env, st) && Trace(s, st) && At(s, n, Recorded)
    ensures Trace(DrainNode(s, n), st)
  {
    hide Core, Trace, Reasons, SettleOk, FinishIfSettled, ScheduleReadyNodes;
    LeaveCore(s, env, st, n);
    LeaveSettle(s, env, st, n);
    TraceFrame(s, Leave(s, n), st);
    ScheduleReadyTrace(Leave(s, n), env, st);
    ScheduleReadyCore(Leave(s, n), env, st);
    FailFinishTrace(ScheduleReadyNodes(Leave(s, n)), env, st, false);
  }

  lemma FreeSlotTrace(s: State, env: Env, st: Start, n: NodeId)
    requires Inv(s, env, st) && Trace(s, st)
    ensures Trace(FreeSlotOf(s, n), st)
  {
    hide Core, Trace, Reasons, SettleOk, StartNode;
    if s.queue == [] {
      TraceFrame(s, FreeSlotOf(s, n), st);
    } else {
      var g := GiveBack(s, n).(queue := s.queue[1..]);
      TraceFrame(s, g, st);
      CompletedFrom(s, env, st);
      QueuedDeps(s, env, st);
      CoreDag(s, env, st);
      QueueHeadScheduled(s, env, st);
      StartTrace(g, st, s.queue[0]);
    }
  }

  lemma QueuedDeps(s: State, env: Env, st: Start)
    requires Core(s, env, st) && s.queue != []
    ensures DepsIn(s, s.queue[0], s.completed)
  {
    QueueHeadScheduled(s, env, st);
    assert NodeOk(s, env, st, s.queue[0]);
  }

  lemma InRunTraceFrame(s: State, env: Env, step: Step)
    requires InRun(step) && Enabled(s, env, step)
    ensures var t := Apply(s, step);
            && t.dag == s.dag && t.started == s.started && t.contexts == s.contexts && s.completed <= t.completed
            && forall d :: d != step.n ==> Lookup(s.results, d) == Lookup(t.results, d)
    ensures !step.Complete? ==> Apply(s, step).results == s.results
  {
    hide FailInRun, RecordNode;
    FailTraceFrame(s, step.n);
    RecordTraceFrame(s, step.n, At(s, step.n, Returned(true)));
  }

  lemma FailTraceFrame(s: State, n: NodeId)
    ensures var t := FailInRun(s, n);
            && t.dag == s.dag && t.started == s.started && t.contexts == s.contexts && s.completed == t.completed
            && t.results == s.results
  {
  }

  lemma RecordTraceFrame(s: State, n: NodeId, ok: bool)
    ensures var t := RecordNode(s, n, ok);
            && t.dag == s.dag && t.started == s.started && t.contexts == s.contexts && s.completed <= t.completed
            && t.results == s.results
  {
  }

  lemma StepKeepsTrace(s: State, env: Env, st: Start, step: Step)
    requires Inv(s, env, st) && Trace(s, st) && Enabled(s, env, step)
    ensures Trace(Apply(s, step), st)
  {
    hide Core, Trace, Reasons, SettleOk, FreeSlotOf, DrainNode, FailInRun, RecordNode;
    match step
    case FreeSlot(n) => FreeSlotTrace(s, env, st, n);
    case Drain(n) => DrainTrace(s, env, st, n);
    case _ =>
      InRunTraceFrame(s, env, step);
      if step.Complete? { ReturnedFacts(s, env, st, step.n); }
      TraceFrame(s, Apply(s, step), st);
  }

  lemma BeginTrace(dag: Dag, limit: nat, status: map<NodeId, Status>, results: map<NodeId, string>,
                   releases: multiset<NodeId>, env: Env)
    requires ValidStart(dag, limit, status)
    ensures Trace(Begin(dag, limit, status, results, releases), StartOf(dag, status))
  {
    FreshCore(dag, limit, status, results, releases, env);
    FreshReasons(dag, limit, status, results, releases, env);
    hide Core, Reasons, SettleOk, ScheduleReadyNodes;
    ScheduleReadyTrace(Fresh(dag, limit, status, results, releases), env, StartOf(dag, status));
  }

  lemma {:induction false} RunKeepsTrace(s: State, env: Env, st: Start, steps: seq<Step>)
    requires Inv(s, env, st) && Trace(s, st) && IsRun(s, env, steps)
    ensures Inv(After(s, steps), env, st) && Trace(After(s, steps), st)
    decreases |steps|
  {
    hide Inv, Trace, Apply, Enabled;
    if steps == [] {
    } else {
      StepKeepsInv(s, env, st, steps[0]);
      StepKeepsTrace(s, env, st, steps[0]);
      RunKeepsTrace(Apply(s, steps[0]), env, st, steps[1..]);
    }
  }

  lemma Reachable(dag: Dag, limit: nat, status: map<NodeId, Status>, results: map<NodeId, string>,
                  releases: multiset<NodeId>, env: Env, steps: seq<Step>)
    requires ValidStart(dag, limit, status)
    requires IsRun(Begin(dag, limit, status, results, releases), env, steps)
    ensures var s := After(Begin(dag, limit, status, results, releases), steps);
            Inv(s, env, StartOf(dag, status)) && Trace(s, StartOf(dag, status))
  {
    hide Inv, Trace, Begin, IsRun, After;
    BeginInv(dag, limit, status, results, releases, env);
    BeginTrace(dag, limit, status, results, releases, env);
    RunKeepsTrace(Begin(dag, limit, status, results, releases), env, StartOf(dag, status), steps);
  }

  lemma {:induction false} RunKeepsDag(s: State, env: Env, st: Start, steps: seq<Step>)
    requires Core(s, env, st) && IsRun(s, env, steps)
    ensures After(s, steps).dag == s.dag && After(s, steps).limit == s.limit
    decreases |steps|
  {
    hide Core, Apply, Enabled;
    if steps == [] {
    } else {
      StepKeepsCore(s, env, st, steps[0]);
      StepKeepsDag(s, env, st, steps[0]);
      RunKeepsDag(Apply(s, steps[0]), env, st, steps[1..]);
    }
  }

  ghost predicate SameDag(s: State, t: State) { t.dag == s.dag && t.limit == s.limit }

  lemma StepKeepsDag(s: State, env: Env, st: Start, step: Step)
    requires Core(s, env, st) && Enabled(s, env, step)
    ensures SameDag(s, Apply(s, step))
  {
    hide Core, DrainNode, FreeSlotOf, FailInRun, RecordNode;
    match step
    case Drain(n) => DrainKeepsDag(s, env, st, n);
    case FreeSlot(n) => FreeSlotKeepsDag(s, n);
    case _ => InRunKeepsDag(s, step.n, At(s, step.n, Returned(true)));
  }

  lemma DrainKeepsDag(s: State, env: Env, st: Start, n: NodeId)
    requires Core(s, env, st) && At(s, n, Recorded)
    ensures SameDag(s, DrainNode(s, n))
  {
    hide Core, ScheduleReadyNodes;
    var t := Leave(s, n);
    LeaveCore(s, env, st, n);
    ScheduleReadyKeepsDag(t, env, st);
    ScheduleReadyCore(t, env, st);
    FailFromCore(ScheduleReadyNodes(t), env, st, false, 0);
  }

  lemma FreeSlotKeepsDag(s: State, n: NodeId)
    ensures SameDag(s, FreeSlotOf(s, n))
  {
  }

  lemma InRunKeepsDag(s: State, n: NodeId, ok: bool)
    ensures SameDag(s, FailInRun(s, n)) && SameDag(s, RecordNode(s, n, ok))
  {
  }

  lemma ScheduleReadyKeepsDag(s: State, env: Env, st: Start)
    requires Core(s, env, st)
    ensures ScheduleReadyNodes(s).dag == s.dag && ScheduleReadyNodes(s).limit == s.limit
  {
    hide Core;
    ScheduleFromCore(s, env, st, 0);
    FailFromCore(ScheduleFrom(s, 0), env, st, true, 0);
  }
}
