/** What a run writes to the stored DAG, and the order in which a scheduling round submits nodes. */
module DagStored {
  import opened Common
  import opened DagModel
  import opened DagInvariant
  import opened DagSettlement
  import opened DagTermination
  import opened DagTrace
  import opened DagTheorems

  // ------------------------------------------------------------------ the stored DAG

  predicate Fell(s: State, n: NodeId) { n in s.failed || At(s, n, Returned(false)) }

  /** The stored statuses are those in memory, and a node that failed is stored as failed, unless its
      runNode rejected without touching it. */
  ghost predicate StoredOk(s: State, thrown: set<NodeId>) {
    s.stored == s.status && forall n :: Fell(s, n) ==> StatusOf(s, n) == Some(Failed) || n in thrown
  }

  function Thrown(step: Step): set<NodeId> { if step.Throws? then {step.n} else {} }

  function ThrownIn(steps: seq<Step>): set<NodeId> {
    if steps == [] then {} else Thrown(steps[0]) + ThrownIn(steps[1..])
  }

  lemma StartStored(s: State, n: NodeId, thrown: set<NodeId>)
    requires StoredOk(s, thrown) && !Fell(s, n)
    ensures StoredOk(StartNode(s, n), thrown)
  {
    forall m | Fell(StartNode(s, n), m) ensures Fell(s, m) && m != n { }
  }

  lemma QuietStored(s: State, t: State, thrown: set<NodeId>)
    requires StoredOk(s, thrown) && t.status == s.status && t.stored == s.stored
    requires forall n :: Fell(t, n) ==> Fell(s, n)
    ensures StoredOk(t, thrown)
  {
  }

  lemma PendingStands(s: State, env: Env, st: Start, n: NodeId)
    requires Core(s, env, st) && StatusOf(s, n) == Some(Pending)
    ensures !Fell(s, n)
  {
    assert NodeOk(s, env, st, n);
  }

  lemma SubmitStored(s: State, env: Env, st: Start, n: NodeId, thrown: set<NodeId>)
    requires Core(s, env, st) && StoredOk(s, thrown) && Ready(s, n)
    ensures StoredOk(Submit(s, n), thrown)
  {
    PendingStands(s, env, st, n);
    hide Core, StartNode;
    QuietStored(s, Arrive(s, n), thrown);
    if s.active < s.limit {
      StartStored(Arrive(s, n), n, thrown);
    } else {
      QuietStored(s, Enqueue(Arrive(s, n), n), thrown);
    }
  }

  lemma {:induction false} ScheduleFromStored(s: State, env: Env, st: Start, i: nat, thrown: set<NodeId>)
    requires Core(s, env, st) && StoredOk(s, thrown)
    ensures StoredOk(ScheduleFrom(s, i), thrown)
    decreases |s.dag.order| - i
  {
    hide Core, StoredOk, Submit, Ready;
    if i < |s.dag.order| {
      var n := s.dag.order[i];
      if Ready(s, n) {
        OrderInStatus(s, env, st, i);
        SubmitStored(s, env, st, n, thrown);
        SubmitCore(s, env, st, n);
        SubmitFrame(s, n);
        ScheduleFromStored(Submit(s, n), env, st, i + 1, thrown);
      } else {
        ScheduleFromStored(s, env, st, i + 1, thrown);
      }
    }
  }

  lemma FailNodeStored(s: State, n: NodeId, thrown: set<NodeId>)
    requires StoredOk(s, thrown)
    ensures StoredOk(FailNode(s, n), thrown)
  {
    forall m | Fell(FailNode(s, n), m) && m != n ensures Fell(s, m) { }
  }

  lemma {:induction false} FailFromStored(s: State, deadlocked: bool, i: nat, thrown: set<NodeId>)
    requires StoredOk(s, thrown)
    ensures StoredOk(FailFrom(s, deadlocked, i), thrown)
    decreases |s.dag.order| - i
  {
    hide StoredOk, Blocked;
    if i < |s.dag.order| {
      var n := s.dag.order[i];
      if StatusOf(s, n) == Some(Pending) && Blocked(s, n, deadlocked) {
        FailNodeStored(s, n, thrown);
        FailFromStored(FailNode(s, n), deadlocked, i + 1, thrown);
      } else {
        FailFromStored(s, deadlocked, i + 1, thrown);
      }
    }
  }

  lemma FinishStored(s: State, thrown: set<NodeId>)
    requires StoredOk(s, thrown)
    ensures StoredOk(FinishIfSettled(s), thrown)
  {
    forall m | Fell(FinishIfSettled(s), m) ensures Fell(s, m) { }
  }

  lemma ScheduleReadyStored(s: State, env: Env, st: Start, thrown: set<NodeId>)
    requires Core(s, env, st) && StoredOk(s, thrown)
    ensures StoredOk(ScheduleReadyNodes(s), thrown)
  {
    hide Core, StoredOk, FinishIfSettled;
    ScheduleFromStored(s, env, st, 0, thrown);
    FailFromStored(ScheduleFrom(s, 0), true, 0, thrown);
    FinishStored(FailFrom(ScheduleFrom(s, 0), true, 0), thrown);
  }

  lemma DrainStored(s: State, env: Env, st: Start, n: NodeId, thrown: set<NodeId>)
    requires Core(s, env, st) && StoredOk(s, thrown) && At(s, n, Recorded)
    ensures StoredOk(DrainNode(s, n), thrown)
  {
    var t := Leave(s, n);
    LeaveCore(s, env, st, n);
    QuietStored(s, t, thrown);
    hide Core, StoredOk, FinishIfSettled, ScheduleReadyNodes;
    ScheduleReadyStored(t, env, st, thrown);
    FailFromStored(ScheduleReadyNodes(t), false, 0, thrown);
    FinishStored(FailFrom(ScheduleReadyNodes(t), false, 0), thrown);
  }

  lemma FreeSlotStored(s: State, env: Env, st: Start, n: NodeId, thrown: set<NodeId>)
    requires Core(s, env, st) && StoredOk(s, thrown)
    ensures StoredOk(FreeSlotOf(s, n), thrown)
  {
    QuietStored(s, GiveBack(s, n), thrown);
    if s.queue != [] {
      QueueHeadStands(s, env, st);
      hide Core, StartNode;
      var g := GiveBack(s, n).(queue := s.queue[1..]);
      QuietStored(s, g, thrown);
      StartStored(g, s.queue[0], thrown);
    }
  }

  lemma QueueHeadStands(s: State, env: Env, st: Start)
    requires Core(s, env, st) && s.queue != []
    ensures !Fell(s, s.queue[0])
  {
    QueueHead(s);
    PhaseInStatus(s, env, st, s.queue[0]);
    assert NodeOk(s, env, st, s.queue[0]);
  }

  /** A node before its answer has not failed. */
  lemma DispatchingStands(s: State, env: Env, st: Start, n: NodeId)
    requires Core(s, env, st) && At(s, n, Dispatching)
    ensures !Fell(s, n)
  {
    PhaseInStatus(s, env, st, n);
    assert NodeOk(s, env, st, n);
  }

  lemma CompleteStored(s: State, n: NodeId, r: Option<string>, thrown: set<NodeId>)
    requires StoredOk(s, thrown) && !Fell(s, n)
    ensures StoredOk(Apply(s, Complete(n, r)), thrown)
  {
    var t := Apply(s, Complete(n, r));
    forall m | Fell(t, m) ensures Fell(s, m) && m != n { }
  }

  lemma FailInRunStored(s: State, n: NodeId, thrown: set<NodeId>)
    requires StoredOk(s, thrown)
    ensures StoredOk(FailInRun(s, n), thrown)
  {
    forall m | Fell(FailInRun(s, n), m) && m != n ensures Fell(s, m) { }
  }

  lemma RecordStored(s: State, n: NodeId, ok: bool, thrown: set<NodeId>)
    requires StoredOk(s, thrown) && (!ok ==> At(s, n, Returned(false)))
    ensures StoredOk(RecordNode(s, n, ok), thrown)
  {
    forall m | Fell(RecordNode(s, n, ok), m) ensures Fell(s, m) { }
  }

  lemma ThrowsStored(s: State, n: NodeId, thrown: set<NodeId>)
    requires StoredOk(s, thrown)
    ensures StoredOk(Apply(s, Throws(n)), thrown + {n})
  {
    var t := Apply(s, Throws(n));
    forall m | Fell(t, m) && m != n ensures Fell(s, m) { }
  }

  lemma PayStored(s: State, step: Step, thrown: set<NodeId>)
    requires StoredOk(s, thrown) && (step.CallRelease? || step.Released? || step.ReleaseFails?)
    ensures StoredOk(Apply(s, step), thrown)
  {
    forall m | Fell(Apply(s, step), m) ensures Fell(s, m) { }
  }

  lemma ReturnedFalse(s: State, n: NodeId)
    requires n in s.phase && s.phase[n].Returned? && !At(s, n, Returned(true))
    ensures At(s, n, Returned(false))
  {
  }

  lemma NodeStepStored(s: State, env: Env, st: Start, step: Step, thrown: set<NodeId>)
    requires Core(s, env, st) && StoredOk(s, thrown) && Enabled(s, env, step) && !step.FreeSlot? && !step.Drain?
    ensures StoredOk(Apply(s, step), thrown + Thrown(step))
  {
    assert thrown + {} == thrown;
    hide Core, StoredOk, FailInRun, RecordNode;
    match step
    case Complete(n, r) => DispatchingStands(s, env, st, n); CompleteStored(s, n, r, thrown);
    case Throws(n) => ThrowsStored(s, n, thrown);
    case DispatchFails(n) => FailInRunStored(s, n, thrown);
    case FaultBeforeRelease(n) => FailInRunStored(s, n, thrown);
    case FaultAfterRelease(n) => FailInRunStored(s, n, thrown);
    case Record(n) =>
      if !At(s, n, Returned(true)) { ReturnedFalse(s, n); }
      RecordStored(s, n, At(s, n, Returned(true)), thrown);
    case _ => PayStored(s, step, thrown);
  }

  lemma StepKeepsStored(s: State, env: Env, st: Start, step: Step, thrown: set<NodeId>)
    requires Core(s, env, st) && StoredOk(s, thrown) && Enabled(s, env, step)
    ensures StoredOk(Apply(s, step), thrown + Thrown(step))
  {
    assert thrown + {} == thrown;
    LoopSteps(s, step);
    hide Core, StoredOk, Apply, FreeSlotOf, DrainNode;
    if step.FreeSlot? {
      FreeSlotStored(s, env, st, step.n, thrown);
    } else if step.Drain? {
      DrainStored(s, env, st, step.n, thrown);
    } else {
      NodeStepStored(s, env, st, step, thrown);
    }
  }

  lemma {:induction false} RunKeepsStored(s: State, env: Env, st: Start, steps: seq<Step>, thrown: set<NodeId>)
    requires Core(s, env, st) && StoredOk(s, thrown) && IsRun(s, env, steps)
    ensures StoredOk(After(s, steps), thrown + ThrownIn(steps))
    decreases |steps|
  {
    hide Core, StoredOk, Apply, Enabled, Thrown;
    if steps == [] {
      assert thrown + {} == thrown;
    } else {
      StepKeepsCore(s, env, st, steps[0]);
      StepKeepsStored(s, env, st, steps[0], thrown);
      RunKeepsStored(Apply(s, steps[0]), env, st, steps[1..], thrown + Thrown(steps[0]));
      assert thrown + Thrown(steps[0]) + ThrownIn(steps[1..]) == thrown + ThrownIn(steps);
    }
  }

  lemma {:induction false} ThrownIs(steps: seq<Step>, n: NodeId)
    ensures n in ThrownIn(steps) <==> Throws(n) in steps
  {
    if steps != [] {
      ThrownIs(steps[1..], n);
      assert steps == [steps[0]] + steps[1..];
    }
  }

  lemma BeginStored(dag: Dag, limit: nat, status: map<NodeId, Status>, results: map<NodeId, string>,
                    releases: multiset<NodeId>, env: Env)
    requires ValidStart(dag, limit, status)
    ensures StoredOk(Begin(dag, limit, status, results, releases), {})
  {
    FreshCore(dag, limit, status, results, releases, env);
    var f := Fresh(dag, limit, status, results, releases);
    assert StoredOk(f, {});
    hide Core, StoredOk, ScheduleReadyNodes, Fresh;
    ScheduleReadyStored(f, env, StartOf(dag, status), {});
  }

  /** At every moment of a run the stored DAG tells what became of each node: those in the completed set are stored
      as completed, those in the failed set as failed, save one whose runNode rejected without touching it. */
  lemma StoredOutcome(dag: Dag, limit: nat, status: map<NodeId, Status>, results: map<NodeId, string>,
                      releases: multiset<NodeId>, env: Env, steps: seq<Step>, n: NodeId)
    requires ValidStart(dag, limit, status)
    requires IsRun(Begin(dag, limit, status, results, releases), env, steps)
    ensures var s := After(Begin(dag, limit, status, results, releases), steps);
            && s.stored == s.status && s.stored.Keys == dag.deps.Keys
            && (n in s.completed ==> n in s.stored && s.stored[n] == Completed)
            && (n in s.failed && Throws(n) !in steps ==> n in s.stored && s.stored[n] == Failed)
  {
    hide Begin, IsRun, After, Inv, Trace, StoredOk;
    Reachable(dag, limit, status, results, releases, env, steps);
    RunDag(dag, limit, status, results, releases, env, steps);
    BeginStored(dag, limit, status, results, releases, env);
    BeginInv(dag, limit, status, results, releases, env);
    InvCore(Begin(dag, limit, status, results, releases), env, StartOf(dag, status));
    RunKeepsStored(Begin(dag, limit, status, results, releases), env, StartOf(dag, status), steps, {});
    assert {} + ThrownIn(steps) == ThrownIn(steps);
    ThrownIs(steps, n);
    OutcomeIs(After(Begin(dag, limit, status, results, releases), steps), env, StartOf(dag, status), ThrownIn(steps), n);
  }

  lemma OutcomeIs(s: State, env: Env, st: Start, thrown: set<NodeId>, n: NodeId)
    requires Inv(s, env, st) && StoredOk(s, thrown)
    ensures s.stored == s.status && s.stored.Keys == s.dag.deps.Keys
    ensures n in s.completed ==> n in s.stored && s.stored[n] == Completed
    ensures n in s.failed && n !in thrown ==> n in s.stored && s.stored[n] == Failed
  {
    InvCore(s, env, st);
    hide Reasons, SettleOk;
    if n in s.completed {
      assert n in s.status.Keys && NodeOk(s, env, st, n);
    }
    if n in s.failed {
      assert n in s.status.Keys && Fell(s, n);
    }
  }

  // ------------------------------------------------------------------ the order of a scheduling round

  /** The nodes that are pending, not scheduled, and have all dependencies completed, in array order. */
  function ReadyOf(s: State, nodes: seq<NodeId>): seq<NodeId> {
    if nodes == [] then [] else (if Ready(s, nodes[0]) then [nodes[0]] else []) + ReadyOf(s, nodes[1..])
  }

  ghost predicate SameAt(s: State, t: State, m: NodeId) {
    && StatusOf(t, m) == StatusOf(s, m) && (m in t.scheduled <==> m in s.scheduled)
    && t.completed == s.completed && t.dag == s.dag
  }

  lemma StartAt(s: State, n: NodeId, m: NodeId)
    requires m != n
    ensures SameAt(s, StartNode(s, n), m)
  {
  }

  lemma EnqueueAt(s: State, n: NodeId, m: NodeId)
    ensures SameAt(s, Enqueue(s, n), m) && (m != n ==> SameAt(s, Arrive(s, n), m))
  {
  }

  lemma SubmitAt(s: State, n: NodeId, m: NodeId)
    requires m != n
    ensures SameAt(s, Submit(s, n), m)
  {
    EnqueueAt(s, n, m);
    EnqueueAt(Arrive(s, n), n, m);
    StartAt(Arrive(s, n), n, m);
    hide StartNode, Enqueue, Arrive;
  }

  lemma ReadyFrame(s: State, n: NodeId, m: NodeId)
    requires m != n
    ensures Ready(Submit(s, n), m) <==> Ready(s, m)
  {
    SubmitAt(s, n, m);
    hide Submit, StatusOf;
    assert DepsOf(Submit(s, n), m) == DepsOf(s, m);
  }

  lemma {:induction false} ReadyOfFrame(s: State, n: NodeId, nodes: seq<NodeId>)
    requires n !in nodes
    ensures ReadyOf(Submit(s, n), nodes) == ReadyOf(s, nodes)
  {
    hide Submit, Ready;
    if nodes != [] {
      ReadyFrame(s, n, nodes[0]);
      ReadyOfFrame(s, n, nodes[1..]);
    }
  }

  lemma {:induction false} SubmitsReady(s: State, i: nat)
    requires NoDup(s.dag.order) && i <= |s.dag.order|
    ensures ScheduleFrom(s, i).submitted == s.submitted + ReadyOf(s, s.dag.order[i..])
    decreases |s.dag.order| - i
  {
    hide Submit, Ready;
    if i < |s.dag.order| {
      var n, rest := s.dag.order[i], s.dag.order[i + 1..];
      assert s.dag.order[i..][1..] == rest && s.dag.order[i..][0] == n && n !in rest;
      if Ready(s, n) {
        SubmitFrame(s, n);
        SubmitsReady(Submit(s, n), i + 1);
        ReadyOfFrame(s, n, rest);
        assert s.submitted + [n] + ReadyOf(s, rest) == s.submitted + ([n] + ReadyOf(s, rest));
      } else {
        SubmitsReady(s, i + 1);
        assert [] + ReadyOf(s, rest) == ReadyOf(s, rest);
      }
    }
  }

  ghost predicate InOrder(order: seq<NodeId>, m: NodeId, n: NodeId) {
    exists i, j :: 0 <= i < j < |order| && order[i] == m && order[j] == n
  }

  lemma InOrderTail(nodes: seq<NodeId>, m: NodeId, n: NodeId)
    requires nodes != [] && InOrder(nodes[1..], m, n)
    ensures InOrder(nodes, m, n)
  {
    var i, j :| 0 <= i < j < |nodes[1..]| && nodes[1..][i] == m && nodes[1..][j] == n;
    assert nodes[i + 1] == m && nodes[j + 1] == n;
  }

  lemma InOrderHead(nodes: seq<NodeId>, n: NodeId)
    requires nodes != [] && n in nodes[1..]
    ensures InOrder(nodes, nodes[0], n)
  {
    var j :| 0 <= j < |nodes[1..]| && nodes[1..][j] == n;
    assert nodes[j + 1] == n;
  }

  lemma {:induction false} ReadyOfIs(s: State, nodes: seq<NodeId>)
    ensures forall n :: n in ReadyOf(s, nodes) <==> n in nodes && Ready(s, n)
    ensures forall a, b :: 0 <= a < b < |ReadyOf(s, nodes)| ==> InOrder(nodes, ReadyOf(s, nodes)[a], ReadyOf(s, nodes)[b])
  {
    hide Ready, InOrder;
    if nodes != [] {
      var rest, more := ReadyOf(s, nodes[1..]), ReadyOf(s, nodes);
      ReadyOfIs(s, nodes[1..]);
      assert nodes == [nodes[0]] + nodes[1..];
      forall a, b | 0 <= a < b < |more| ensures InOrder(nodes, more[a], more[b]) {
        if more == rest {
          InOrderTail(nodes, rest[a], rest[b]);
        } else if a == 0 {
          assert more[b] == rest[b - 1];
          InOrderHead(nodes, more[b]);
        } else {
          InOrderTail(nodes, rest[a - 1], rest[b - 1]);
        }
      }
    }
  }

  /** A scheduling round submits, in array order, exactly the nodes that are pending, not yet scheduled, and whose
      dependencies are all completed. */
  lemma RoundSubmits(s: State)
    requires s.dag.Valid()
    ensures var t := ScheduleFrom(s, 0);
            && s.submitted <= t.submitted
            && var more := t.submitted[|s.submitted|..];
               && (forall n :: n in more <==>
                     && n in s.dag.order && n in s.status && s.status[n] == Pending && n !in s.scheduled
                     && forall d :: d in s.dag.deps[n] ==> d in s.completed)
               && forall a, b :: 0 <= a < b < |more| ==> InOrder(s.dag.order, more[a], more[b])
  {
    hide ScheduleFrom, ReadyOf, InOrder;
    SubmitsReady(s, 0);
    ReadyOfIs(s, s.dag.order);
    assert s.dag.order[0..] == s.dag.order;
    var t := ScheduleFrom(s, 0);
    assert t.submitted[|s.submitted|..] == ReadyOf(s, s.dag.order);
    forall n | n in s.dag.order
      ensures Ready(s, n) <==>
                && n in s.status && s.status[n] == Pending && n !in s.scheduled
                && forall d :: d in s.dag.deps[n] ==> d in s.completed {
      assert n in s.dag.Ids();
    }
  }
}
