/** Every step lowers a measure, and an unsettled run always has a next step. */
module DagTermination {
  import opened Common
  import opened DagModel
  import opened DagInvariant
  import opened DagSettlement

  function Rank(s: State, n: NodeId): nat {
    if n in s.phase then
      match s.phase[n] {
        case Queued => 8
        case Dispatching => 7
        case Stored => 6
        case Paying => 5
        case Returned(_) => 4
        case Recorded => 3
      }
    else if StatusOf(s, n) == Some(Pending) then 10
    else 0
  }

  function SumRank(s: State, i: nat): nat
    decreases |s.dag.order| - i
  {
    if i >= |s.dag.order| then 0 else Rank(s, s.dag.order[i]) + SumRank(s, i + 1)
  }

  function Measure(s: State): nat { 2 * SumRank(s, 0) + |s.slots| }

  ghost predicate RankLe(s: State, t: State) {
    t.dag == s.dag && forall n :: Rank(t, n) <= Rank(s, n)
  }

  lemma {:induction false} SumRankDrop(s: State, t: State, i: nat, n: NodeId, k: nat)
    requires RankLe(s, t) && Rank(t, n) + k <= Rank(s, n)
    ensures SumRank(t, i) <= SumRank(s, i)
    ensures n in s.dag.order[if i <= |s.dag.order| then i else |s.dag.order|..] ==> SumRank(t, i) + k <= SumRank(s, i)
    decreases |s.dag.order| - i
  {
    if i < |s.dag.order| {
      SumRankDrop(s, t, i + 1, n, k);
      assert s.dag.order[i..] == [s.dag.order[i]] + s.dag.order[i + 1..];
    }
  }

  lemma MeasureDrop(s: State, t: State, n: NodeId, k: nat)
    requires RankLe(s, t) && Rank(t, n) + k <= Rank(s, n) && n in s.dag.Ids()
    ensures Measure(t) + 2 * k + |s.slots| <= Measure(s) + |t.slots|
  {
    SumRankDrop(s, t, 0, n, k);
    assert s.dag.order[0..] == s.dag.order;
  }

  lemma MeasureSame(s: State, t: State)
    requires t.dag == s.dag && t.phase == s.phase && t.status == s.status && t.slots == s.slots
    ensures Measure(t) == Measure(s)
  {
    hide Rank;
    assert RankLe(s, t) && RankLe(t, s) by {
      forall n ensures Rank(s, n) == Rank(t, n) { RankByView(s, t, n); }
    }
    if |s.dag.order| > 0 {
      SumRankDrop(s, t, 0, s.dag.order[0], 0);
      SumRankDrop(t, s, 0, s.dag.order[0], 0);
    }
  }

  lemma RankByView(s: State, t: State, n: NodeId)
    requires (n in s.phase <==> n in t.phase) && (n in s.phase ==> t.phase[n] == s.phase[n])
    requires StatusOf(s, n) == StatusOf(t, n)
    ensures Rank(s, n) == Rank(t, n)
  {
  }

  lemma SameViewRank(s: State, t: State, n: NodeId)
    requires SameView(s, t, n)
    ensures Rank(s, n) == Rank(t, n)
  {
  }

  /** Ranks after a change confined to node `n`. */
  lemma OneNodeRank(s: State, t: State, n: NodeId)
    requires t.dag == s.dag && Rank(t, n) <= Rank(s, n) && forall m :: m != n ==> SameView(s, t, m)
    ensures RankLe(s, t)
  {
    hide Rank, SameView;
    forall m ensures Rank(t, m) <= Rank(s, m) {
      if m != n {
        assert SameView(s, t, m);
        SameViewRank(s, t, m);
      }
    }
  }

  lemma SubmitRank(s: State, n: NodeId)
    requires StatusOf(s, n) == Some(Pending) && n !in s.phase && n !in s.slots
    ensures Rank(s, n) == 10 && Rank(Submit(s, n), n) <= 8 && Submit(s, n).dag == s.dag
    ensures |Submit(s, n).slots| <= |s.slots| + 1
    ensures forall m :: m != n ==> SameView(s, Submit(s, n), m)
  {
    hide StartNode, Enqueue, Arrive, Rank, SameView;
    assert Rank(s, n) == 10 by { PendingRank(s, n); }
    if s.active < s.limit {
      StartRank(s, n);
    } else {
      EnqueueRank(s, n);
    }
  }

  lemma PendingRank(s: State, n: NodeId)
    requires StatusOf(s, n) == Some(Pending) && n !in s.phase
    ensures Rank(s, n) == 10
  {
  }

  lemma StartRank(s: State, n: NodeId)
    ensures var t := StartNode(Arrive(s, n), n);
            Rank(t, n) == 7 && t.dag == s.dag && |t.slots| <= |s.slots| + 1 && forall m :: m != n ==> SameView(s, t, m)
  {
  }

  lemma EnqueueRank(s: State, n: NodeId)
    ensures var t := Enqueue(Arrive(s, n), n);
            Rank(t, n) == 8 && t.dag == s.dag && |t.slots| <= |s.slots| + 1 && forall m :: m != n ==> SameView(s, t, m)
  {
  }

  lemma {:induction false} ScheduleFromMeasure(s: State, env: Env, st: Start, i: nat)
    requires Core(s, env, st)
    ensures Measure(ScheduleFrom(s, i)) <= Measure(s)
    decreases |s.dag.order| - i
  {
    hide Core, Submit, Ready, Measure, Rank, SameView;
    if i < |s.dag.order| {
      var n := s.dag.order[i];
      if Ready(s, n) {
        OrderInStatus(s, env, st, i);
        ReadyFacts(s, env, st, n);
        SubmitCore(s, env, st, n);
        SubmitRank(s, n);
        OneNodeRank(s, Submit(s, n), n);
        MeasureDrop(s, Submit(s, n), n, 2);
        ScheduleFromMeasure(Submit(s, n), env, st, i + 1);
      } else {
        ScheduleFromMeasure(s, env, st, i + 1);
      }
    }
  }

  lemma ReadyFacts(s: State, env: Env, st: Start, n: NodeId)
    requires Core(s, env, st) && n in s.status && Ready(s, n)
    ensures StatusOf(s, n) == Some(Pending) && n !in s.phase && n !in s.slots
  {
    assert NodeOk(s, env, st, n);
    SubmitFacts(s, env, st, n);
  }

  lemma {:induction false} FailFromMeasure(s: State, env: Env, st: Start, deadlocked: bool, i: nat)
    requires Core(s, env, st)
    ensures Measure(FailFrom(s, deadlocked, i)) <= Measure(s)
    decreases |s.dag.order| - i
  {
    hide Core, Blocked, Measure, Rank, SameView;
    if i < |s.dag.order| {
      var n := s.dag.order[i];
      if StatusOf(s, n) == Some(Pending) && Blocked(s, n, deadlocked) {
        FailNodeCore(s, env, st, n, deadlocked);
        FailNodeOthers(s, n);
        assert Rank(FailNode(s, n), n) <= Rank(s, n) by { FailRank(s, n); }
        OneNodeRank(s, FailNode(s, n), n);
        MeasureDrop(s, FailNode(s, n), n, 0);
        FailFromMeasure(FailNode(s, n), env, st, deadlocked, i + 1);
      } else {
        FailFromMeasure(s, env, st, deadlocked, i + 1);
      }
    }
  }

  lemma FailRank(s: State, n: NodeId)
    requires n !in s.phase
    ensures Rank(FailNode(s, n), n) <= Rank(s, n)
  {
  }

  lemma FinishMeasure(s: State)
    ensures Measure(FinishIfSettled(s)) == Measure(s)
  {
    hide Measure;
    MeasureSame(s, FinishIfSettled(s));
  }

  lemma ScheduleReadyMeasure(s: State, env: Env, st: Start)
    requires Core(s, env, st)
    ensures Measure(ScheduleReadyNodes(s)) <= Measure(s)
  {
    hide Core, Measure, FinishIfSettled;
    var t := ScheduleFrom(s, 0);
    ScheduleFromCore(s, env, st, 0);
    ScheduleFromMeasure(s, env, st, 0);
    FailFromMeasure(t, env, st, true, 0);
    FinishMeasure(FailFrom(t, true, 0));
  }

  lemma LeaveMeasure(s: State, env: Env, st: Start, n: NodeId)
    requires Core(s, env, st) && At(s, n, Recorded)
    ensures Measure(Leave(s, n)) < Measure(s)
  {
    hide Core, Rank, SameView, Measure;
    PhaseInStatus(s, env, st, n);
    LeaveOthers(s, n);
    LeaveRank(s, env, st, n);
    OneNodeRank(s, Leave(s, n), n);
    MeasureDrop(s, Leave(s, n), n, 3);
  }

  lemma LeaveRank(s: State, env: Env, st: Start, n: NodeId)
    requires Core(s, env, st) && At(s, n, Recorded) && n in s.status
    ensures Rank(s, n) == 3 && Rank(Leave(s, n), n) == 0 && n in s.dag.Ids()
  {
    assert NodeOk(s, env, st, n);
  }

  lemma DrainMeasure(s: State, env: Env, st: Start, n: NodeId)
    requires Core(s, env, st) && At(s, n, Recorded)
    ensures Measure(DrainNode(s, n)) < Measure(s)
  {
    hide Core, Measure, ScheduleReadyNodes, FinishIfSettled;
    var t := Leave(s, n);
    LeaveMeasure(s, env, st, n);
    LeaveCore(s, env, st, n);
    ScheduleReadyMeasure(t, env, st);
    ScheduleReadyCore(t, env, st);
    FailFromMeasure(ScheduleReadyNodes(t), env, st, false, 0);
    FinishMeasure(FailFrom(ScheduleReadyNodes(t), false, 0));
  }

  lemma FreeSlotMeasure(s: State, env: Env, st: Start, n: NodeId)
    requires Core(s, env, st) && Enabled(s, env, FreeSlot(n))
    ensures Measure(FreeSlotOf(s, n)) < Measure(s)
  {
    hide Core, Rank, SameView, Measure;
    PhaseInStatus(s, env, st, n);
    StatusInIds(s, env, st, n);
    if s.queue == [] {
      var t := GiveBack(s, n);
      assert RankLe(s, t) by {
        forall m ensures Rank(t, m) == Rank(s, m) { RankByView(s, t, m); }
      }
      MeasureDrop(s, t, n, 0);
    } else {
      var q := s.queue[0];
      QueueHeadScheduled(s, env, st);
      StatusInIds(s, env, st, q);
      QueueHeadFacts(s, env, st, n);
      var g := GiveBack(s, n).(queue := s.queue[1..]);
      var t := StartNode(g, q);
      StartRanks(s, g, q);
      MeasureDrop(s, t, q, 1);
      assert |t.slots| == |s.slots| by {
        assert |g.slots| == |s.slots| - 1;
        assert t.slots == g.slots + {q};
      }
    }
  }

  lemma QueueHeadFacts(s: State, env: Env, st: Start, n: NodeId)
    requires Core(s, env, st) && s.queue != [] && n in s.slots
    ensures At(s, s.queue[0], Queued) && s.queue[0] !in s.slots
  {
    QueueHead(s);
    PhaseInStatus(s, env, st, s.queue[0]);
    assert NodeOk(s, env, st, s.queue[0]);
  }

  lemma StatusInIds(s: State, env: Env, st: Start, n: NodeId)
    requires Core(s, env, st) && n in s.status
    ensures n in s.dag.Ids()
  {
  }

  lemma StartRanks(s: State, g: State, q: NodeId)
    requires g.dag == s.dag && g.phase == s.phase && g.status == s.status && At(s, q, Queued)
    ensures Rank(StartNode(g, q), q) + 1 <= Rank(s, q)
    ensures RankLe(s, StartNode(g, q))
  {
    var t := StartNode(g, q);
    forall m ensures Rank(t, m) <= Rank(s, m) {
      if m != q { RankByView(s, t, m); }
    }
  }

  lemma InRunMeasure(s: State, env: Env, st: Start, step: Step)
    requires Core(s, env, st) && InRun(step) && Enabled(s, env, step)
    ensures Measure(Apply(s, step)) < Measure(s)
  {
    hide Core, Rank, SameView, Measure, Apply, Sets, Counts, Limiter;
    var n := step.n;
    PhaseInStatus(s, env, st, n);
    StatusInIds(s, env, st, n);
    CoreParts(s, env, st, n);
    InRunOnlyNode(s, env, step);
    OnlyNodeViews(s, Apply(s, step), n);
    InRunRank(s, env, step);
    OneNodeRank(s, Apply(s, step), n);
    MeasureDrop(s, Apply(s, step), n, 1);
  }

  lemma OnlyNodeViews(s: State, t: State, n: NodeId)
    requires OnlyNode(s, t, n)
    ensures forall m :: m != n ==> SameView(s, t, m)
  {
  }

  lemma InRunRank(s: State, env: Env, step: Step)
    requires InRun(step) && Enabled(s, env, step)
    ensures Rank(Apply(s, step), step.n) + 1 <= Rank(s, step.n)
  {
    hide RecordNode, FailInRun;
    RecordRank(s, step.n, At(s, step.n, Returned(true)));
    FailInRunRank(s, step.n);
  }

  lemma RecordRank(s: State, n: NodeId, ok: bool)
    ensures Rank(RecordNode(s, n, ok), n) == 3
  {
  }

  lemma FailInRunRank(s: State, n: NodeId)
    ensures Rank(FailInRun(s, n), n) == 4
  {
  }

  lemma StepLowersMeasure(s: State, env: Env, st: Start, step: Step)
    requires Core(s, env, st) && Enabled(s, env, step)
    ensures Measure(Apply(s, step)) < Measure(s)
  {
    hide Core, Measure, FreeSlotOf, DrainNode;
    match step
    case FreeSlot(n) => FreeSlotMeasure(s, env, st, n);
    case Drain(n) => DrainMeasure(s, env, st, n);
    case _ => InRunMeasure(s, env, st, step);
  }

  /** An unsettled run has a next step. */
  lemma Progress(s: State, env: Env, st: Start) returns (step: Step)
    requires Inv(s, env, st) && st.stuck == {} && !s.settled
    ensures Enabled(s, env, step)
  {
    hide Reasons, SettleOk, Core;
    assert s.phase != map[];
    if exists n :: n in s.phase && s.phase[n] != Queued {
      var n :| n in s.phase && s.phase[n] != Queued;
      PayingOk(s, env, st, n);
      step := NodeProgress(s, env, n);
    } else {
      step := SlotProgress(s, env, st);
    }
  }

  lemma PayingOk(s: State, env: Env, st: Start, n: NodeId)
    requires Core(s, env, st) && n in s.phase
    ensures s.phase[n] == Paying ==> n in env.succeeds || env.throwsAfterRelease
  {
    PhaseInStatus(s, env, st, n);
    assert NodeOk(s, env, st, n);
  }

  lemma NodeProgress(s: State, env: Env, n: NodeId) returns (step: Step)
    requires n in s.phase && s.phase[n] != Queued
    requires s.phase[n] == Paying ==> n in env.succeeds || env.throwsAfterRelease
    ensures Enabled(s, env, step)
  {
    match s.phase[n]
    case Dispatching => step := Complete(n, None);
    case Stored => step := if n in env.succeeds then CallRelease(n) else FaultBeforeRelease(n);
    case Paying => step := if n in env.succeeds then Released(n) else FaultAfterRelease(n);
    case Returned(_) => step := Record(n);
    case Recorded => step := Drain(n);
  }

  lemma SlotProgress(s: State, env: Env, st: Start) returns (step: Step)
    requires Core(s, env, st) && s.phase != map[] && forall n :: n in s.phase ==> s.phase[n] == Queued
    ensures Enabled(s, env, step)
  {
    var n :| n in s.phase;
    assert At(s, n, Queued);
    assert n in s.queue;
    assert |s.slots| >= 1;
    var h :| h in s.slots;
    PhaseInStatus(s, env, st, h);
    assert NodeOk(s, env, st, h);
    QueuedNotStarted(s, h);
    step := FreeSlot(h);
  }

  lemma QueuedNotStarted(s: State, h: NodeId)
    requires Limiter(s) && h in s.started
    ensures h !in s.queue
  {
    var i :| 0 <= i < |s.started| && s.started[i] == h;
    forall j | 0 <= j < |s.queue| ensures s.queue[j] != h {
      assert s.submitted[i] == h && s.submitted[|s.started| + j] == s.queue[j];
    }
  }
}
