/** Why nodes complete or fail, and when the run settles. */
module DagSettlement {
  import opened Common
  import opened DagModel
  import opened DagInvariant

  // ------------------------------------------------------------------ reasons

  predicate Unmet(s: State, st: Start, d: NodeId) {
    d !in s.status || d in s.failed || d in st.stuck
  }

  ghost predicate CompletedOk(s: State, env: Env, st: Start, n: NodeId) {
    n in s.completed ==> n in st.pre || (n in env.succeeds && n in s.started && DepsIn(s, n, s.completed))
  }

  /** `extra` also accepts a dependency that is merely not completed. */
  ghost predicate FailedOk(s: State, env: Env, st: Start, extra: bool, n: NodeId) {
    n in s.failed ==>
      || (n !in env.succeeds && n in s.started)
      || (exists d :: d in DepsOf(s, n) && (Unmet(s, st, d) || (extra && d !in s.completed)))
  }

  ghost predicate Reasons(s: State, env: Env, st: Start, extra: bool) {
    && (forall n :: CompletedOk(s, env, st, n))
    && (forall n :: FailedOk(s, env, st, extra, n))
  }

  ghost predicate ReasonFrame(s: State, t: State) {
    && t.dag == s.dag && t.completed == s.completed && t.failed == s.failed
    && t.status.Keys == s.status.Keys && s.started <= t.started
  }

  lemma ReasonsByFrame(s: State, t: State, env: Env, st: Start, extra: bool)
    requires Reasons(s, env, st, extra) && ReasonFrame(s, t)
    ensures Reasons(t, env, st, extra)
  {
    forall n ensures CompletedOk(t, env, st, n) && FailedOk(t, env, st, extra, n) {
      assert CompletedOk(s, env, st, n) && FailedOk(s, env, st, extra, n);
      assert DepsOf(s, n) == DepsOf(t, n);
      assert forall d :: d in DepsOf(s, n) ==> (Unmet(s, st, d) <==> Unmet(t, st, d));
    }
  }

  lemma StartReasonFrame(s: State, n: NodeId)
    requires n in s.status
    ensures ReasonFrame(s, StartNode(s, n))
  {
  }

  lemma SubmitReasonFrame(s: State, n: NodeId)
    requires n in s.status
    ensures ReasonFrame(s, Submit(s, n))
  {
    hide StartNode;
    StartReasonFrame(Arrive(s, n), n);
  }

  lemma {:induction false} ScheduleFromReasonFrame(s: State, env: Env, st: Start, i: nat)
    requires Core(s, env, st)
    ensures ReasonFrame(s, ScheduleFrom(s, i))
    decreases |s.dag.order| - i
  {
    hide Core, Submit, Ready;
    if i < |s.dag.order| {
      var n := s.dag.order[i];
      if Ready(s, n) {
        OrderInStatus(s, env, st, i);
        SubmitCore(s, env, st, n);
        SubmitReasonFrame(s, n);
        ScheduleFromReasonFrame(Submit(s, n), env, st, i + 1);
      } else {
        ScheduleFromReasonFrame(s, env, st, i + 1);
      }
    }
  }

  lemma FailNodeOtherReasons(s: State, env: Env, st: Start, deadlocked: bool, n: NodeId, m: NodeId)
    requires CompletedOk(s, env, st, m) && FailedOk(s, env, st, deadlocked, m) && n in s.status && m != n
    ensures CompletedOk(FailNode(s, n), env, st, m) && FailedOk(FailNode(s, n), env, st, deadlocked, m)
  {
    var t := FailNode(s, n);
    if m in s.failed && !(m !in env.succeeds && m in s.started) {
      var d :| d in DepsOf(s, m) && (Unmet(s, st, d) || (deadlocked && d !in s.completed));
      assert d in DepsOf(t, m) && (Unmet(t, st, d) || (deadlocked && d !in t.completed));
    }
  }

  lemma FailNodeOwnReason(s: State, env: Env, st: Start, deadlocked: bool, n: NodeId)
    requires CompletedOk(s, env, st, n) && s.dag.Ids() == s.status.Keys && n in s.status && Blocked(s, n, deadlocked)
    ensures CompletedOk(FailNode(s, n), env, st, n) && FailedOk(FailNode(s, n), env, st, deadlocked, n)
  {
    var t := FailNode(s, n);
    var d :| d in DepsOf(s, n) && (d in s.failed || d !in s.dag.Ids() || (deadlocked && d !in s.completed));
    assert d in DepsOf(t, n) && (Unmet(t, st, d) || (deadlocked && d !in t.completed));
  }

  lemma FailNodeReasons(s: State, env: Env, st: Start, deadlocked: bool, n: NodeId)
    requires Reasons(s, env, st, deadlocked) && n in s.status && s.dag.Ids() == s.status.Keys
    requires Blocked(s, n, deadlocked)
    ensures Reasons(FailNode(s, n), env, st, deadlocked)
  {
    hide CompletedOk, FailedOk, Blocked, FailNode;
    forall m ensures CompletedOk(FailNode(s, n), env, st, m) && FailedOk(FailNode(s, n), env, st, deadlocked, m) {
      assert CompletedOk(s, env, st, m) && FailedOk(s, env, st, deadlocked, m);
      if m == n {
        FailNodeOwnReason(s, env, st, deadlocked, n);
      } else {
        FailNodeOtherReasons(s, env, st, deadlocked, n, m);
      }
    }
  }

  lemma {:induction false} FailFromReasons(s: State, env: Env, st: Start, deadlocked: bool, i: nat)
    requires Core(s, env, st) && Reasons(s, env, st, deadlocked)
    ensures Reasons(FailFrom(s, deadlocked, i), env, st, deadlocked)
    decreases |s.dag.order| - i
  {
    hide Core, Blocked, Reasons;
    if i < |s.dag.order| {
      var n := s.dag.order[i];
      if StatusOf(s, n) == Some(Pending) && Blocked(s, n, deadlocked) {
        OrderInStatus(s, env, st, i);
        FailNodeCore(s, env, st, n, deadlocked);
        FailNodeReasons(s, env, st, deadlocked, n);
        FailFromReasons(FailNode(s, n), env, st, deadlocked, i + 1);
      } else {
        FailFromReasons(s, env, st, deadlocked, i + 1);
      }
    }
  }

  lemma WeakenReasons(s: State, env: Env, st: Start)
    requires Reasons(s, env, st, false)
    ensures Reasons(s, env, st, true)
  {
    forall n ensures FailedOk(s, env, st, true, n) {
      assert FailedOk(s, env, st, false, n);
    }
    forall n ensures CompletedOk(s, env, st, n) {
    }
  }

  // ------------------------------------------------------------------ the deadlock pass

  predicate Decided(s: State, st: Start, n: NodeId) { !Open(s, n) || n in st.stuck }

  /** Nothing scheduled means nothing was ready, and the pass changed nothing. */
  lemma {:induction false} NothingScheduled(s: State, env: Env, st: Start, i: nat)
    requires Core(s, env, st) && |ScheduleFrom(s, i).submitted| == |s.submitted|
    ensures ScheduleFrom(s, i) == s
    ensures forall j :: i <= j < |s.dag.order| ==> !Ready(s, s.dag.order[j])
    decreases |s.dag.order| - i
  {
    hide Core, Submit, Ready;
    if i < |s.dag.order| {
      var n := s.dag.order[i];
      if Ready(s, n) {
        OrderInStatus(s, env, st, i);
        SubmitCore(s, env, st, n);
        SubmitFrame(s, n);
        ScheduleFromCore(Submit(s, n), env, st, i + 1);
        assert false;
      } else {
        NothingScheduled(s, env, st, i + 1);
      }
    }
  }

  lemma IdleStatus(s: State, env: Env, st: Start, n: NodeId)
    requires Core(s, env, st) && n in s.status && s.inFlight == 0
    ensures n !in s.phase
    ensures s.status[n] == Pending <==> !Decided(s, st, n)
    ensures s.status[n] == Pending && !Ready(s, n) ==> !DepsIn(s, n, s.completed)
  {
    assert NodeOk(s, env, st, n);
    assert |s.phase.Keys| == 0;
  }

  lemma {:induction false} DeadlockPass(s: State, env: Env, st: Start, i: nat)
    requires Core(s, env, st) && s.inFlight == 0
    requires forall j :: i <= j < |s.dag.order| ==> !Ready(s, s.dag.order[j])
    ensures forall j :: i <= j < |s.dag.order| ==> Decided(FailFrom(s, true, i), st, s.dag.order[j])
    decreases |s.dag.order| - i
  {
    hide Core, Blocked, Ready;
    if i < |s.dag.order| {
      var n := s.dag.order[i];
      OrderInStatus(s, env, st, i);
      IdleStatus(s, env, st, n);
      if s.status[n] == Pending {
        assert Blocked(s, n, true) by { DeadlockBlocks(s, n); }
        FailNodeCore(s, env, st, n, true);
        var t := FailNode(s, n);
        forall j | i + 1 <= j < |t.dag.order| ensures !Ready(t, t.dag.order[j]) {
          assert !Ready(s, s.dag.order[j]);
          FailNotReady(s, n, s.dag.order[j]);
        }
        DeadlockPass(t, env, st, i + 1);
        FailFromCore(t, env, st, true, i + 1);
      } else {
        DeadlockPass(s, env, st, i + 1);
        FailFromCore(s, env, st, true, i + 1);
      }
    }
  }

  lemma DeadlockBlocks(s: State, n: NodeId)
    requires s.inFlight == 0 && !DepsIn(s, n, s.completed)
    ensures Blocked(s, n, true)
  {
  }

  lemma FailNotReady(s: State, n: NodeId, m: NodeId)
    requires !Ready(s, m)
    ensures !Ready(FailNode(s, n), m)
  {
  }

  ghost predicate AllDecided(s: State, st: Start) {
    forall n :: n in s.status ==> Decided(s, st, n)
  }

  lemma SharpenReasons(s: State, env: Env, st: Start)
    requires Reasons(s, env, st, true) && AllDecided(s, st)
    ensures Reasons(s, env, st, false)
  {
    forall n ensures FailedOk(s, env, st, false, n) {
      assert FailedOk(s, env, st, true, n);
    }
    forall n ensures CompletedOk(s, env, st, n) {
    }
  }

  /** The end of a scheduling round that found nothing to run and nothing in flight. */
  lemma DeadlockRound(s: State, env: Env, st: Start)
    requires Core(s, env, st) && Reasons(s, env, st, false)
    requires |ScheduleFrom(s, 0).submitted| == |s.submitted| && s.inFlight == 0
    ensures ScheduleFrom(s, 0) == s
    ensures var t := FailFrom(s, true, 0); AllDecided(t, st) && Reasons(t, env, st, false)
  {
    hide Core, Reasons, Ready, Decided;
    NothingScheduled(s, env, st, 0);
    DeadlockPass(s, env, st, 0);
    var t := FailFrom(s, true, 0);
    FailFromCore(s, env, st, true, 0);
    DecidedAll(t, env, st);
    WeakenReasons(s, env, st);
    FailFromReasons(s, env, st, true, 0);
    SharpenReasons(t, env, st);
  }

  lemma DecidedAll(s: State, env: Env, st: Start)
    requires Core(s, env, st)
    requires forall j :: 0 <= j < |s.dag.order| ==> Decided(s, st, s.dag.order[j])
    ensures AllDecided(s, st)
  {
    forall n | n in s.status ensures Decided(s, st, n) {
      assert n in s.dag.Ids();
      var j :| 0 <= j < |s.dag.order| && s.dag.order[j] == n;
    }
  }

  // ------------------------------------------------------------------ settlement

  function FinalVerdict(s: State): TaskStatus {
    if s.failed != {} then TaskFailed
    else if s.paymentFaults != {} then TaskPaymentFailed
    else TaskCompleted
  }

  ghost predicate Covered(s: State) { s.completed + s.failed == s.status.Keys }

  ghost predicate SettleOk(s: State) {
    && (s.settled ==> s.emitted == [FinalVerdict(s)] && Covered(s))
    && (!s.settled ==> s.emitted == [] && (s.paymentFailed <==> s.paymentFaults != {}))
  }

  lemma CountsToCover(s: State, env: Env, st: Start)
    requires Core(s, env, st)
    ensures |s.completed| + |s.failed| == |s.dag.order| <==> Covered(s)
  {
    NoDupCardinality(s.dag.order);
    SetCardinalitySum(s.completed, s.failed, s.status.Keys);
  }

  lemma FinishOk(s: State, env: Env, st: Start)
    requires Core(s, env, st) && SettleOk(s)
    ensures SettleOk(FinishIfSettled(s))
    ensures FinishIfSettled(s).settled <==> Covered(s)
  {
    hide Core;
    CountsToCover(s, env, st);
  }

  lemma FinishReasonFrame(s: State)
    ensures ReasonFrame(s, FinishIfSettled(s))
    ensures FinishIfSettled(s).phase == s.phase && FinishIfSettled(s).status == s.status
  {
  }

  lemma SettleOkByProgress(s: State, t: State)
    requires SettleOk(s) && t.settled == s.settled && t.emitted == s.emitted
    requires t.paymentFailed == s.paymentFailed && t.paymentFaults == s.paymentFaults
    requires s.settled ==> t.failed == s.failed && t.completed == s.completed && t.status.Keys == s.status.Keys
    ensures SettleOk(t)
  {
  }

  /** In a settled run no node is pending, and the passes do nothing. */
  lemma SettledIdle(s: State, env: Env, st: Start, n: NodeId)
    requires Core(s, env, st) && Covered(s)
    ensures StatusOf(s, n) != Some(Pending)
    ensures n in s.phase ==> s.phase[n] == Recorded
  {
    if n in s.phase { PhaseInStatus(s, env, st, n); }
    if n in s.status {
      assert NodeOk(s, env, st, n);
      assert n in s.completed + s.failed;
    }
  }

  lemma {:induction false} PassesIdle(s: State, deadlocked: bool, i: nat)
    requires forall n :: StatusOf(s, n) != Some(Pending)
    ensures ScheduleFrom(s, i) == s && FailFrom(s, deadlocked, i) == s
    decreases |s.dag.order| - i
  {
    if i < |s.dag.order| {
      PassesIdle(s, deadlocked, i + 1);
    }
  }

  lemma ScheduleKeepsSettled(s: State, env: Env, st: Start, deadlocked: bool)
    requires Core(s, env, st) && Covered(s)
    ensures ScheduleFrom(s, 0) == s && FailFrom(s, deadlocked, 0) == s
  {
    hide Core, Covered;
    forall n ensures StatusOf(s, n) != Some(Pending) {
      SettledIdle(s, env, st, n);
    }
    PassesIdle(s, deadlocked, 0);
  }

  /** The invariant of whole runs: Core, reasons, settlement, and settling when idle. */
  ghost predicate Inv(s: State, env: Env, st: Start) {
    && Core(s, env, st) && Reasons(s, env, st, false) && SettleOk(s)
    && (s.phase == map[] && st.stuck == {} ==> s.settled)
  }

  lemma ScheduleFromSettle(s: State, env: Env, st: Start)
    requires Core(s, env, st) && Reasons(s, env, st, false) && SettleOk(s)
    ensures var t := ScheduleFrom(s, 0); Core(t, env, st) && Reasons(t, env, st, false) && SettleOk(t)
  {
    hide Core, Reasons;
    ScheduleFromCore(s, env, st, 0);
    ScheduleFromReasonFrame(s, env, st, 0);
    ReasonsByFrame(s, ScheduleFrom(s, 0), env, st, false);
  }

  lemma FailFromSettle(s: State, env: Env, st: Start, deadlocked: bool)
    requires Core(s, env, st) && SettleOk(s)
    ensures var t := FailFrom(s, deadlocked, 0); Core(t, env, st) && SettleOk(t)
  {
    FailFromCore(s, env, st, deadlocked, 0);
    if s.settled {
      ScheduleKeepsSettled(s, env, st, deadlocked);
    } else {
      hide Core;
      SettleOkByProgress(s, FailFrom(s, deadlocked, 0));
    }
  }

  lemma EmptyPhase(s: State, env: Env, st: Start)
    requires Core(s, env, st)
    ensures s.phase == map[] <==> s.inFlight == 0
    ensures s.inFlight >= 0
  {
    assert s.phase == map[] <==> s.phase.Keys == {};
  }

  lemma DecidedCovers(s: State, env: Env, st: Start)
    requires Core(s, env, st) && AllDecided(s, st) && st.stuck == {}
    ensures Covered(s)
  {
    forall n | n in s.status ensures n in s.completed + s.failed {
      assert Decided(s, st, n);
    }
  }

  lemma ScheduleReadyInv(s: State, env: Env, st: Start)
    requires Core(s, env, st) && Reasons(s, env, st, false) && SettleOk(s)
    ensures Inv(ScheduleReadyNodes(s), env, st)
  {
    hide Core, Reasons, SettleOk, FinishIfSettled, Covered;
    var t := ScheduleFrom(s, 0);
    ScheduleFromCore(s, env, st, 0);
    ScheduleFromSettle(s, env, st);
    EmptyPhase(s, env, st);
    EmptyPhase(t, env, st);
    if |t.submitted| == |s.submitted| && t.inFlight == 0 {
      DeadlockRound(s, env, st);
      var u := FailFrom(s, true, 0);
      FailFromSettle(s, env, st, true);
      FinishCore(u, env, st);
      FinishOk(u, env, st);
      FinishReasonFrame(u);
      ReasonsByFrame(u, FinishIfSettled(u), env, st, false);
      if st.stuck == {} {
        DecidedCovers(u, env, st);
      }
    }
  }

  lemma FinishRound(s: State, env: Env, st: Start)
    requires Inv(s, env, st)
    ensures Inv(FinishIfSettled(FailFrom(s, false, 0)), env, st)
  {
    hide Core, Reasons, SettleOk, FinishIfSettled, Covered;
    var u := FailFrom(s, false, 0);
    FailFromCore(s, env, st, false, 0);
    FailFromReasons(s, env, st, false, 0);
    FailFromSettle(s, env, st, false);
    FinishCore(u, env, st);
    FinishOk(u, env, st);
    FinishReasonFrame(u);
    ReasonsByFrame(u, FinishIfSettled(u), env, st, false);
    assert FinishIfSettled(u).settled || !u.settled by { FinishMonotone(u); }
  }

  lemma FinishMonotone(s: State)
    ensures s.settled ==> FinishIfSettled(s).settled
  {
  }

  lemma LeaveSettle(s: State, env: Env, st: Start, n: NodeId)
    requires Reasons(s, env, st, false) && SettleOk(s)
    ensures Reasons(Leave(s, n), env, st, false) && SettleOk(Leave(s, n))
  {
    ReasonsByFrame(s, Leave(s, n), env, st, false);
  }

  lemma DrainInv(s: State, env: Env, st: Start, n: NodeId)
    requires Inv(s, env, st) && At(s, n, Recorded)
    ensures Inv(DrainNode(s, n), env, st)
  {
    hide Core, Reasons, SettleOk, FinishIfSettled, ScheduleReadyNodes;
    LeaveCore(s, env, st, n);
    LeaveSettle(s, env, st, n);
    ScheduleReadyInv(Leave(s, n), env, st);
    FinishRound(ScheduleReadyNodes(Leave(s, n)), env, st);
  }

  lemma StartedUnlessQueued(s: State, env: Env, st: Start, n: NodeId)
    requires Core(s, env, st) && n in s.phase && s.phase[n] != Queued
    ensures n in s.started && n in s.status && DepsIn(s, n, s.completed)
  {
    PhaseInStatus(s, env, st, n);
    assert NodeOk(s, env, st, n);
    assert n in s.submitted && n !in s.queue;
  }

  lemma RecordReasons(s: State, env: Env, st: Start, n: NodeId, ok: bool)
    requires Reasons(s, env, st, false) && n in s.started && DepsIn(s, n, s.completed)
    requires ok <==> n in env.succeeds
    requires Open(s, n) && s.completed <= s.status.Keys
    ensures Reasons(RecordNode(s, n, ok), env, st, false)
  {
    var t := RecordNode(s, n, ok);
    forall m ensures CompletedOk(t, env, st, m) && FailedOk(t, env, st, false, m) {
      assert CompletedOk(s, env, st, m) && FailedOk(s, env, st, false, m);
      assert DepsOf(s, m) == DepsOf(t, m);
      if m in s.failed && !(m !in env.succeeds && m in s.started) {
        var d :| d in DepsOf(s, m) && Unmet(s, st, d);
        assert d in DepsOf(t, m) && Unmet(t, st, d);
      }
    }
  }

  lemma ReturnedFacts(s: State, env: Env, st: Start, n: NodeId)
    requires Core(s, env, st) && n in s.phase && !s.phase[n].Recorded?
    ensures n in s.status && Open(s, n) && s.completed <= s.status.Keys
    ensures s.phase[n].Returned? ==> (s.phase[n] == Returned(true) <==> n in env.succeeds)
    ensures !Covered(s)
  {
    PhaseInStatus(s, env, st, n);
    assert NodeOk(s, env, st, n);
    assert Open(s, n);
    assert n !in s.completed + s.failed;
  }

  lemma InRunFrame(s: State, env: Env, step: Step)
    requires InRun(step) && Enabled(s, env, step) && step.n in s.status
    ensures Apply(s, step).settled == s.settled && Apply(s, step).emitted == s.emitted
    ensures Apply(s, step).phase != map[]
    ensures !s.settled && (s.paymentFailed <==> s.paymentFaults != {}) ==>
              (Apply(s, step).paymentFailed <==> Apply(s, step).paymentFaults != {})
    ensures !step.Record? ==> ReasonFrame(s, Apply(s, step))
  {
    hide RecordNode, FailInRun;
    RecordFrame(s, step.n, At(s, step.n, Returned(true)));
    FailInRunFrame(s, step.n);
    assert step.n in Apply(s, step).phase;
  }

  lemma RecordFrame(s: State, n: NodeId, ok: bool)
    ensures var t := RecordNode(s, n, ok);
            && t.settled == s.settled && t.emitted == s.emitted && n in t.phase
            && t.paymentFailed == s.paymentFailed && t.paymentFaults == s.paymentFaults
  {
  }

  lemma FailInRunFrame(s: State, n: NodeId)
    requires n in s.status
    ensures var t := FailInRun(s, n);
            && ReasonFrame(s, t) && t.settled == s.settled && t.emitted == s.emitted && n in t.phase
            && t.paymentFailed == s.paymentFailed && t.paymentFaults == s.paymentFaults
  {
  }

  lemma InRunInv(s: State, env: Env, st: Start, step: Step)
    requires Inv(s, env, st) && InRun(step) && Enabled(s, env, step)
    ensures Inv(Apply(s, step), env, st)
  {
    hide Core, Reasons, Covered, ReasonFrame;
    var n := step.n;
    ReturnedFacts(s, env, st, n);
    StartedUnlessQueued(s, env, st, n);
    InRunCore(s, env, st, step);
    InRunFrame(s, env, step);
    if step.Record? {
      RecordReasons(s, env, st, n, At(s, n, Returned(true)));
    } else {
      ReasonsByFrame(s, Apply(s, step), env, st, false);
    }
  }

  lemma FreeSlotFrame(s: State, n: NodeId)
    requires s.queue != [] ==> s.queue[0] in s.status && s.queue[0] in s.phase
    ensures ReasonFrame(s, FreeSlotOf(s, n))
    ensures FreeSlotOf(s, n).settled == s.settled && FreeSlotOf(s, n).emitted == s.emitted
    ensures FreeSlotOf(s, n).paymentFailed == s.paymentFailed && FreeSlotOf(s, n).paymentFaults == s.paymentFaults
    ensures FreeSlotOf(s, n).phase.Keys == s.phase.Keys
  {
    if s.queue == [] {
    } else {
      hide StartNode;
      StartFacts(GiveBack(s, n).(queue := s.queue[1..]), s.queue[0]);
    }
  }

  lemma StartFacts(s: State, n: NodeId)
    requires n in s.status && n in s.phase
    ensures var t := StartNode(s, n);
            && ReasonFrame(s, t) && t.settled == s.settled && t.emitted == s.emitted
            && t.paymentFailed == s.paymentFailed && t.paymentFaults == s.paymentFaults
            && t.phase.Keys == s.phase.Keys
  {
  }

  lemma FreeSlotInv(s: State, env: Env, st: Start, n: NodeId)
    requires Inv(s, env, st) && Enabled(s, env, FreeSlot(n))
    ensures Inv(FreeSlotOf(s, n), env, st)
  {
    hide Core, Reasons, Covered, FreeSlotOf;
    FreeSlotCore(s, env, st, n);
    if s.queue != [] {
      QueueHeadScheduled(s, env, st);
    }
    FreeSlotFrame(s, n);
    ReasonsByFrame(s, FreeSlotOf(s, n), env, st, false);
    assert Covered(s) ==> Covered(FreeSlotOf(s, n)) by { CoverFrame(s, FreeSlotOf(s, n)); }
    assert FreeSlotOf(s, n).phase == map[] ==> s.phase == map[] by {
      assert FreeSlotOf(s, n).phase == map[] ==> FreeSlotOf(s, n).phase.Keys == {};
    }
  }

  lemma CoverFrame(s: State, t: State)
    requires ReasonFrame(s, t)
    ensures Covered(s) <==> Covered(t)
  {
  }

  lemma QueueHeadScheduled(s: State, env: Env, st: Start)
    requires Core(s, env, st) && s.queue != []
    ensures s.queue[0] in s.status && s.queue[0] in s.phase
  {
    QueueHead(s);
    PhaseInStatus(s, env, st, s.queue[0]);
  }

  lemma StepKeepsInv(s: State, env: Env, st: Start, step: Step)
    requires Inv(s, env, st) && Enabled(s, env, step)
    ensures Inv(Apply(s, step), env, st)
  {
    hide Inv, FreeSlotOf, DrainNode;
    match step
    case FreeSlot(n) => FreeSlotInv(s, env, st, n);
    case Drain(n) => DrainInv(s, env, st, n);
    case _ => InRunInv(s, env, st, step);
  }

  lemma FreshReasons(dag: Dag, limit: nat, status: map<NodeId, Status>, results: map<NodeId, string>,
                     releases: multiset<NodeId>, env: Env)
    ensures Reasons(Fresh(dag, limit, status, results, releases), env, StartOf(dag, status), false)
    ensures SettleOk(Fresh(dag, limit, status, results, releases))
  {
  }

  lemma BeginInv(dag: Dag, limit: nat, status: map<NodeId, Status>, results: map<NodeId, string>,
                 releases: multiset<NodeId>, env: Env)
    requires ValidStart(dag, limit, status)
    ensures Inv(Begin(dag, limit, status, results, releases), env, StartOf(dag, status))
  {
    hide Core, Reasons, SettleOk, ScheduleReadyNodes, Fresh, Inv;
    FreshCore(dag, limit, status, results, releases, env);
    FreshReasons(dag, limit, status, results, releases, env);
    ScheduleReadyInv(Fresh(dag, limit, status, results, releases), env, StartOf(dag, status));
  }

  lemma {:induction false} RunKeepsInv(s: State, env: Env, st: Start, steps: seq<Step>)
    requires Inv(s, env, st) && IsRun(s, env, steps)
    ensures Inv(After(s, steps), env, st)
    decreases |steps|
  {
    hide Inv, Apply, Enabled;
    if steps == [] {
    } else {
      StepKeepsInv(s, env, st, steps[0]);
      RunKeepsInv(Apply(s, steps[0]), env, st, steps[1..]);
    }
  }
}
