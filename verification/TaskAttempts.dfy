/**
 * All attempts of one task, one attempt at a time: retries, crashes and the shutdown sweep.
 * What survives an attempt is the stored DAG and the releases already made.
 */
module TaskAttempts {
  import opened Common
  import opened DagModel
  import opened DagInvariant
  import opened DagSettlement
  import opened DagTheorems

  datatype World = World(
    dag: Dag,
    saved: map<NodeId, Status>,        // the stored DAG while no attempt runs
    paid: multiset<NodeId>,            // releases made before the current attempt
    run: Option<State>,
    begun: map<NodeId, Status>,        // statuses the current attempt started from
    succeeds: set<NodeId>)             // outcome of each node in the current attempt

  datatype Event =
    | StartAttempt(limit: nat, results: map<NodeId, string>, succeeds: set<NodeId>)
    | InAttempt(step: Step)
    | EndAttempt                       // the run settled and the handler returned or threw
    | Crash                            // the process dies: only the stored DAG is left
    | ShutdownSweep                    // unfinished nodes of a running task are stored as failed

  /** What the job handler does to the stored DAG before it runs it again. */
  function ResetFailed(stored: map<NodeId, Status>): map<NodeId, Status> {
    map n | n in stored :: if stored[n] == Failed then Pending else stored[n]
  }

  function Sweep(stored: map<NodeId, Status>): map<NodeId, Status> {
    map n | n in stored :: if stored[n] in {Running, Pending} then Failed else stored[n]
  }

  function Stored(w: World): map<NodeId, Status> {
    if w.run.Some? then w.run.value.stored else w.saved
  }

  function Releases(w: World): multiset<NodeId> {
    if w.run.Some? then w.run.value.releases else w.paid
  }

  predicate Possible(w: World, throws: bool, e: Event) {
    match e
    case StartAttempt(limit, _, _) => w.run.None? && limit >= 1
    case InAttempt(step) => w.run.Some? && Enabled(w.run.value, Env(w.succeeds, throws), step)
    case EndAttempt => w.run.Some? && w.run.value.settled
    case Crash => w.run.Some?
    case ShutdownSweep => true
  }

  function Next(w: World, e: Event): World {
    match e
    case StartAttempt(limit, results, succeeds) =>
      var status := ResetFailed(w.saved);
      w.(run := Some(Begin(w.dag, limit, status, results, w.paid)), begun := status, succeeds := succeeds)
    case InAttempt(step) => if w.run.Some? then w.(run := Some(Apply(w.run.value, step))) else w
    case EndAttempt => w.(run := None, saved := Stored(w), paid := Releases(w))
    case Crash => w.(run := None, saved := Stored(w), paid := Releases(w))
    case ShutdownSweep =>
      if w.run.Some? then w.(run := Some(w.run.value.(stored := Sweep(w.run.value.stored))))
      else w.(saved := Sweep(w.saved))
  }

  predicate IsHistory(w: World, throws: bool, events: seq<Event>)
    decreases |events|
  {
    events == [] || (Possible(w, throws, events[0]) && IsHistory(Next(w, events[0]), throws, events[1..]))
  }

  function End(w: World, events: seq<Event>): World
    decreases |events|
  {
    if events == [] then w else End(Next(w, events[0]), events[1..])
  }

  function NewTask(dag: Dag): World {
    World(dag, map n | n in dag.deps :: Pending, multiset{}, None, map[], {})
  }

  // ------------------------------------------------------------------ within one attempt

  predicate MarkedCompleted(s: State, n: NodeId) {
    StatusOf(s, n) == Some(Completed) && n in s.stored && s.stored[n] == Completed
  }

  /** With `f` faults of the node so far: each fault undid one release, and at most one release
      still stands. A node is completed in memory and in the stored DAG before its release is
      called, and stays so until a fault; a standing release is past its call. */
  predicate ReleaseOk(s: State, n: NodeId, f: nat) {
    && f <= s.releases[n] <= f + 1
    && (At(s, n, DagModel.Stored) ==> MarkedCompleted(s, n))
    && (At(s, n, Paying) ==> s.releases[n] == f + 1)
    && (s.releases[n] == f + 1 ==>
          && MarkedCompleted(s, n)
          && (n in s.phase ==> s.phase[n].Paying? || s.phase[n].Returned? || s.phase[n].Recorded?))
  }

  ghost predicate AllReleaseOk(s: State, faults: multiset<NodeId>) { forall n :: ReleaseOk(s, n, faults[n]) }

  lemma StartReleases(s: State, n: NodeId, faults: multiset<NodeId>)
    requires AllReleaseOk(s, faults) && s.releases[n] <= faults[n]
    ensures AllReleaseOk(StartNode(s, n), faults)
  {
    forall m ensures ReleaseOk(StartNode(s, n), m, faults[m]) {
      assert ReleaseOk(s, m, faults[m]);
    }
  }

  lemma SubmitReleases(s: State, n: NodeId, faults: multiset<NodeId>)
    requires AllReleaseOk(s, faults) && Ready(s, n)
    ensures AllReleaseOk(Submit(s, n), faults)
  {
    assert ReleaseOk(s, n, faults[n]);
    assert AllReleaseOk(Arrive(s, n), faults) by {
      forall m ensures ReleaseOk(Arrive(s, n), m, faults[m]) { assert ReleaseOk(s, m, faults[m]); }
    }
    if s.active < s.limit {
      StartReleases(Arrive(s, n), n, faults);
    } else {
      EnqueueReleases(Arrive(s, n), n, faults);
    }
  }

  lemma EnqueueReleases(s: State, n: NodeId, faults: multiset<NodeId>)
    requires AllReleaseOk(s, faults) && s.releases[n] <= faults[n]
    ensures AllReleaseOk(Enqueue(s, n), faults)
  {
    forall m ensures ReleaseOk(Enqueue(s, n), m, faults[m]) { assert ReleaseOk(s, m, faults[m]); }
  }

  lemma {:induction false} ScheduleFromReleases(s: State, i: nat, faults: multiset<NodeId>)
    requires AllReleaseOk(s, faults)
    ensures AllReleaseOk(ScheduleFrom(s, i), faults)
    decreases |s.dag.order| - i
  {
    hide AllReleaseOk, Ready;
    if i < |s.dag.order| {
      var n := s.dag.order[i];
      if Ready(s, n) {
        SubmitReleases(s, n, faults);
        SubmitFrame(s, n);
        hide Submit;
        ScheduleFromReleases(Submit(s, n), i + 1, faults);
      } else {
        ScheduleFromReleases(s, i + 1, faults);
      }
    }
  }

  lemma FailNodeReleases(s: State, n: NodeId, faults: multiset<NodeId>)
    requires AllReleaseOk(s, faults) && StatusOf(s, n) == Some(Pending)
    ensures AllReleaseOk(FailNode(s, n), faults)
  {
    assert ReleaseOk(s, n, faults[n]);
    forall m ensures ReleaseOk(FailNode(s, n), m, faults[m]) { assert ReleaseOk(s, m, faults[m]); }
  }

  lemma {:induction false} FailFromReleases(s: State, deadlocked: bool, i: nat, faults: multiset<NodeId>)
    requires AllReleaseOk(s, faults)
    ensures AllReleaseOk(FailFrom(s, deadlocked, i), faults)
    decreases |s.dag.order| - i
  {
    hide AllReleaseOk, Blocked;
    if i < |s.dag.order| {
      var n := s.dag.order[i];
      if StatusOf(s, n) == Some(Pending) && Blocked(s, n, deadlocked) {
        FailNodeReleases(s, n, faults);
        FailFromReleases(FailNode(s, n), deadlocked, i + 1, faults);
      } else {
        FailFromReleases(s, deadlocked, i + 1, faults);
      }
    }
  }

  lemma FinishReleases(s: State, faults: multiset<NodeId>)
    requires AllReleaseOk(s, faults)
    ensures AllReleaseOk(FinishIfSettled(s), faults)
  {
    forall m ensures ReleaseOk(FinishIfSettled(s), m, faults[m]) { assert ReleaseOk(s, m, faults[m]); }
  }

  lemma ScheduleReadyReleases(s: State, faults: multiset<NodeId>)
    requires AllReleaseOk(s, faults)
    ensures AllReleaseOk(ScheduleReadyNodes(s), faults)
  {
    hide AllReleaseOk, FinishIfSettled;
    ScheduleFromReleases(s, 0, faults);
    FailFromReleases(ScheduleFrom(s, 0), true, 0, faults);
    FinishReleases(FailFrom(ScheduleFrom(s, 0), true, 0), faults);
  }

  lemma DrainReleases(s: State, n: NodeId, faults: multiset<NodeId>)
    requires AllReleaseOk(s, faults)
    ensures AllReleaseOk(DrainNode(s, n), faults)
  {
    var t := Leave(s, n);
    forall m ensures ReleaseOk(t, m, faults[m]) { assert ReleaseOk(s, m, faults[m]); }
    hide AllReleaseOk, FinishIfSettled, ScheduleReadyNodes;
    ScheduleReadyReleases(t, faults);
    FailFromReleases(ScheduleReadyNodes(t), false, 0, faults);
    FinishReleases(FailFrom(ScheduleReadyNodes(t), false, 0), faults);
  }

  lemma FreeSlotReleases(s: State, env: Env, st: Start, n: NodeId, faults: multiset<NodeId>)
    requires Core(s, env, st) && AllReleaseOk(s, faults)
    ensures AllReleaseOk(FreeSlotOf(s, n), faults)
  {
    hide Core, StartNode;
    assert AllReleaseOk(GiveBack(s, n), faults) by {
      forall m ensures ReleaseOk(GiveBack(s, n), m, faults[m]) { assert ReleaseOk(s, m, faults[m]); }
    }
    if s.queue != [] {
      var g := GiveBack(s, n).(queue := s.queue[1..]);
      assert AllReleaseOk(g, faults) by {
        forall m ensures ReleaseOk(g, m, faults[m]) { assert ReleaseOk(GiveBack(s, n), m, faults[m]); }
      }
      HeadQueued(s, env, st);
      assert ReleaseOk(s, s.queue[0], faults[s.queue[0]]);
      StartReleases(g, s.queue[0], faults);
    }
  }

  lemma HeadQueued(s: State, env: Env, st: Start)
    requires Core(s, env, st) && s.queue != []
    ensures At(s, s.queue[0], Queued)
  {
    QueueHead(s);
  }

  lemma FailInRunReleases(s: State, n: NodeId, faults: multiset<NodeId>)
    requires AllReleaseOk(s, faults) && s.releases[n] <= faults[n]
    ensures AllReleaseOk(FailInRun(s, n), faults)
  {
    forall m ensures ReleaseOk(FailInRun(s, n), m, faults[m]) { assert ReleaseOk(s, m, faults[m]); }
  }

  lemma RecordReleases(s: State, n: NodeId, ok: bool, faults: multiset<NodeId>)
    requires AllReleaseOk(s, faults)
    ensures AllReleaseOk(RecordNode(s, n, ok), faults)
  {
    var t := RecordNode(s, n, ok);
    assert t.releases == s.releases && t.status == s.status && t.stored == s.stored && t.phase == s.phase[n := Recorded];
    hide RecordNode;
    forall m ensures ReleaseOk(t, m, faults[m]) { assert ReleaseOk(s, m, faults[m]); }
  }

  lemma NodeStepReleases(s: State, env: Env, step: Step, faults: multiset<NodeId>)
    requires AllReleaseOk(s, faults) && Enabled(s, env, step)
    requires step.Complete? || step.Throws? || step.Released? || step.ReleaseFails?
    ensures AllReleaseOk(Apply(s, step), faults)
  {
    assert ReleaseOk(s, step.n, faults[step.n]);
    forall m ensures ReleaseOk(Apply(s, step), m, faults[m]) { assert ReleaseOk(s, m, faults[m]); }
  }

  lemma CallReleases(s: State, env: Env, n: NodeId, faults: multiset<NodeId>)
    requires AllReleaseOk(s, faults) && Enabled(s, env, CallRelease(n))
    ensures AllReleaseOk(Apply(s, CallRelease(n)), faults)
  {
    assert ReleaseOk(s, n, faults[n]);
    forall m ensures ReleaseOk(Apply(s, CallRelease(n)), m, faults[m]) { assert ReleaseOk(s, m, faults[m]); }
  }

  /** An exception between a release and the return of `runNode`. */
  function FaultOf(step: Step): multiset<NodeId> {
    if step.FaultAfterRelease? then multiset{step.n} else multiset{}
  }

  lemma FaultReleases(s: State, env: Env, n: NodeId, faults: multiset<NodeId>)
    requires AllReleaseOk(s, faults) && Enabled(s, env, FaultAfterRelease(n))
    ensures AllReleaseOk(Apply(s, FaultAfterRelease(n)), faults + multiset{n})
  {
    assert ReleaseOk(s, n, faults[n]);
    forall m ensures ReleaseOk(Apply(s, FaultAfterRelease(n)), m, (faults + multiset{n})[m]) {
      assert ReleaseOk(s, m, faults[m]);
    }
  }

  lemma StepKeepsReleases(s: State, env: Env, st: Start, step: Step, faults: multiset<NodeId>)
    requires Core(s, env, st) && AllReleaseOk(s, faults) && Enabled(s, env, step)
    ensures AllReleaseOk(Apply(s, step), faults + FaultOf(step))
  {
    LoopSteps(s, step);
    hide Core, AllReleaseOk, Apply;
    assert faults + multiset{} == faults;
    if step.FaultAfterRelease? {
      FaultReleases(s, env, step.n, faults);
    } else if step.FreeSlot? {
      FreeSlotReleases(s, env, st, step.n, faults);
    } else if step.Drain? {
      DrainReleases(s, step.n, faults);
    } else if step.Record? {
      RecordStepReleases(s, step.n, faults);
    } else if step.CallRelease? {
      CallReleases(s, env, step.n, faults);
    } else if step.DispatchFails? || step.FaultBeforeRelease? {
      FailStepReleases(s, env, step, faults);
    } else {
      NodeStepReleases(s, env, step, faults);
    }
  }

  lemma RecordStepReleases(s: State, n: NodeId, faults: multiset<NodeId>)
    requires AllReleaseOk(s, faults)
    ensures AllReleaseOk(Apply(s, Record(n)), faults)
  {
    hide AllReleaseOk, RecordNode;
    RecordReleases(s, n, At(s, n, Returned(true)), faults);
  }

  lemma FailStepReleases(s: State, env: Env, step: Step, faults: multiset<NodeId>)
    requires AllReleaseOk(s, faults) && Enabled(s, env, step) && (step.DispatchFails? || step.FaultBeforeRelease?)
    ensures AllReleaseOk(Apply(s, step), faults)
  {
    assert ReleaseOk(s, step.n, faults[step.n]);
    hide AllReleaseOk, FailInRun;
    FailInRunReleases(s, step.n, faults);
  }

  // ------------------------------------------------------------------ across attempts

  ghost predicate PaidOnce(paid: multiset<NodeId>, stored: map<NodeId, Status>, faults: multiset<NodeId>) {
    forall n :: faults[n] <= paid[n] <= faults[n] + 1
                && (paid[n] == faults[n] + 1 ==> n in stored && stored[n] == Completed)
  }

  ghost predicate WorldOk(w: World, throws: bool, faults: multiset<NodeId>) {
    && w.dag.Valid()
    && if w.run.Some? then
         && Core(w.run.value, Env(w.succeeds, throws), StartOf(w.dag, w.begun))
         && AllReleaseOk(w.run.value, faults)
         && w.run.value.dag == w.dag && w.run.value.stored.Keys == w.dag.deps.Keys
       else PaidOnce(w.paid, w.saved, faults) && w.saved.Keys == w.dag.deps.Keys
  }

  lemma BeginReleases(dag: Dag, limit: nat, status: map<NodeId, Status>, results: map<NodeId, string>, paid: multiset<NodeId>, faults: multiset<NodeId>)
    requires PaidOnce(paid, status, faults)
    ensures AllReleaseOk(Begin(dag, limit, status, results, paid), faults)
  {
    var f := Fresh(dag, limit, status, results, paid);
    assert AllReleaseOk(f, faults) by {
      forall n ensures ReleaseOk(f, n, faults[n]) { assert paid[n] >= faults[n]; }
    }
    hide AllReleaseOk, ScheduleReadyNodes;
    ScheduleReadyReleases(f, faults);
  }

  lemma StartKeepsWorld(w: World, throws: bool, e: Event, faults: multiset<NodeId>)
    requires WorldOk(w, throws, faults) && e.StartAttempt? && Possible(w, throws, e)
    ensures WorldOk(Next(w, e), throws, faults)
  {
    var status := ResetFailed(w.saved);
    var env := Env(e.succeeds, throws);
    assert PaidOnce(w.paid, status, faults);
    hide PaidOnce, Core, AllReleaseOk, ScheduleReadyNodes, Fresh;
    assert ValidStart(w.dag, e.limit, status);
    BeginCore(w.dag, e.limit, status, e.results, w.paid, env);
    BeginReleases(w.dag, e.limit, status, e.results, w.paid, faults);
    BeginKeys(w.dag, e.limit, status, e.results, w.paid, env);
  }

  lemma BeginKeys(dag: Dag, limit: nat, status: map<NodeId, Status>, results: map<NodeId, string>,
                  paid: multiset<NodeId>, env: Env)
    requires ValidStart(dag, limit, status)
    ensures Begin(dag, limit, status, results, paid).dag == dag
    ensures Begin(dag, limit, status, results, paid).stored.Keys == dag.deps.Keys
  {
    var f := Fresh(dag, limit, status, results, paid);
    FreshCore(dag, limit, status, results, paid, env);
    StoredScheduleReady(f, env, StartOf(dag, status));
  }

  ghost predicate SameKeys(s: State, t: State) {
    t.dag == s.dag && (s.stored.Keys == s.dag.deps.Keys ==> t.stored.Keys == s.dag.deps.Keys)
  }

  lemma StoredSubmit(s: State, n: NodeId)
    requires n in s.dag.deps
    ensures SameKeys(s, Submit(s, n))
  {
    hide StartNode;
    StoredStart(Arrive(s, n), n);
  }

  lemma StoredStart(s: State, n: NodeId)
    requires n in s.dag.deps
    ensures SameKeys(s, StartNode(s, n))
  {
  }

  lemma {:induction false} StoredSchedule(s: State, i: nat)
    requires s.dag.Valid()
    ensures SameKeys(s, ScheduleFrom(s, i))
    decreases |s.dag.order| - i
  {
    hide Submit, Ready;
    if i < |s.dag.order| {
      var n := s.dag.order[i];
      assert n in s.dag.Ids();
      if Ready(s, n) {
        StoredSubmit(s, n);
        StoredSchedule(Submit(s, n), i + 1);
      } else {
        StoredSchedule(s, i + 1);
      }
    }
  }

  lemma StoredFailNode(s: State, n: NodeId)
    requires n in s.dag.deps
    ensures SameKeys(s, FailNode(s, n)) && FailNode(s, n).dag == s.dag
    ensures s.status.Keys == s.dag.deps.Keys ==> FailNode(s, n).status.Keys == s.dag.deps.Keys
    ensures n in s.status ==> FailNode(s, n).status.Keys == s.status.Keys
  {
  }

  lemma {:induction false} StoredFail(s: State, deadlocked: bool, i: nat)
    requires s.dag.Valid()
    ensures SameKeys(s, FailFrom(s, deadlocked, i))
    ensures FailFrom(s, deadlocked, i).status.Keys == s.dag.deps.Keys || s.status.Keys != s.dag.deps.Keys
    decreases |s.dag.order| - i
  {
    hide Blocked, FailNode;
    if i < |s.dag.order| {
      var n := s.dag.order[i];
      assert n in s.dag.Ids();
      if StatusOf(s, n) == Some(Pending) && Blocked(s, n, deadlocked) {
        StoredFailNode(s, n);
        StoredFail(FailNode(s, n), deadlocked, i + 1);
      } else {
        StoredFail(s, deadlocked, i + 1);
      }
    }
  }

  lemma CoreKeys(s: State, env: Env, st: Start)
    requires Core(s, env, st)
    ensures s.dag.Valid() && s.status.Keys == s.dag.deps.Keys
  {
  }

  lemma StoredFinish(s: State, env: Env, st: Start)
    requires Core(s, env, st)
    ensures SameKeys(s, FinishIfSettled(s))
  {
    CoreKeys(s, env, st);
    hide Core;
  }

  lemma StoredScheduleReady(s: State, env: Env, st: Start)
    requires Core(s, env, st)
    ensures SameKeys(s, ScheduleReadyNodes(s))
  {
    CoreKeys(s, env, st);
    hide Core, FinishIfSettled;
    ScheduleFromCore(s, env, st, 0);
    StoredSchedule(s, 0);
    var t := ScheduleFrom(s, 0);
    FailFromCore(t, env, st, true, 0);
    StoredFail(t, true, 0);
    StoredFinish(FailFrom(t, true, 0), env, st);
  }

  lemma StoredDrain(s: State, env: Env, st: Start, n: NodeId)
    requires Core(s, env, st) && At(s, n, Recorded)
    ensures SameKeys(s, DrainNode(s, n))
  {
    CoreKeys(s, env, st);
    hide Core, FinishIfSettled, ScheduleReadyNodes;
    var t := Leave(s, n);
    LeaveCore(s, env, st, n);
    StoredScheduleReady(t, env, st);
    ScheduleReadyCore(t, env, st);
    StoredFail(ScheduleReadyNodes(t), false, 0);
    FailFromCore(ScheduleReadyNodes(t), env, st, false, 0);
    StoredFinish(FailFrom(ScheduleReadyNodes(t), false, 0), env, st);
  }

  lemma StoredFreeSlot(s: State, env: Env, st: Start, n: NodeId)
    requires Core(s, env, st)
    ensures SameKeys(s, FreeSlotOf(s, n))
  {
    if s.queue != [] {
      QueueHeadScheduled(s, env, st);
      CoreKeys(s, env, st);
      hide Core, StartNode;
      StoredStart(GiveBack(s, n).(queue := s.queue[1..]), s.queue[0]);
    }
  }

  lemma StoredStep(s: State, env: Env, st: Start, step: Step)
    requires Core(s, env, st) && Enabled(s, env, step)
    ensures SameKeys(s, Apply(s, step))
  {
    hide Apply, SameKeys, Core;
    LoopSteps(s, step);
    if step.FreeSlot? {
      StoredFreeSlot(s, env, st, step.n);
    } else if step.Drain? {
      StoredDrain(s, env, st, step.n);
    } else {
      PhaseInStatus(s, env, st, step.n);
      CoreKeys(s, env, st);
      StoredInRun(s, step);
    }
  }

  lemma StoredInRun(s: State, step: Step)
    requires step.n in s.dag.deps && InRun(step)
    ensures SameKeys(s, Apply(s, step))
  {
    hide FailInRun, RecordNode;
    StoredHelpers(s, step.n, At(s, step.n, Returned(true)));
  }

  lemma StoredHelpers(s: State, n: NodeId, ok: bool)
    requires n in s.dag.deps
    ensures SameKeys(s, FailInRun(s, n)) && SameKeys(s, RecordNode(s, n, ok))
  {
  }

  lemma SweepCore(s: State, env: Env, st: Start)
    requires Core(s, env, st)
    ensures Core(s.(stored := Sweep(s.stored)), env, st)
  {
    hide NodeOk, SameView;
    var t := s.(stored := Sweep(s.stored));
    assert Limiter(t) by { assert forall m :: m in t.queue <==> At(s, m, Queued); }
    forall m | m in t.status ensures NodeOk(t, env, st, m) {
      SweepView(s, m);
      SameViewOk(s, t, env, st, m);
    }
  }

  lemma SweepView(s: State, m: NodeId)
    ensures SameView(s, s.(stored := Sweep(s.stored)), m)
  {
  }

  lemma SweepReleases(s: State, faults: multiset<NodeId>)
    requires AllReleaseOk(s, faults)
    ensures AllReleaseOk(s.(stored := Sweep(s.stored)), faults)
  {
    forall m ensures ReleaseOk(s.(stored := Sweep(s.stored)), m, faults[m]) { assert ReleaseOk(s, m, faults[m]); }
  }

  lemma LeaveAttempt(s: State, faults: multiset<NodeId>)
    requires AllReleaseOk(s, faults)
    ensures PaidOnce(s.releases, s.stored, faults)
  {
    forall n ensures faults[n] <= s.releases[n] <= faults[n] + 1
                     && (s.releases[n] == faults[n] + 1 ==> n in s.stored && s.stored[n] == Completed) {
      assert ReleaseOk(s, n, faults[n]);
    }
  }

  function Faults(e: Event): multiset<NodeId> {
    if e.InAttempt? then FaultOf(e.step) else multiset{}
  }

  /** How often each node failed after its release in this history. */
  function FaultsIn(events: seq<Event>): multiset<NodeId> {
    if events == [] then multiset{} else Faults(events[0]) + FaultsIn(events[1..])
  }

  lemma EventKeepsWorld(w: World, throws: bool, e: Event, faults: multiset<NodeId>)
    requires WorldOk(w, throws, faults) && Possible(w, throws, e)
    ensures WorldOk(Next(w, e), throws, faults + Faults(e))
  {
    var st := StartOf(w.dag, w.begun);
    var env := Env(w.succeeds, throws);
    hide Core, AllReleaseOk, PaidOnce, Begin, Apply, StartOf, FaultOf;
    assert faults + multiset{} == faults;
    match e
    case StartAttempt(_, _, _) => StartKeepsWorld(w, throws, e, faults);
    case InAttempt(step) =>
      StepKeepsCore(w.run.value, env, st, step);
      StepKeepsReleases(w.run.value, env, st, step, faults);
      StoredStep(w.run.value, env, st, step);
    case EndAttempt => LeaveAttempt(w.run.value, faults);
    case Crash => LeaveAttempt(w.run.value, faults);
    case ShutdownSweep =>
      if w.run.Some? {
        SweepCore(w.run.value, env, st);
        SweepReleases(w.run.value, faults);
      } else {
        SweepPaid(w.paid, w.saved, faults);
      }
  }

  lemma SweepPaid(paid: multiset<NodeId>, saved: map<NodeId, Status>, faults: multiset<NodeId>)
    requires PaidOnce(paid, saved, faults)
    ensures PaidOnce(paid, Sweep(saved), faults)
  {
  }

  lemma {:induction false} HistoryKeepsWorld(w: World, throws: bool, events: seq<Event>, faults: multiset<NodeId>)
    requires WorldOk(w, throws, faults) && IsHistory(w, throws, events)
    ensures WorldOk(End(w, events), throws, faults + FaultsIn(events))
    decreases |events|
  {
    hide WorldOk, Possible, Next, Faults;
    if events == [] {
      assert faults + multiset{} == faults;
    } else {
      EventKeepsWorld(w, throws, events[0], faults);
      HistoryKeepsWorld(Next(w, events[0]), throws, events[1..], faults + Faults(events[0]));
      assert faults + Faults(events[0]) + FaultsIn(events[1..]) == faults + FaultsIn(events);
    }
  }

  lemma PaidByWorld(w: World, throws: bool, n: NodeId, faults: multiset<NodeId>)
    requires WorldOk(w, throws, faults)
    ensures faults[n] <= Releases(w)[n] <= faults[n] + 1
  {
    if w.run.Some? { assert ReleaseOk(w.run.value, n, faults[n]); }
  }

  /** Whatever may throw: the releases of a node are its faults after release, or one more. */
  lemma ReleasesAreFaults(dag: Dag, throws: bool, events: seq<Event>, n: NodeId)
    requires dag.Valid() && IsHistory(NewTask(dag), throws, events)
    ensures FaultsIn(events)[n] <= Releases(End(NewTask(dag), events))[n] <= FaultsIn(events)[n] + 1
  {
    assert WorldOk(NewTask(dag), throws, multiset{});
    HistoryKeepsWorld(NewTask(dag), throws, events, multiset{});
    assert multiset{} + FaultsIn(events) == FaultsIn(events);
    PaidByWorld(End(NewTask(dag), events), throws, n, FaultsIn(events));
  }

  lemma {:induction false} FaultlessIff(events: seq<Event>, n: NodeId)
    ensures n in FaultsIn(events) <==> InAttempt(FaultAfterRelease(n)) in events
  {
    if events != [] {
      FaultlessIff(events[1..], n);
      assert events == [events[0]] + events[1..];
    }
  }

  /** A node without a fault of its own is released at most once, whatever throws elsewhere. */
  lemma ReleasedAtMostOnce(dag: Dag, throws: bool, events: seq<Event>, n: NodeId)
    requires dag.Valid() && IsHistory(NewTask(dag), throws, events)
    requires InAttempt(FaultAfterRelease(n)) !in events
    ensures Releases(End(NewTask(dag), events))[n] <= 1
  {
    FaultlessIff(events, n);
    ReleasesAreFaults(dag, throws, events, n);
  }

  // ------------------------------------------------------------------ the failing family

  function LoneDag(a: NodeId): Dag { Dag([a], map[a := []]) }

  /** An attempt in which the lone node's work succeeds and its release is called. */
  function PayingSteps(a: NodeId): seq<Event> {
    [InAttempt(Complete(a, None)), InAttempt(CallRelease(a))]
  }

  /** An exception after the release fails the node, and the attempt ends as failed. */
  function FailingSteps(a: NodeId): seq<Event> {
    [InAttempt(FaultAfterRelease(a)), InAttempt(Record(a)), InAttempt(Drain(a)), EndAttempt]
  }

  function PaidAttempt(a: NodeId): seq<Event> { [StartAttempt(1, map[], {})] + PayingSteps(a) }

  /** A pending lone node is started at once. */
  lemma LoneBegin(a: NodeId, paid: multiset<NodeId>)
    ensures var s := Begin(LoneDag(a), 1, map[a := Pending], map[], paid);
            && s.phase == map[a := Dispatching] && s.status == map[a := Running] && s.dag == LoneDag(a)
            && s.stored == map[a := Running] && s.completed == {} && s.failed == {} && s.scheduled == {a}
            && s.inFlight == 1 && s.releases == paid && !s.settled && s.queue == []
  {
    var f := Fresh(LoneDag(a), 1, map[a := Pending], map[], paid);
    assert f.completed == {};
    assert DepsOf(f, a) == [];
    assert Ready(f, a);
    var t := Submit(f, a);
    assert ScheduleFrom(f, 0) == ScheduleFrom(t, 1) == t;
  }

  /** Draining the failed lone node settles the run. */
  lemma LoneDrain(a: NodeId, s: State)
    requires s.dag == LoneDag(a) && s.phase == map[a := Recorded] && s.status == map[a := Failed]
    requires s.completed == {} && s.failed == {a} && s.scheduled == {a} && s.inFlight == 1 && !s.settled
    ensures var t := DrainNode(s, a); t.settled && t.stored == s.status && t.releases == s.releases
  {
    var t := Leave(s, a);
    forall n ensures StatusOf(t, n) != Some(Pending) { }
    PassesIdle(t, true, 0);
    hide FinishIfSettled;
    assert t.phase == map[];
    LoneFinish(a, t);
    var u := FinishIfSettled(t);
    assert ScheduleReadyNodes(t) == u;
    PassesIdle(u, false, 0);
    LoneFinish(a, u);
  }

  lemma LoneFinish(a: NodeId, s: State)
    requires s.dag == LoneDag(a) && s.completed == {} && s.failed == {a} && s.status == map[a := Failed]
    ensures var u := FinishIfSettled(s);
            && u.settled && u.releases == s.releases && u.dag == s.dag && u.status == s.status
            && u.completed == s.completed && u.failed == s.failed
            && (!s.settled ==> u.stored == s.status) && (s.settled ==> u == s)
  {
    assert |s.dag.order| == 1;
  }

  lemma {:induction false} HistoryJoin(w: World, throws: bool, a: seq<Event>, b: seq<Event>)
    requires IsHistory(w, throws, a) && IsHistory(End(w, a), throws, b)
    ensures IsHistory(w, throws, a + b) && End(w, a + b) == End(End(w, a), b)
    decreases |a|
  {
    hide Possible, Next;
    if a == [] {
      assert a + b == b;
    } else {
      HistoryJoin(Next(w, a[0]), throws, a[1..], b);
      assert (a + b)[1..] == a[1..] + b;
    }
  }

  lemma OneEvent(w: World, throws: bool, e: Event)
    requires Possible(w, throws, e)
    ensures IsHistory(w, throws, [e]) && End(w, [e]) == Next(w, e)
  {
    hide Possible, Next;
    assert [e][1..] == [];
    assert End(Next(w, e), []) == Next(w, e);
  }

  ghost predicate LoneAt(a: NodeId, w: World, p: Phase, status: Status, paid: multiset<NodeId>) {
    && w.dag == LoneDag(a) && w.succeeds == {} && w.run.Some?
    && var s := w.run.value;
       && s.dag == LoneDag(a) && s.phase == map[a := p] && s.status == map[a := status]
       && s.completed == {} && s.scheduled == {a} && s.inFlight == 1 && !s.settled
       && s.failed == (if p == Recorded then {a} else {}) && s.releases == paid
  }

  lemma LoneStart(a: NodeId, w: World)
    requires w.dag == LoneDag(a) && w.run.None? && w.saved in {map[a := Pending], map[a := Failed]}
    ensures var e := StartAttempt(1, map[], {});
            Possible(w, true, e) && LoneAt(a, Next(w, e), Dispatching, Running, w.paid)
  {
    hide Begin;
    assert ResetFailed(w.saved) == map[a := Pending];
    LoneBegin(a, w.paid);
  }

  lemma LoneComplete(a: NodeId, w: World, paid: multiset<NodeId>)
    requires LoneAt(a, w, Dispatching, Running, paid)
    ensures var e := InAttempt(Complete(a, None));
            Possible(w, true, e) && LoneAt(a, Next(w, e), DagModel.Stored, Completed, paid)
  {
    var s := w.run.value;
    var t := Apply(s, Complete(a, None));
    CompleteIs(s, a);
    LoneStep(a, w, Complete(a, None), t);
    hide Apply, Enabled, Next, Possible, LoneDag;
  }

  lemma CompleteIs(s: State, a: NodeId)
    requires s.phase == map[a := Dispatching] && s.status == map[a := Running]
    ensures Enabled(s, Env({}, true), Complete(a, None))
    ensures var t := Apply(s, Complete(a, None));
            && t == s.(phase := map[a := DagModel.Stored], status := map[a := Completed], stored := t.stored, results := t.results)
  {
  }

  lemma LoneCall(a: NodeId, w: World, paid: multiset<NodeId>)
    requires LoneAt(a, w, DagModel.Stored, Completed, paid)
    ensures var e := InAttempt(CallRelease(a));
            Possible(w, true, e) && LoneAt(a, Next(w, e), Paying, Completed, paid + multiset{a})
  {
  }

  lemma LoneFault(a: NodeId, w: World, paid: multiset<NodeId>)
    requires LoneAt(a, w, Paying, Completed, paid)
    ensures var e := InAttempt(FaultAfterRelease(a));
            Possible(w, true, e) && LoneAt(a, Next(w, e), Returned(false), Failed, paid)
  {
    var s := w.run.value;
    var t := Apply(s, FaultAfterRelease(a));
    FaultIs(s, a);
    LoneStep(a, w, FaultAfterRelease(a), t);
    hide Apply, Enabled, Next, Possible, LoneDag;
  }

  lemma FaultIs(s: State, a: NodeId)
    requires s.phase == map[a := Paying] && s.status == map[a := Completed]
    ensures Enabled(s, Env({}, true), FaultAfterRelease(a))
    ensures var t := Apply(s, FaultAfterRelease(a));
            t == s.(phase := map[a := Returned(false)], status := map[a := Failed], stored := t.stored)
  {
  }

  /** One step of the lone attempt that stays within `runNode`. */
  lemma LoneStep(a: NodeId, w: World, step: Step, t: State)
    requires w.dag == LoneDag(a) && w.succeeds == {} && w.run.Some?
    requires Enabled(w.run.value, Env({}, true), step) && Apply(w.run.value, step) == t
    ensures Possible(w, true, InAttempt(step)) && Next(w, InAttempt(step)) == w.(run := Some(t))
  {
    hide Enabled, Apply;
  }

  lemma LoneRecord(a: NodeId, w: World, paid: multiset<NodeId>)
    requires LoneAt(a, w, Returned(false), Failed, paid)
    ensures var e := InAttempt(Record(a));
            Possible(w, true, e) && LoneAt(a, Next(w, e), Recorded, Failed, paid)
  {
    var s := w.run.value;
    RecordFails(s, a);
    LoneStep(a, w, Record(a), s.(failed := {a}, phase := map[a := Recorded]));
    hide Apply, Enabled, Next, Possible, LoneDag;
  }

  lemma RecordFails(s: State, a: NodeId)
    requires s.phase == map[a := Returned(false)] && s.failed == {}
    ensures Enabled(s, Env({}, true), Record(a))
    ensures Apply(s, Record(a)) == s.(failed := {a}, phase := map[a := Recorded])
  {
  }

  lemma LoneSettle(a: NodeId, w: World, paid: multiset<NodeId>)
    requires LoneAt(a, w, Recorded, Failed, paid)
    ensures var e := InAttempt(Drain(a));
            && Possible(w, true, e) && Next(w, e).dag == LoneDag(a) && Next(w, e).run.Some?
            && var s := Next(w, e).run.value; s.settled && s.stored == map[a := Failed] && s.releases == paid
  {
    LoneDrain(a, w.run.value);
    hide DrainNode;
  }

  lemma LonePays(a: NodeId, w: World, paid: multiset<NodeId>)
    requires LoneAt(a, w, Dispatching, Running, paid)
    ensures IsHistory(w, true, PayingSteps(a))
    ensures LoneAt(a, End(w, PayingSteps(a)), Paying, Completed, paid + multiset{a})
  {
    hide Next, Possible, LoneAt, IsHistory, End;
    var e1, e2 := PayingSteps(a)[0], PayingSteps(a)[1];
    LoneComplete(a, w, paid);
    OneEvent(w, true, e1);
    LoneCall(a, Next(w, e1), paid);
    OneEvent(Next(w, e1), true, e2);
    HistoryJoin(w, true, [e1], [e2]);
    assert PayingSteps(a) == [e1] + [e2];
  }

  lemma LoneFails(a: NodeId, w: World, paid: multiset<NodeId>)
    requires LoneAt(a, w, Paying, Completed, paid)
    ensures IsHistory(w, true, FailingSteps(a))
    ensures var t := End(w, FailingSteps(a));
            t.dag == LoneDag(a) && t.run.None? && t.saved == map[a := Failed] && t.paid == paid
  {
    hide LoneAt, IsHistory, End, Apply;
    var e := FailingSteps(a);
    LoneFault(a, w, paid);
    OneEvent(w, true, e[0]);
    var w1 := Next(w, e[0]);
    LoneRecord(a, w1, paid);
    OneEvent(w1, true, e[1]);
    var w2 := Next(w1, e[1]);
    LoneSettle(a, w2, paid);
    OneEvent(w2, true, e[2]);
    var w3 := Next(w2, e[2]);
    OneEvent(w3, true, e[3]);
    LoneJoin(w, e, w1, w2, w3);
  }

  lemma LoneJoin(w: World, e: seq<Event>, w1: World, w2: World, w3: World)
    requires |e| == 4
    requires IsHistory(w, true, [e[0]]) && End(w, [e[0]]) == w1
    requires IsHistory(w1, true, [e[1]]) && End(w1, [e[1]]) == w2
    requires IsHistory(w2, true, [e[2]]) && End(w2, [e[2]]) == w3
    requires IsHistory(w3, true, [e[3]])
    ensures IsHistory(w, true, e) && End(w, e) == End(w3, [e[3]])
  {
    hide IsHistory, End;
    HistoryJoin(w, true, [e[0]], [e[1]]);
    HistoryJoin(w, true, [e[0]] + [e[1]], [e[2]]);
    HistoryJoin(w, true, [e[0]] + [e[1]] + [e[2]], [e[3]]);
    assert e == [e[0]] + [e[1]] + [e[2]] + [e[3]];
  }

  lemma LoneAttempt(a: NodeId, w: World)
    requires w.dag == LoneDag(a) && w.run.None? && w.saved in {map[a := Pending], map[a := Failed]}
    ensures IsHistory(w, true, PaidAttempt(a))
    ensures LoneAt(a, End(w, PaidAttempt(a)), Paying, Completed, w.paid + multiset{a})
  {
    hide IsHistory, End, Next, Possible, LoneAt, PayingSteps;
    var start := StartAttempt(1, map[], {});
    LoneStart(a, w);
    OneEvent(w, true, start);
    LonePays(a, Next(w, start), w.paid);
    HistoryJoin(w, true, [start], PayingSteps(a));
  }

  lemma LonePaid(a: NodeId, w: World, paid: multiset<NodeId>)
    requires LoneAt(a, w, Paying, Completed, paid)
    ensures Releases(w) == paid
  {
  }

  /** An attempt that pays and then fails, `k` times over. */
  function Failures(a: NodeId, k: nat): seq<Event> {
    if k == 0 then [] else PaidAttempt(a) + FailingSteps(a) + Failures(a, k - 1)
  }

  lemma {:induction false} FaultsJoin(x: seq<Event>, y: seq<Event>, n: NodeId)
    ensures FaultsIn(x + y)[n] == FaultsIn(x)[n] + FaultsIn(y)[n]
  {
    hide Faults;
    if x == [] {
      assert x + y == y;
    } else {
      FaultsJoin(x[1..], y, n);
      assert (x + y)[1..] == x[1..] + y;
    }
  }

  lemma LoneFaults(a: NodeId, n: NodeId)
    ensures FaultsIn(PaidAttempt(a))[n] == 0 && FaultsIn(FailingSteps(a))[n] == if n == a then 1 else 0
  {
    var e := FailingSteps(a);
    assert FaultsIn(e[3..])[n] == 0;
    assert e[2..][1..] == e[3..] && FaultsIn(e[2..])[n] == 0;
    assert e[1..][1..] == e[2..] && FaultsIn(e[1..])[n] == 0;
    var f := PaidAttempt(a);
    assert FaultsIn(f[2..])[n] == 0;
    assert f[1..][1..] == f[2..] && FaultsIn(f[1..])[n] == 0;
  }

  lemma {:induction false} FailuresFault(a: NodeId, k: nat, n: NodeId)
    ensures FaultsIn(Failures(a, k))[n] == if n == a then k else 0
  {
    hide PaidAttempt, FailingSteps;
    if k > 0 {
      hide FaultsIn;
      LoneFaults(a, n);
      FaultsJoin(PaidAttempt(a), FailingSteps(a), n);
      FaultsJoin(PaidAttempt(a) + FailingSteps(a), Failures(a, k - 1), n);
      FailuresFault(a, k - 1, n);
    }
  }

  lemma {:induction false} LoneFailures(a: NodeId, w: World, k: nat)
    requires w.dag == LoneDag(a) && w.run.None? && w.saved in {map[a := Pending], map[a := Failed]}
    ensures IsHistory(w, true, Failures(a, k))
    ensures var t := End(w, Failures(a, k));
            && t.dag == LoneDag(a) && t.run.None? && t.saved in {map[a := Pending], map[a := Failed]}
            && t.paid[a] == w.paid[a] + k
    decreases k
  {
    hide LoneAt, PayingSteps, FailingSteps, Next;
    if k > 0 {
      hide IsHistory, End;
      var e := PaidAttempt(a);
      LoneAttempt(a, w);
      LoneFails(a, End(w, e), w.paid + multiset{a});
      HistoryJoin(w, true, e, FailingSteps(a));
      LoneFailures(a, End(w, e + FailingSteps(a)), k - 1);
      HistoryJoin(w, true, e + FailingSteps(a), Failures(a, k - 1));
    }
  }

  lemma FailuresRelease(a: NodeId, k: nat)
    ensures var w := NewTask(LoneDag(a));
            IsHistory(w, true, Failures(a, k)) && Releases(End(w, Failures(a, k)))[a] == k
  {
    hide IsHistory, End, Failures;
    var w := NewTask(LoneDag(a));
    assert w.saved == map[a := Pending];
    LoneFailures(a, w, k);
  }

  function Repays(a: NodeId, k: nat): seq<Event> { Failures(a, k) + PaidAttempt(a) }

  /** Both ends of the bound are met: `k` faults with `k` releases, and with one more attempt `k + 1`. */
  lemma ReleasedAgain(a: NodeId, k: nat)
    ensures LoneDag(a).Valid()
    ensures var w := NewTask(LoneDag(a));
            && IsHistory(w, true, Failures(a, k)) && Releases(End(w, Failures(a, k)))[a] == k
            && IsHistory(w, true, Repays(a, k)) && Releases(End(w, Repays(a, k)))[a] == k + 1
    ensures forall n :: FaultsIn(Failures(a, k))[n] == FaultsIn(Repays(a, k))[n] == if n == a then k else 0
  {
    FailuresRelease(a, k);
    hide IsHistory, End, LoneAt, PaidAttempt, Releases, Failures, FaultsIn;
    var w := NewTask(LoneDag(a));
    assert w.saved == map[a := Pending];
    LoneFailures(a, w, k);
    var t := End(w, Failures(a, k));
    LoneAttempt(a, t);
    HistoryJoin(w, true, Failures(a, k), PaidAttempt(a));
    LonePaid(a, End(t, PaidAttempt(a)), t.paid + multiset{a});
    forall n ensures FaultsIn(Failures(a, k))[n] == FaultsIn(Repays(a, k))[n] == if n == a then k else 0 {
      FailuresFault(a, k, n);
      LoneFaults(a, n);
      FaultsJoin(Failures(a, k), PaidAttempt(a), n);
    }
  }

  /** `n` is released at most once in every history, over every DAG, that faults only nodes of `faulty`. */
  ghost predicate AtMostOneRelease(faulty: set<NodeId>, n: NodeId) {
    forall dag: Dag, events: seq<Event> ::
      dag.Valid() && IsHistory(NewTask(dag), true, events) && FaultsOnly(events, faulty)
      ==> Releases(End(NewTask(dag), events))[n] <= 1
  }

  ghost predicate FaultsOnly(events: seq<Event>, faulty: set<NodeId>) {
    forall m :: m in FaultsIn(events) ==> m in faulty
  }

  /** Only a node's own exceptions between its release and runNode's return repeat its release. */
  lemma AtMostOnceIff(faulty: set<NodeId>, n: NodeId)
    ensures AtMostOneRelease(faulty, n) <==> n !in faulty
  {
    hide IsHistory, End, Repays, FaultsIn, Releases;
    if n in faulty {
      ReleasedAgain(n, 1);
      assert FaultsOnly(Repays(n, 1), faulty);
      assert !AtMostOneRelease(faulty, n);
    } else {
      forall dag: Dag, events: seq<Event> |
        dag.Valid() && IsHistory(NewTask(dag), true, events) && FaultsOnly(events, faulty)
        ensures Releases(End(NewTask(dag), events))[n] <= 1
      {
        ReleasesAreFaults(dag, true, events, n);
        assert n !in FaultsIn(events);
      }
    }
  }

  // ------------------------------------------------------------------ retries

  /** A retry can settle exactly when no node was left stored as running. */
  lemma RetrySettlesIff(dag: Dag, stored: map<NodeId, Status>, limit: nat, results: map<NodeId, string>,
                        paid: multiset<NodeId>, env: Env)
    requires dag.Valid() && stored.Keys == dag.deps.Keys && limit >= 1
    ensures (exists steps :: IsRun(Begin(dag, limit, ResetFailed(stored), results, paid), env, steps)
                             && After(Begin(dag, limit, ResetFailed(stored), results, paid), steps).settled)
            <==> forall n :: n in stored ==> stored[n] != Running
  {
    hide Begin, IsRun, After;
    var status := ResetFailed(stored);
    assert status.Keys == dag.Ids();
    SettlesIffFresh(dag, limit, status, results, paid, env);
    if FreshStart(dag, limit, status) {
      forall n | n in stored ensures stored[n] != Running {
        assert status[n] in {Pending, Completed};
      }
    }
  }

  /** An attempt starts the lone node and the process dies. */
  function StrandingSteps(): seq<Event> { [StartAttempt(1, map[], {}), Crash] }

  lemma StrandedWorld(a: NodeId)
    ensures IsHistory(NewTask(LoneDag(a)), true, StrandingSteps())
    ensures End(NewTask(LoneDag(a)), StrandingSteps()).saved == map[a := Running]
    ensures End(NewTask(LoneDag(a)), StrandingSteps()).run.None?
  {
    hide Begin;
    var w := NewTask(LoneDag(a));
    assert w.saved == map[a := Pending] && ResetFailed(w.saved) == map[a := Pending];
    LoneBegin(a, multiset{});
    var w1 := Next(w, StrandingSteps()[0]);
    OneEvent(w, true, StrandingSteps()[0]);
    OneEvent(w1, true, Crash);
    hide Next, Possible;
    HistoryJoin(w, true, [StrandingSteps()[0]], [Crash]);
    assert StrandingSteps() == [StrandingSteps()[0]] + [Crash];
  }

  /** From a new task, a crash while a node runs leaves every later attempt unable to settle. */
  lemma CrashStrands(a: NodeId, limit: nat, results: map<NodeId, string>, env: Env, steps: seq<Step>)
    requires limit >= 1
    requires var w := End(NewTask(LoneDag(a)), StrandingSteps());
             IsRun(Begin(LoneDag(a), limit, ResetFailed(w.saved), results, w.paid), env, steps)
    ensures IsHistory(NewTask(LoneDag(a)), true, StrandingSteps())
    ensures var w := End(NewTask(LoneDag(a)), StrandingSteps());
            !After(Begin(LoneDag(a), limit, ResetFailed(w.saved), results, w.paid), steps).settled
  {
    hide Begin, IsRun, After, End, IsHistory, ResetFailed;
    StrandedWorld(a);
    var w := End(NewTask(LoneDag(a)), StrandingSteps());
    assert w.saved[a] == Running;
    RetrySettlesIff(LoneDag(a), w.saved, limit, results, w.paid, env);
  }

  /** The sweep rewrites the stored DAG, during an attempt or between two, and touches no release. */
  lemma SweepStores(w: World)
    ensures var v := Next(w, ShutdownSweep);
            && Stored(v) == (map n | n in Stored(w) :: if Stored(w)[n] == Completed then Completed else Failed)
            && Releases(v) == Releases(w) && v.dag == w.dag && (v.run.Some? <==> w.run.Some?)
            && (w.run.Some? ==> v.run.value.status == w.run.value.status && v.run.value.phase == w.run.value.phase)
  {
  }

  /** The shutdown sweep leaves a task that a retry can settle, whatever was running; completed nodes stay. */
  lemma SweepUnstrands(dag: Dag, stored: map<NodeId, Status>, limit: nat, results: map<NodeId, string>,
                       paid: multiset<NodeId>, env: Env)
    requires dag.Valid() && stored.Keys == dag.deps.Keys && limit >= 1
    ensures Sweep(stored) == map n | n in stored :: if stored[n] == Completed then Completed else Failed
    ensures exists steps :: IsRun(Begin(dag, limit, ResetFailed(Sweep(stored)), results, paid), env, steps)
                            && After(Begin(dag, limit, ResetFailed(Sweep(stored)), results, paid), steps).settled
  {
    hide Begin, IsRun, After, ResetFailed;
    var swept := Sweep(stored);
    assert swept.Keys == dag.deps.Keys;
    RetrySettlesIff(dag, swept, limit, results, paid, env);
  }
}
