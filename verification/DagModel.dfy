/**
 * One abort-free run of the DAG executor as a step machine. A step is one stretch of code
 * that runs without yielding to the event loop.
 *
 * The DAG's node array is `order` (array order) plus `deps` (dependencies of each id).
 */
module DagModel {
  import opened Common

  type NodeId = string

  datatype Dag = Dag(order: seq<NodeId>, deps: map<NodeId, seq<NodeId>>) {
    function Ids(): set<NodeId> { Elems(order) }

    ghost predicate Valid() {
      NoDup(order) && deps.Keys == Ids()
    }
  }

  datatype Status = Pending | Running | Completed | Failed

  /** Where a scheduled node is. A node leaves the map when its drain has run. */
  datatype Phase =
    | Queued                // waiting in the concurrency limiter
    | Dispatching           // runNode started, agent call outstanding
    | Stored                // completion written, release not yet called
    | Paying                // release called
    | Returned(ok: bool)    // runNode's promise settled
    | Recorded              // entered in the completed or failed set, drain outstanding

  datatype TaskStatus = TaskCompleted | TaskFailed | TaskPaymentFailed

  /** What the run does not decide: which nodes come back 'completed', and whether
      something can still throw after a release has gone through. */
  datatype Env = Env(succeeds: set<NodeId>, throwsAfterRelease: bool)

  datatype State = State(
    dag: Dag,
    limit: nat,
    status: map<NodeId, Status>,
    stored: map<NodeId, Status>,            // status of each node in the task's stored DAG
    results: map<NodeId, string>,           // a missing key is an undefined result
    contexts: map<NodeId, seq<string>>,     // upstream results handed to each started node
    completed: set<NodeId>,
    failed: set<NodeId>,
    scheduled: set<NodeId>,
    inFlight: int,
    active: int,
    queue: seq<NodeId>,
    phase: map<NodeId, Phase>,
    slots: set<NodeId>,                     // nodes whose limiter slot is not yet given back
    submitted: seq<NodeId>,                 // log: order of arrival at the limiter
    started: seq<NodeId>,                   // log: order of start
    releases: multiset<NodeId>,             // log: calls to the payment release
    paymentFaults: set<NodeId>,             // log: nodes whose release call failed
    paymentFailed: bool,
    settled: bool,
    emitted: seq<TaskStatus>)               // log: final statuses written at settlement

  // ------------------------------------------------------------------ building blocks

  /** The defined results of the dependencies, in dependency order. */
  function ContextOf(deps: seq<NodeId>, results: map<NodeId, string>): seq<string> {
    if deps == [] then []
    else (if deps[0] in results then [results[deps[0]]] else []) + ContextOf(deps[1..], results)
  }

  /** One entry for each dependency that has a result, in dependency order, and no other: the entry of
      dependency `i` stands after those of the dependencies before it. */
  ghost predicate Delivers(deps: seq<NodeId>, results: map<NodeId, string>, parts: seq<string>) {
    && |parts| == |set i | 0 <= i < |deps| && deps[i] in results|
    && (forall i :: 0 <= i < |deps| && deps[i] in results ==>
          var place := |set j | 0 <= j < i && deps[j] in results|;
          place < |parts| && parts[place] == results[deps[i]])
    && ((forall i :: 0 <= i < |deps| ==> deps[i] in results) ==>
          |parts| == |deps| && forall i :: 0 <= i < |deps| ==> parts[i] == results[deps[i]])
  }

  function StatusOf(s: State, n: NodeId): Option<Status> {
    if n in s.status then Some(s.status[n]) else None
  }

  function DepsOf(s: State, n: NodeId): seq<NodeId> {
    if n in s.dag.deps then s.dag.deps[n] else []
  }

  predicate DepsIn(s: State, n: NodeId, x: set<NodeId>) {
    forall d :: d in DepsOf(s, n) ==> d in x
  }

  predicate Ready(s: State, n: NodeId) {
    StatusOf(s, n) == Some(Pending) && n !in s.scheduled && DepsIn(s, n, s.completed)
  }

  /** The synchronous prefix of runNode, run by the limiter when it hands out a slot. */
  function StartNode(s: State, n: NodeId): State {
    s.(active := s.active + 1,
       slots := s.slots + {n},
       phase := s.phase[n := Dispatching],
       status := s.status[n := Running],
       stored := s.stored[n := Running],
       contexts := s.contexts[n := ContextOf(DepsOf(s, n), s.results)],
       started := s.started + [n])
  }

  function Arrive(s: State, n: NodeId): State {
    s.(scheduled := s.scheduled + {n}, inFlight := s.inFlight + 1, submitted := s.submitted + [n])
  }

  function Enqueue(s: State, n: NodeId): State {
    s.(queue := s.queue + [n], phase := s.phase[n := Queued])
  }

  /** Mark a ready node scheduled and hand it to the concurrency limiter. */
  function Submit(s: State, n: NodeId): State {
    if s.active < s.limit then StartNode(Arrive(s, n), n) else Enqueue(Arrive(s, n), n)
  }

  function ScheduleFrom(s: State, i: nat): State
    decreases |s.dag.order| - i
  {
    if i >= |s.dag.order| then s
    else if Ready(s, s.dag.order[i]) then ScheduleFrom(Submit(s, s.dag.order[i]), i + 1)
    else ScheduleFrom(s, i + 1)
  }

  predicate Blocked(s: State, n: NodeId, includeDeadlocked: bool) {
    || (exists d :: d in DepsOf(s, n) && d in s.failed)
    || (exists d :: d in DepsOf(s, n) && d !in s.dag.Ids())
    || (includeDeadlocked && s.inFlight == 0 && !DepsIn(s, n, s.completed))
  }

  function FailNode(s: State, n: NodeId): State {
    s.(status := s.status[n := Failed], stored := s.stored[n := Failed], failed := s.failed + {n})
  }

  function FailFrom(s: State, includeDeadlocked: bool, i: nat): State
    decreases |s.dag.order| - i
  {
    if i >= |s.dag.order| then s
    else if StatusOf(s, s.dag.order[i]) == Some(Pending) && Blocked(s, s.dag.order[i], includeDeadlocked) then
      FailFrom(FailNode(s, s.dag.order[i]), includeDeadlocked, i + 1)
    else FailFrom(s, includeDeadlocked, i + 1)
  }

  function Verdict(s: State): TaskStatus {
    if s.failed != {} then TaskFailed
    else if s.paymentFailed then TaskPaymentFailed
    else TaskCompleted
  }

  function FinishIfSettled(s: State): State {
    if s.settled || |s.completed| + |s.failed| != |s.dag.order| then s
    else s.(settled := true, stored := s.status, emitted := s.emitted + [Verdict(s)], paymentFailed := false)
  }

  function ScheduleReadyNodes(s: State): State {
    var t := ScheduleFrom(s, 0);
    if |t.submitted| == |s.submitted| && t.inFlight == 0 then FinishIfSettled(FailFrom(t, true, 0))
    else t
  }

  /** The run up to the point where it first waits. */
  function Fresh(dag: Dag, limit: nat, status: map<NodeId, Status>,
                 results: map<NodeId, string>, releases: multiset<NodeId>): State {
    var done := set n | n in dag.Ids() && n in status && status[n] == Completed;
    State(dag, limit, status, status, results, map[], done, {}, done, 0, 0, [], map[], {}, [], [],
          releases, {}, false, false, [])
  }

  function Begin(dag: Dag, limit: nat, status: map<NodeId, Status>,
                 results: map<NodeId, string>, releases: multiset<NodeId>): State {
    ScheduleReadyNodes(Fresh(dag, limit, status, results, releases))
  }

  // ------------------------------------------------------------------ steps

  datatype Step =
    | Complete(n: NodeId, result: Option<string>)  // agent answered: completion and result written
    | DispatchFails(n: NodeId)                     // caught error or budget refusal
    | Throws(n: NodeId)                            // runNode rejects without touching the node
    | FaultBeforeRelease(n: NodeId)                // exception after the completion was written
    | CallRelease(n: NodeId)
    | Released(n: NodeId)
    | ReleaseFails(n: NodeId)
    | FaultAfterRelease(n: NodeId)                 // exception after the release went through
    | Record(n: NodeId)
    | FreeSlot(n: NodeId)
    | Drain(n: NodeId)

  predicate At(s: State, n: NodeId, p: Phase) {
    n in s.phase && s.phase[n] == p
  }

  predicate Enabled(s: State, env: Env, step: Step) {
    match step
    case Complete(n, _) => At(s, n, Dispatching)
    case DispatchFails(n) => At(s, n, Dispatching) && n !in env.succeeds
    case Throws(n) => At(s, n, Dispatching) && n !in env.succeeds
    case FaultBeforeRelease(n) => At(s, n, Stored) && n !in env.succeeds
    case CallRelease(n) => At(s, n, Stored) && (n in env.succeeds || env.throwsAfterRelease)
    case Released(n) => At(s, n, Paying) && n in env.succeeds
    case ReleaseFails(n) => At(s, n, Paying) && n in env.succeeds
    case FaultAfterRelease(n) => At(s, n, Paying) && n !in env.succeeds && env.throwsAfterRelease
    case Record(n) => n in s.phase && s.phase[n].Returned?
    case FreeSlot(n) => n in s.slots && (n in s.phase ==> s.phase[n].Returned? || s.phase[n].Recorded?)
    case Drain(n) => At(s, n, Recorded)
  }

  function SetResult(results: map<NodeId, string>, n: NodeId, r: Option<string>): map<NodeId, string> {
    if r.Some? then results[n := r.value] else results - {n}
  }

  function FailInRun(s: State, n: NodeId): State {
    s.(status := s.status[n := Failed], stored := s.stored[n := Failed], phase := s.phase[n := Returned(false)])
  }

  function RecordNode(s: State, n: NodeId, ok: bool): State {
    if ok then s.(completed := s.completed + {n}, phase := s.phase[n := Recorded])
    else s.(failed := s.failed + {n}, phase := s.phase[n := Recorded])
  }

  function GiveBack(s: State, n: NodeId): State {
    s.(active := s.active - 1, slots := s.slots - {n})
  }

  function FreeSlotOf(s: State, n: NodeId): State {
    if s.queue == [] then GiveBack(s, n)
    else StartNode(GiveBack(s, n).(queue := s.queue[1..]), s.queue[0])
  }

  function DrainNode(s: State, n: NodeId): State {
    var t := s.(inFlight := s.inFlight - 1, phase := s.phase - {n});
    FinishIfSettled(FailFrom(ScheduleReadyNodes(t), false, 0))
  }

  function Apply(s: State, step: Step): State {
    match step
    case Complete(n, r) =>
      s.(status := s.status[n := Completed], stored := s.stored[n := Completed],
         results := SetResult(s.results, n, r), phase := s.phase[n := Stored])
    case DispatchFails(n) => FailInRun(s, n)
    case Throws(n) => s.(phase := s.phase[n := Returned(false)])
    case FaultBeforeRelease(n) => FailInRun(s, n)
    case CallRelease(n) => s.(releases := s.releases + multiset{n}, phase := s.phase[n := Paying])
    case Released(n) => s.(phase := s.phase[n := Returned(true)])
    case ReleaseFails(n) => s.(paymentFailed := true, paymentFaults := s.paymentFaults + {n}, phase := s.phase[n := Returned(true)])
    case FaultAfterRelease(n) => FailInRun(s, n)
    case Record(n) => RecordNode(s, n, At(s, n, Returned(true)))
    case FreeSlot(n) => FreeSlotOf(s, n)
    case Drain(n) => DrainNode(s, n)
  }

  /** A finite run: every step is enabled where it is taken. */
  predicate IsRun(s: State, env: Env, steps: seq<Step>)
    decreases |steps|
  {
    steps == [] || (Enabled(s, env, steps[0]) && IsRun(Apply(s, steps[0]), env, steps[1..]))
  }

  function After(s: State, steps: seq<Step>): State
    decreases |steps|
  {
    if steps == [] then s else After(Apply(s, steps[0]), steps[1..])
  }
}
