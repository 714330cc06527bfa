/** Rebuilding a task from its events, and how the node timeline relates to it. */
module Replay {
  import opened Common

  datatype Kind =
    | TaskCreated | NodeStarted | NodeCompleted | NodeFailed
    | PaymentLocked | PaymentReleased | TaskCompleted | TaskFailed
    | Other                              // any type the replayer does not know

  datatype Payload = Payload(
    prompt: Option<string>, wallet: Option<string>, agentType: Option<string>, result: Option<string>,
    error: Option<string>, balanceId: Option<string>, amount: Option<int>, txHash: Option<string>)

  /** A missing node id and a missing sequence number are None. */
  datatype Event = Event(task: string, kind: Kind, node: Option<string>, number: Option<int>, at: string, payload: Payload)

  datatype NodeStatus = Pending | Running | Completed | Failed

  datatype Node = Node(
    status: NodeStatus, agentType: Option<string>, result: Option<string>, error: Option<string>,
    startedAt: Option<string>, settledAt: Option<string>,
    lockedAt: Option<string>, balanceId: Option<string>, amount: Option<int>, txHash: Option<string>)

  datatype TaskStatus = Unknown | Queued | TaskRunning | TaskDone | TaskBroken

  datatype TaskState = TaskState(
    task: string, status: TaskStatus, prompt: Option<string>, wallet: Option<string>, nodes: map<Option<string>, Node>,
    createdAt: Option<string>, completedAt: Option<string>, terminalError: Option<string>,
    lastNumber: int, eventCount: nat)

  const NEW_NODE := Node(Pending, None, None, None, None, None, None, None, None, None)

  function NodeAt(s: TaskState, n: Option<string>): Node { if n in s.nodes then s.nodes[n] else NEW_NODE }

  function SetNode(s: TaskState, n: Option<string>, v: Node): TaskState { s.(nodes := s.nodes[n := v]) }

  /** Every event advances the cursor, whatever its type. */
  function Advance(s: TaskState, e: Event): TaskState {
    s.(eventCount := s.eventCount + 1,
       lastNumber := if e.number.Some? && e.number.value > s.lastNumber then e.number.value else s.lastNumber)
  }

  function ApplyEvent(s: TaskState, e: Event): TaskState {
    var t := Advance(s, e);
    var node := NodeAt(t, e.node);
    var p := e.payload;
    match e.kind
    case TaskCreated => t.(prompt := p.prompt, wallet := p.wallet, createdAt := Some(e.at), status := Queued)
    case NodeStarted =>
      SetNode(t, e.node, node.(status := Running, agentType := p.agentType, startedAt := Some(e.at)))
        .(status := if t.status == Queued then TaskRunning else t.status)
    case NodeCompleted => SetNode(t, e.node, node.(status := Completed, result := p.result, settledAt := Some(e.at)))
    case NodeFailed => SetNode(t, e.node, node.(status := Failed, error := p.error, settledAt := Some(e.at)))
    case PaymentLocked =>
      SetNode(t, e.node, node.(lockedAt := Some(e.at), balanceId := p.balanceId, amount := p.amount))
    case PaymentReleased => SetNode(t, e.node, node.(txHash := p.txHash))
    case TaskCompleted => t.(status := TaskDone, completedAt := Some(e.at))
    case TaskFailed => t.(status := TaskBroken, completedAt := Some(e.at), terminalError := p.error)
    case Other => t
  }

  function Fold(s: TaskState, log: seq<Event>): TaskState {
    if log == [] then s else ApplyEvent(Fold(s, log[..|log| - 1]), log[|log| - 1])
  }

  function Start(task: string): TaskState { TaskState(task, Unknown, None, None, map[], None, None, None, -1, 0) }

  function ReplayOf(log: seq<Event>): Option<TaskState> {
    if log == [] then None else Some(Fold(Start(log[0].task), log))
  }

  predicate Wanted(e: Event, target: int) { e.number.None? || e.number.value <= target }

  function UpTo(log: seq<Event>, target: int): seq<Event> {
    if log == [] then []
    else UpTo(log[..|log| - 1], target)
         + (if Wanted(log[|log| - 1], target) then [log[|log| - 1]] else [])
  }

  /** A state being replayed, updated in place. */
  class Replayer {
    var state: TaskState

    constructor (task: string)
      ensures state == Start(task)
    {
      state := Start(task);
    }

    method Apply(e: Event)
      modifies this
      ensures state == ApplyEvent(old(state), e)
    {
      state := state.(eventCount := state.eventCount + 1);
      if e.number.Some? && e.number.value > state.lastNumber {
        state := state.(lastNumber := e.number.value);
      }
      var p := e.payload;
      match e.kind {
        case TaskCreated =>
          state := state.(prompt := p.prompt, wallet := p.wallet, createdAt := Some(e.at), status := Queued);
        case NodeStarted =>
          EnsureNode(e.node);
          var node := state.nodes[e.node].(status := Running, agentType := p.agentType, startedAt := Some(e.at));
          state := state.(nodes := state.nodes[e.node := node]);
          if state.status == Queued {
            state := state.(status := TaskRunning);
          }
        case NodeCompleted =>
          EnsureNode(e.node);
          var node := state.nodes[e.node].(status := Completed, result := p.result, settledAt := Some(e.at));
          state := state.(nodes := state.nodes[e.node := node]);
        case NodeFailed =>
          EnsureNode(e.node);
          var node := state.nodes[e.node].(status := Failed, error := p.error, settledAt := Some(e.at));
          state := state.(nodes := state.nodes[e.node := node]);
        case PaymentLocked =>
          EnsureNode(e.node);
          var node := state.nodes[e.node].(lockedAt := Some(e.at), balanceId := p.balanceId, amount := p.amount);
          state := state.(nodes := state.nodes[e.node := node]);
        case PaymentReleased =>
          EnsureNode(e.node);
          state := state.(nodes := state.nodes[e.node := state.nodes[e.node].(txHash := p.txHash)]);
        case TaskCompleted => state := state.(status := TaskDone, completedAt := Some(e.at));
        case TaskFailed =>
          state := state.(status := TaskBroken, completedAt := Some(e.at), terminalError := p.error);
        case Other =>
      }
    }

    method EnsureNode(n: Option<string>)
      modifies this
      ensures state == SetNode(old(state), n, NodeAt(old(state), n))
    {
      if n !in state.nodes {
        state := state.(nodes := state.nodes[n := NEW_NODE]);
      } else {
        assert state.nodes == state.nodes[n := state.nodes[n]];
      }
    }
  }

  method ReplayTask(log: seq<Event>) returns (r: Option<TaskState>)
    ensures r == ReplayOf(log) && (r.None? <==> log == [])
    ensures r.Some? ==>
              && r.value.task == log[0].task && Counted(log, r.value)
              && StatusExplained(log, r.value.status) && TaskExplained(log, r.value) && NodesExplained(log, r.value)
  {
    if log == [] {
      return None;
    }
    var replayer := new Replayer(log[0].task);
    for i := 0 to |log|
      invariant replayer.state == Fold(Start(log[0].task), log[..i])
    {
      replayer.Apply(log[i]);
      assert log[..i + 1][..i] == log[..i];
    }
    assert log[..|log|] == log;
    r := Some(replayer.state);
    ReplayExplains(log);
  }

  // ------------------------------------------------------------------ what a replayed task says

  /** Event `i` is the last of those that count. */
  predicate Last(log: seq<Event>, counts: Event -> bool, i: int) {
    0 <= i < |log| && counts(log[i]) && forall j :: i < j < |log| ==> !counts(log[j])
  }

  /** The value is what the last event that counts says, or `none` without such an event. */
  ghost predicate Decided<T(!new)>(log: seq<Event>, counts: Event -> bool, says: Event -> T, none: T, value: T) {
    && (forall i :: Last(log, counts, i) ==> value == says(log[i]))
    && ((forall i :: 0 <= i < |log| ==> !counts(log[i])) ==> value == none)
  }

  /** One more event decides the value if it counts, and leaves it otherwise. */
  lemma DecidedSnoc<T(!new)>(front: seq<Event>, e: Event, counts: Event -> bool, says: Event -> T, none: T, value: T, next: T)
    requires Decided(front, counts, says, none, value) && next == if counts(e) then says(e) else value
    ensures Decided(front + [e], counts, says, none, next)
  {
    var log := front + [e];
    assert log[|front|] == e && forall i :: 0 <= i < |front| ==> log[i] == front[i];
    forall i | Last(log, counts, i) ensures next == says(log[i]) {
      if i < |front| {
        assert !counts(log[|front|]);
        forall j | i < j < |front| ensures !counts(front[j]) { assert log[j] == front[j]; }
        assert Last(front, counts, i);
      }
    }
    if forall i :: 0 <= i < |log| ==> !counts(log[i]) {
      assert !counts(log[|front|]);
      forall i | 0 <= i < |front| ensures !counts(front[i]) { assert !counts(log[i]); }
    }
  }

  predicate StartsAfter(log: seq<Event>, i: int) { exists j :: 0 <= i < j < |log| && log[j].kind == NodeStarted }

  /** The last task-level event decides the status; a created task runs once a node starts. */
  ghost predicate StatusExplained(log: seq<Event>, status: TaskStatus) {
    var counts := (e: Event) => e.kind in {TaskCreated, TaskCompleted, TaskFailed};
    && (forall i :: Last(log, counts, i) ==>
          && (log[i].kind == TaskCompleted ==> status == TaskDone)
          && (log[i].kind == TaskFailed ==> status == TaskBroken)
          && (log[i].kind == TaskCreated ==> status == if StartsAfter(log, i) then TaskRunning else Queued))
    && ((forall i :: 0 <= i < |log| ==> !counts(log[i])) ==> status == Unknown)
  }

  /** The task's other fields, each by the last event that decides it. */
  ghost predicate TaskExplained(log: seq<Event>, s: TaskState) {
    && Decided(log, (e: Event) => e.kind == TaskCreated, (e: Event) => e.payload.prompt, None, s.prompt)
    && Decided(log, (e: Event) => e.kind == TaskCreated, (e: Event) => e.payload.wallet, None, s.wallet)
    && Decided(log, (e: Event) => e.kind == TaskCreated, (e: Event) => Some(e.at), None, s.createdAt)
    && Decided(log, (e: Event) => e.kind in {TaskCompleted, TaskFailed}, (e: Event) => Some(e.at), None, s.completedAt)
    && Decided(log, (e: Event) => e.kind == TaskFailed, (e: Event) => e.payload.error, None, s.terminalError)
  }

  /** The fields of a node, likewise by the last event of that node. */
  ghost predicate NodeExplained(log: seq<Event>, n: Option<string>, v: Node) {
    && Decided(log, (e: Event) => e.node == n && e.kind in {NodeStarted, NodeCompleted, NodeFailed},
               (e: Event) => match e.kind { case NodeStarted => Running case NodeCompleted => Completed case _ => Failed },
               Pending, v.status)
    && Decided(log, (e: Event) => e.node == n && e.kind == NodeStarted, (e: Event) => e.payload.agentType, None, v.agentType)
    && Decided(log, (e: Event) => e.node == n && e.kind == NodeStarted, (e: Event) => Some(e.at), None, v.startedAt)
    && Decided(log, (e: Event) => e.node == n && e.kind in {NodeCompleted, NodeFailed}, (e: Event) => Some(e.at), None, v.settledAt)
    && Decided(log, (e: Event) => e.node == n && e.kind == NodeCompleted, (e: Event) => e.payload.result, None, v.result)
    && Decided(log, (e: Event) => e.node == n && e.kind == NodeFailed, (e: Event) => e.payload.error, None, v.error)
  }

  /** Its payment, likewise. */
  ghost predicate PaymentExplained(log: seq<Event>, n: Option<string>, v: Node) {
    && Decided(log, (e: Event) => e.node == n && e.kind == PaymentLocked, (e: Event) => Some(e.at), None, v.lockedAt)
    && Decided(log, (e: Event) => e.node == n && e.kind == PaymentLocked, (e: Event) => e.payload.balanceId, None, v.balanceId)
    && Decided(log, (e: Event) => e.node == n && e.kind == PaymentLocked, (e: Event) => e.payload.amount, None, v.amount)
    && Decided(log, (e: Event) => e.node == n && e.kind == PaymentReleased, (e: Event) => e.payload.txHash, None, v.txHash)
  }

  /** The replay has a node exactly for each id that one of the five kinds of node event carries. */
  ghost predicate NodesExplained(log: seq<Event>, s: TaskState) {
    forall n: Option<string> ::
      && (n in s.nodes <==>
            exists i :: 0 <= i < |log| && log[i].node == n
                        && log[i].kind in {NodeStarted, NodeCompleted, NodeFailed, PaymentLocked, PaymentReleased})
      && (n in s.nodes ==> NodeExplained(log, n, s.nodes[n]) && PaymentExplained(log, n, s.nodes[n]))
  }

  /** Every event counts, and the cursor is the highest number, or -1. */
  ghost predicate Counted(log: seq<Event>, s: TaskState) {
    && s.eventCount == |log| && s.lastNumber >= -1
    && (forall e :: e in log && e.number.Some? ==> e.number.value <= s.lastNumber)
    && (s.lastNumber == -1 || exists e :: e in log && e.number == Some(s.lastNumber))
  }

  lemma ExplainStatus(front: seq<Event>, e: Event, s: TaskState)
    requires StatusExplained(front, s.status)
    ensures StatusExplained(front + [e], ApplyEvent(s, e).status)
  {
    var log := front + [e];
    var status := ApplyEvent(s, e).status;
    var counts := (x: Event) => x.kind in {TaskCreated, TaskCompleted, TaskFailed};
    TaskFields(s, e);
    hide ApplyEvent;
    assert log[|front|] == e && forall i :: 0 <= i < |front| ==> log[i] == front[i];
    forall i | Last(log, counts, i)
      ensures log[i].kind == TaskCompleted ==> status == TaskDone
      ensures log[i].kind == TaskFailed ==> status == TaskBroken
      ensures log[i].kind == TaskCreated ==> status == if StartsAfter(log, i) then TaskRunning else Queued {
      if i < |front| {
        assert !counts(log[|front|]);
        forall j | i < j < |front| ensures !counts(front[j]) { assert log[j] == front[j]; }
        assert Last(front, counts, i);
        StartsSnoc(front, e, i);
      }
    }
    if forall i :: 0 <= i < |log| ==> !counts(log[i]) {
      assert !counts(log[|front|]);
      forall i | 0 <= i < |front| ensures !counts(front[i]) { assert !counts(log[i]); }
    }
  }

  lemma StartsSnoc(front: seq<Event>, e: Event, i: int)
    requires 0 <= i < |front|
    ensures StartsAfter(front + [e], i) <==> e.kind == NodeStarted || StartsAfter(front, i)
  {
    var log := front + [e];
    assert log[|front|] == e && forall k :: 0 <= k < |front| ==> log[k] == front[k];
    if StartsAfter(front, i) {
      var j :| i < j < |front| && front[j].kind == NodeStarted;
      assert log[j].kind == NodeStarted;
    }
  }

  /** What one event does to the task's own fields. */
  lemma TaskFields(s: TaskState, e: Event)
    ensures var t := ApplyEvent(s, e);
            && t.task == s.task
            && t.prompt == (if e.kind == TaskCreated then e.payload.prompt else s.prompt)
            && t.wallet == (if e.kind == TaskCreated then e.payload.wallet else s.wallet)
            && t.createdAt == (if e.kind == TaskCreated then Some(e.at) else s.createdAt)
            && t.completedAt == (if e.kind in {TaskCompleted, TaskFailed} then Some(e.at) else s.completedAt)
            && t.terminalError == (if e.kind == TaskFailed then e.payload.error else s.terminalError)
            && t.status == (match e.kind
                            case TaskCreated => Queued
                            case TaskCompleted => TaskDone
                            case TaskFailed => TaskBroken
                            case NodeStarted => if s.status == Queued then TaskRunning else s.status
                            case _ => s.status)
  {
  }

  lemma ExplainTask(front: seq<Event>, e: Event, s: TaskState)
    requires TaskExplained(front, s)
    ensures TaskExplained(front + [e], ApplyEvent(s, e))
  {
    var t := ApplyEvent(s, e);
    TaskFields(s, e);
    hide ApplyEvent, Decided;
    DecidedSnoc(front, e, (x: Event) => x.kind == TaskCreated, (x: Event) => x.payload.prompt, None, s.prompt, t.prompt);
    DecidedSnoc(front, e, (x: Event) => x.kind == TaskCreated, (x: Event) => x.payload.wallet, None, s.wallet, t.wallet);
    DecidedSnoc(front, e, (x: Event) => x.kind == TaskCreated, (x: Event) => Some(x.at), None, s.createdAt, t.createdAt);
    DecidedSnoc(front, e, (x: Event) => x.kind in {TaskCompleted, TaskFailed}, (x: Event) => Some(x.at), None, s.completedAt, t.completedAt);
    DecidedSnoc(front, e, (x: Event) => x.kind == TaskFailed, (x: Event) => x.payload.error, None, s.terminalError, t.terminalError);
  }

  lemma ExplainSteps(front: seq<Event>, e: Event, v: Node, n: Option<string>)
    requires NodeExplained(front, n, v)
    ensures NodeExplained(front + [e], n, if e.node == n then Touched(v, e) else v)
  {
    var w := if e.node == n then Touched(v, e) else v;
    hide Decided;
    DecidedSnoc(front, e, (x: Event) => x.node == n && x.kind in {NodeStarted, NodeCompleted, NodeFailed},
                (x: Event) => match x.kind { case NodeStarted => Running case NodeCompleted => Completed case _ => Failed },
                Pending, v.status, w.status);
    DecidedSnoc(front, e, (x: Event) => x.node == n && x.kind == NodeStarted, (x: Event) => x.payload.agentType, None, v.agentType, w.agentType);
    DecidedSnoc(front, e, (x: Event) => x.node == n && x.kind == NodeStarted, (x: Event) => Some(x.at), None, v.startedAt, w.startedAt);
    DecidedSnoc(front, e, (x: Event) => x.node == n && x.kind in {NodeCompleted, NodeFailed}, (x: Event) => Some(x.at), None, v.settledAt, w.settledAt);
    DecidedSnoc(front, e, (x: Event) => x.node == n && x.kind == NodeCompleted, (x: Event) => x.payload.result, None, v.result, w.result);
    DecidedSnoc(front, e, (x: Event) => x.node == n && x.kind == NodeFailed, (x: Event) => x.payload.error, None, v.error, w.error);
  }

  lemma ExplainPayment(front: seq<Event>, e: Event, v: Node, n: Option<string>)
    requires PaymentExplained(front, n, v)
    ensures PaymentExplained(front + [e], n, if e.node == n then Touched(v, e) else v)
  {
    var w := if e.node == n then Touched(v, e) else v;
    hide Decided;
    DecidedSnoc(front, e, (x: Event) => x.node == n && x.kind == PaymentLocked, (x: Event) => Some(x.at), None, v.lockedAt, w.lockedAt);
    DecidedSnoc(front, e, (x: Event) => x.node == n && x.kind == PaymentLocked, (x: Event) => x.payload.balanceId, None, v.balanceId, w.balanceId);
    DecidedSnoc(front, e, (x: Event) => x.node == n && x.kind == PaymentLocked, (x: Event) => x.payload.amount, None, v.amount, w.amount);
    DecidedSnoc(front, e, (x: Event) => x.node == n && x.kind == PaymentReleased, (x: Event) => x.payload.txHash, None, v.txHash, w.txHash);
  }

  lemma TouchedIs(s: TaskState, e: Event, n: Option<string>)
    ensures NodeAt(ApplyEvent(s, e), n) == if e.node == n then Touched(NodeAt(s, n), e) else NodeAt(s, n)
  {
    ApplyNodes(s, e, n);
    OwnView(s, e);
  }

  /** For every log: each field of the replayed task and of its nodes is that of the last event that decides it. */
  lemma {:induction false} FoldExplains(log: seq<Event>, task: string, n: Option<string>)
    ensures var s := Fold(Start(task), log);
            && s.task == task && StatusExplained(log, s.status) && TaskExplained(log, s)
            && NodeExplained(log, n, NodeAt(s, n)) && PaymentExplained(log, n, NodeAt(s, n))
            && (n in s.nodes <==> HasNodeEvent(log, n))
  {
    if log != [] {
      var front, e := log[..|log| - 1], log[|log| - 1];
      FoldExplains(front, task, n);
      assert log == front + [e];
      EventExplains(front, e, Fold(Start(task), front), n);
      hide ApplyEvent, StatusExplained, TaskExplained, NodeExplained, PaymentExplained, NodeAt, HasNodeEvent;
    }
  }

  lemma EventExplains(front: seq<Event>, e: Event, s: TaskState, n: Option<string>)
    requires StatusExplained(front, s.status) && TaskExplained(front, s)
    requires NodeExplained(front, n, NodeAt(s, n)) && PaymentExplained(front, n, NodeAt(s, n))
    requires n in s.nodes <==> HasNodeEvent(front, n)
    ensures var t := ApplyEvent(s, e);
            && t.task == s.task && StatusExplained(front + [e], t.status) && TaskExplained(front + [e], t)
            && NodeExplained(front + [e], n, NodeAt(t, n)) && PaymentExplained(front + [e], n, NodeAt(t, n))
            && (n in t.nodes <==> HasNodeEvent(front + [e], n))
  {
    hide StatusExplained, TaskExplained, NodeExplained, PaymentExplained, NodeAt, HasNodeEvent, Touched;
    TaskFields(s, e);
    TouchedIs(s, e, n);
    ApplyNodes(s, e, n);
    NamedSnoc(front, e, n);
    ExplainStatus(front, e, s);
    ExplainTask(front, e, s);
    ExplainSteps(front, e, NodeAt(s, n), n);
    ExplainPayment(front, e, NodeAt(s, n), n);
    hide ApplyEvent;
  }

  lemma ReplayExplains(log: seq<Event>)
    requires log != []
    ensures var s := Fold(Start(log[0].task), log);
            && s.task == log[0].task && StatusExplained(log, s.status) && TaskExplained(log, s) && Counted(log, s)
            && NodesExplained(log, s)
  {
    hide Fold, StatusExplained, TaskExplained, NodeExplained, PaymentExplained, HasNodeEvent;
    var s := Fold(Start(log[0].task), log);
    CursorIsMax(Start(log[0].task), log);
    FoldExplains(log, log[0].task, None);
    forall n: Option<string>
      ensures n in s.nodes <==>
                exists i :: 0 <= i < |log| && log[i].node == n
                            && log[i].kind in {NodeStarted, NodeCompleted, NodeFailed, PaymentLocked, PaymentReleased}
      ensures n in s.nodes ==> NodeExplained(log, n, s.nodes[n]) && PaymentExplained(log, n, s.nodes[n]) {
      FoldExplains(log, log[0].task, n);
      NodeEventIs(log, n);
    }
  }

  lemma NodeEventIs(log: seq<Event>, n: Option<string>)
    ensures HasNodeEvent(log, n) <==>
              exists i :: 0 <= i < |log| && log[i].node == n
                          && log[i].kind in {NodeStarted, NodeCompleted, NodeFailed, PaymentLocked, PaymentReleased}
  {
    if HasNodeEvent(log, n) {
      var i :| 0 <= i < |log| && NodeEvent(log[i], n);
      assert log[i].node == n;
    }
    if i :| 0 <= i < |log| && log[i].node == n && log[i].kind in {NodeStarted, NodeCompleted, NodeFailed, PaymentLocked, PaymentReleased} {
      assert NodeEvent(log[i], n);
    }
  }

  // ------------------------------------------------------------------ splitting a log

  lemma {:induction false} FoldSplit(s: TaskState, a: seq<Event>, b: seq<Event>)
    ensures Fold(s, a + b) == Fold(Fold(s, a), b)
  {
    if b == [] {
      assert a + b == a;
    } else {
      FoldSplit(s, a, b[..|b| - 1]);
      assert (a + b)[..|a + b| - 1] == a + b[..|b| - 1];
    }
  }

  /** Replaying a log is replaying any first part of it and then applying the rest event by event. */
  lemma ReplaySplits(log: seq<Event>, k: nat)
    requires 0 < k <= |log|
    ensures ReplayOf(log) == Some(Fold(ReplayOf(log[..k]).value, log[k..]))
  {
    assert log == log[..k] + log[k..];
    FoldSplit(Start(log[0].task), log[..k], log[k..]);
  }

  /** The cursor is the highest number seen and every event counts, whatever its type. */
  lemma {:induction false} CursorIsMax(s: TaskState, log: seq<Event>)
    ensures Fold(s, log).eventCount == s.eventCount + |log|
    ensures Fold(s, log).lastNumber >= s.lastNumber
    ensures forall e :: e in log && e.number.Some? ==> e.number.value <= Fold(s, log).lastNumber
    ensures Fold(s, log).lastNumber == s.lastNumber
            || exists e :: e in log && e.number == Some(Fold(s, log).lastNumber)
  {
    if log != [] {
      var front, e := log[..|log| - 1], log[|log| - 1];
      CursorIsMax(s, front);
      CursorStep(Fold(s, front), e);
      assert log == front + [e];
      assert e in log;
      assert forall x :: x in front ==> x in log;
    }
  }

  lemma CursorStep(s: TaskState, e: Event)
    ensures ApplyEvent(s, e).eventCount == s.eventCount + 1
    ensures ApplyEvent(s, e).lastNumber == Advance(s, e).lastNumber
  {
  }

  predicate Numbered(log: seq<Event>) {
    && (forall i :: 0 <= i < |log| ==> log[i].number.Some?)
    && (forall i, j :: 0 <= i < j < |log| ==> log[i].number.value < log[j].number.value)
  }

  lemma UpToSnoc(front: seq<Event>, e: Event, target: int)
    ensures UpTo(front + [e], target) == UpTo(front, target) + (if Wanted(e, target) then [e] else [])
  {
    assert (front + [e])[..|front|] == front;
  }

  /** The first `k` events are the wanted ones. */
  predicate CutAt(log: seq<Event>, target: int, k: nat) {
    k <= |log| && forall i :: 0 <= i < |log| ==> (i < k <==> log[i].number.None? || log[i].number.value <= target)
  }

  lemma CutSnoc(front: seq<Event>, e: Event, target: int, k: nat)
    requires Numbered(front + [e]) && CutAt(front, target, k)
    ensures Numbered(front)
    ensures if Wanted(e, target) then k == |front| && CutAt(front + [e], target, k + 1) else CutAt(front + [e], target, k)
  {
    var log := front + [e];
    assert forall i :: 0 <= i < |front| ==> log[i] == front[i];
    if front != [] { assert log[|front| - 1].number.value < log[|front|].number.value; }
  }

  lemma NumberedFront(log: seq<Event>)
    requires Numbered(log) && log != []
    ensures Numbered(log[..|log| - 1]) && log == log[..|log| - 1] + [log[|log| - 1]]
  {
  }

  /** On a log in number order, replaying up to a number is replaying the prefix up to it. */
  lemma {:induction false} UpToIsPrefix(log: seq<Event>, target: int) returns (k: nat)
    requires Numbered(log)
    ensures CutAt(log, target, k) && UpTo(log, target) == log[..k]
  {
    if log == [] {
      k := 0;
    } else {
      NumberedFront(log);
      var front, e := log[..|log| - 1], log[|log| - 1];
      k := UpToIsPrefix(front, target);
      CutSnoc(front, e, target, k);
      UpToSnoc(front, e, target);
      hide Numbered, Wanted, UpTo;
      if Wanted(e, target) {
        k := k + 1;
        assert front[..|front|] == front && log[..|log|] == log;
      } else {
        assert front[..k] == log[..k];
      }
    }
  }

  // ------------------------------------------------------------------ the node timeline

  datatype Entry = Entry(
    status: NodeStatus, agentType: Option<string>, startedAt: Option<string>, settledAt: Option<string>,
    error: Option<string>)

  const NEW_ENTRY := Entry(Pending, None, None, None, None)

  type Timeline = map<string, Entry>

  function EntryAt(t: Timeline, n: string): Entry { if n in t then t[n] else NEW_ENTRY }

  /** Events without a node id, or with an empty one, are skipped; any other makes an entry. */
  function Project(t: Timeline, e: Event): Timeline {
    if e.node.None? || e.node.value == "" then t
    else
      var entry := EntryAt(t, e.node.value);
      t[e.node.value :=
          match e.kind
          case NodeStarted => entry.(status := Running, agentType := e.payload.agentType, startedAt := Some(e.at))
          case NodeCompleted => entry.(status := Completed, settledAt := Some(e.at))
          case NodeFailed => entry.(status := Failed, error := e.payload.error, settledAt := Some(e.at))
          case _ => entry]
  }

  function TimelineOf(log: seq<Event>): Timeline {
    if log == [] then map[] else Project(TimelineOf(log[..|log| - 1]), log[|log| - 1])
  }

  method ProjectNodeTimeline(log: seq<Event>) returns (timeline: Timeline)
    ensures timeline == TimelineOf(log)
  {
    timeline := map[];
    for i := 0 to |log|
      invariant timeline == TimelineOf(log[..i])
    {
      var e := log[i];
      assert log[..i + 1][..i] == log[..i];
      if e.node.None? || e.node.value == "" {
        continue;
      }
      var n := e.node.value;
      if n !in timeline {
        timeline := timeline[n := NEW_ENTRY];
      }
      match e.kind {
        case NodeStarted =>
          timeline := timeline[n := timeline[n].(status := Running, agentType := e.payload.agentType, startedAt := Some(e.at))];
        case NodeCompleted => timeline := timeline[n := timeline[n].(status := Completed, settledAt := Some(e.at))];
        case NodeFailed =>
          timeline := timeline[n := timeline[n].(status := Failed, error := e.payload.error, settledAt := Some(e.at))];
        case _ => assert timeline == timeline[n := timeline[n]];
      }
    }
    assert log[..|log|] == log;
  }

  /** The types for which the replayer makes a node. */
  predicate OfNode(k: Kind) { k in {NodeStarted, NodeCompleted, NodeFailed, PaymentLocked, PaymentReleased} }

  function View(n: Node): Entry { Entry(n.status, n.agentType, n.startedAt, n.settledAt, n.error) }

  lemma ApplyNodes(s: TaskState, e: Event, n: Option<string>)
    ensures n in ApplyEvent(s, e).nodes <==> n in s.nodes || (OfNode(e.kind) && e.node == n)
    ensures !(OfNode(e.kind) && e.node == n) ==> NodeAt(ApplyEvent(s, e), n) == NodeAt(s, n)
  {
  }

  /** What the event leaves of the node it names, as far as the timeline can see. */
  lemma OwnView(s: TaskState, e: Event)
    ensures OfNode(e.kind) ==> NodeAt(ApplyEvent(s, e), e.node) == Touched(NodeAt(s, e.node), e)
    ensures !OfNode(e.kind) ==> NodeAt(ApplyEvent(s, e), e.node) == NodeAt(s, e.node)
  {
  }

  /** A node after one event of its own. */
  function Touched(node: Node, e: Event): Node {
    match e.kind
    case NodeStarted => node.(status := Running, agentType := e.payload.agentType, startedAt := Some(e.at))
    case NodeCompleted => node.(status := Completed, result := e.payload.result, settledAt := Some(e.at))
    case NodeFailed => node.(status := Failed, error := e.payload.error, settledAt := Some(e.at))
    case PaymentLocked => node.(lockedAt := Some(e.at), balanceId := e.payload.balanceId, amount := e.payload.amount)
    case PaymentReleased => node.(txHash := e.payload.txHash)
    case _ => node
  }

  lemma TouchedView(node: Node, t: Timeline, e: Event)
    requires e.node.Some? && e.node.value != "" && View(node) == EntryAt(t, e.node.value)
    ensures View(Touched(node, e)) == EntryAt(Project(t, e), e.node.value)
  {
  }

  lemma OtherEntry(t: Timeline, e: Event, n: string)
    requires e.node != Some(n)
    ensures EntryAt(Project(t, e), n) == EntryAt(t, n)
  {
  }

  lemma ApplyView(s: TaskState, t: Timeline, e: Event, n: string)
    requires n != "" && View(NodeAt(s, Some(n))) == EntryAt(t, n)
    ensures View(NodeAt(ApplyEvent(s, e), Some(n))) == EntryAt(Project(t, e), n)
  {
    ApplyNodes(s, e, Some(n));
    OwnView(s, e);
    hide ApplyEvent, Project, View, NodeAt, EntryAt;
    if e.node == Some(n) {
      TouchedView(NodeAt(s, Some(n)), t, e);
    } else {
      OtherEntry(t, e, n);
    }
  }

  /** Some event names the node; some event makes the replayer create it. */
  predicate Named(log: seq<Event>, n: string) { exists i :: 0 <= i < |log| && log[i].node == Some(n) }

  predicate NodeEvent(e: Event, n: Option<string>) { e.node == n && OfNode(e.kind) }

  predicate HasNodeEvent(log: seq<Event>, n: Option<string>) { exists i :: 0 <= i < |log| && NodeEvent(log[i], n) }

  lemma NamedSnoc(front: seq<Event>, e: Event, n: Option<string>)
    ensures n.Some? ==> (Named(front + [e], n.value) <==> Named(front, n.value) || e.node == n)
    ensures HasNodeEvent(front + [e], n) <==> HasNodeEvent(front, n) || NodeEvent(e, n)
  {
    hide OfNode;
    var log := front + [e];
    assert log[|front|] == e && forall i :: 0 <= i < |front| ==> log[i] == front[i];
    if n.Some? && Named(front, n.value) {
      var i :| 0 <= i < |front| && front[i].node == n;
      assert log[i].node == n;
    }
    if HasNodeEvent(front, n) {
      var i :| 0 <= i < |front| && NodeEvent(front[i], n);
      assert NodeEvent(log[i], n);
    }
    if NodeEvent(e, n) { assert NodeEvent(log[|front|], n); }
  }

  /** For every log and every non-empty node id: the timeline lists it exactly when some event names it, the
      replay exactly when a node event does, and the two agree on status, agent, times and error. */
  lemma {:induction false} TimelineAgrees(log: seq<Event>, task: string, n: string)
    requires n != ""
    ensures n in TimelineOf(log) <==> Named(log, n)
    ensures Some(n) in Fold(Start(task), log).nodes <==> HasNodeEvent(log, Some(n))
    ensures View(NodeAt(Fold(Start(task), log), Some(n))) == EntryAt(TimelineOf(log), n)
  {
    if log != [] {
      var front, e := log[..|log| - 1], log[|log| - 1];
      TimelineAgrees(front, task, n);
      ApplyNodes(Fold(Start(task), front), e, Some(n));
      ApplyView(Fold(Start(task), front), TimelineOf(front), e, n);
      ProjectKeys(TimelineOf(front), e, n);
      NamedSnoc(front, e, Some(n));
      hide ApplyEvent, Project, OfNode, Named, HasNodeEvent, View, NodeAt, EntryAt;
      assert log == front + [e];
    }
  }

  lemma ProjectKeys(t: Timeline, e: Event, n: string)
    ensures n in Project(t, e) <==> n in t || (n != "" && e.node == Some(n))
  {
  }

  /** Events without a proper node id reach the replay only. */
  lemma {:induction false} EmptyIdKeys(log: seq<Event>, task: string, n: Option<string>)
    requires n == None || n == Some("")
    ensures "" !in TimelineOf(log)
    ensures n in Fold(Start(task), log).nodes <==> HasNodeEvent(log, n)
  {
    if log != [] {
      var front, e := log[..|log| - 1], log[|log| - 1];
      EmptyIdKeys(front, task, n);
      ApplyNodes(Fold(Start(task), front), e, n);
      ProjectKeys(TimelineOf(front), e, "");
      NamedSnoc(front, e, n);
      hide ApplyEvent, Project, OfNode, HasNodeEvent;
      assert log == front + [e];
    }
  }

  /** Node events name a node, and every named node has a node event. */
  ghost predicate WellNamed(log: seq<Event>) {
    && !HasNodeEvent(log, None) && !HasNodeEvent(log, Some(""))
    && (forall n: string :: n != "" && Named(log, n) ==> HasNodeEvent(log, Some(n)))
  }

  ghost predicate SameNodes(s: TaskState, t: Timeline) {
    forall n: Option<string> :: n in s.nodes <==> n.Some? && n.value in t
  }

  /** Replay and timeline have the same nodes exactly on well-named logs. */
  lemma NodeSetsAgreeIff(log: seq<Event>, task: string)
    ensures SameNodes(Fold(Start(task), log), TimelineOf(log)) <==> WellNamed(log)
  {
    hide Fold, TimelineOf, Named, HasNodeEvent;
    var s, t := Fold(Start(task), log), TimelineOf(log);
    EmptyIdKeys(log, task, None);
    EmptyIdKeys(log, task, Some(""));
    forall n: string | n != ""
      ensures n in t <==> Named(log, n)
      ensures Some(n) in s.nodes <==> HasNodeEvent(log, Some(n)) {
      TimelineAgrees(log, task, n);
    }
    forall n: string | n != "" && HasNodeEvent(log, Some(n)) ensures Named(log, n) {
      NodeEventNames(log, n);
    }
    if WellNamed(log) {
      forall n: Option<string> ensures n in s.nodes <==> n.Some? && n.value in t {
        if n.Some? && n.value != "" { assert n == Some(n.value); }
      }
    }
    if SameNodes(s, t) {
      assert None !in s.nodes && Some("") !in s.nodes;
      forall n: string | n != "" && Named(log, n) ensures HasNodeEvent(log, Some(n)) {
        assert Some(n) in s.nodes;
      }
    }
  }

  /** A log of one event of another type that names a node: the timeline lists the node, the replay does not. */
  lemma NamedWithoutNodeEvent(e: Event, task: string)
    requires e.kind == Other && e.node == Some("n")
    ensures "n" in TimelineOf([e]) && Some("n") !in Fold(Start(task), [e]).nodes
    ensures !SameNodes(Fold(Start(task), [e]), TimelineOf([e]))
  {
    assert [e][..0] == [];
    assert TimelineOf([e]) == Project(map[], e);
    assert Fold(Start(task), [e]) == ApplyEvent(Start(task), e);
    assert Some("n").value in TimelineOf([e]);
  }

  /** A log of one node event without a node id: the replay makes a nameless node, the timeline none. */
  lemma NodeEventWithoutName(e: Event, task: string)
    requires e.kind == NodeStarted && e.node == None
    ensures None in Fold(Start(task), [e]).nodes && TimelineOf([e]) == map[]
    ensures !SameNodes(Fold(Start(task), [e]), TimelineOf([e]))
  {
    assert [e][..0] == [];
    assert TimelineOf([e]) == Project(map[], e);
    assert Fold(Start(task), [e]) == ApplyEvent(Start(task), e);
  }

  lemma NodeEventNames(log: seq<Event>, n: string)
    requires HasNodeEvent(log, Some(n))
    ensures Named(log, n)
  {
    var i :| 0 <= i < |log| && NodeEvent(log[i], Some(n));
    assert log[i].node == Some(n);
  }
}
