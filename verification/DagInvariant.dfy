/** The state invariant of a run, kept by every enabled step. */
module DagInvariant {
  import opened Common
  import opened DagModel

  /** How the nodes start: already completed, or neither pending nor completed. */
  datatype Start = Start(pre: set<NodeId>, stuck: set<NodeId>)

  ghost predicate Sets(s: State, st: Start) {
    && s.dag.Valid() && s.limit >= 1
    && s.status.Keys == s.dag.deps.Keys
    && st.pre <= s.completed <= s.scheduled <= s.status.Keys && s.failed <= s.status.Keys
    && s.completed !! s.failed
    && st.stuck <= s.status.Keys && st.stuck !! s.scheduled && st.stuck !! s.failed
    && s.phase.Keys <= s.scheduled && s.slots <= s.scheduled
  }

  ghost predicate Counts(s: State) {
    s.inFlight == |s.phase.Keys| && s.active == |s.slots|
  }

  ghost predicate Limiter(s: State) {
    && s.submitted == s.started + s.queue && NoDup(s.submitted)
    && s.active <= s.limit
    && (s.queue != [] ==> s.active == s.limit)
    && (forall n :: n in s.queue <==> At(s, n, Queued))
  }

  predicate Open(s: State, n: NodeId) { n !in s.completed && n !in s.failed }

  ghost predicate NodeOk(s: State, env: Env, st: Start, n: NodeId)
    requires n in s.status
  {
    && (n in s.submitted <==> n in s.scheduled && n !in st.pre)
    && (n in s.phase ==> n in s.submitted)
    && (n in s.slots ==> n in s.started)
    && if n in s.phase then
      && DepsIn(s, n, s.completed)
      && match s.phase[n] {
           case Queued => s.status[n] == Pending && Open(s, n)
           case Dispatching => s.status[n] == Running && Open(s, n) && n in s.slots
           case Stored => s.status[n] == Completed && Open(s, n) && n in s.slots
           case Paying => s.status[n] == Completed && Open(s, n) && n in s.slots
                          && (n in env.succeeds || env.throwsAfterRelease)
           case Returned(ok) => s.status[n] != Pending && Open(s, n) && (ok <==> n in env.succeeds)
                                && (ok ==> s.status[n] == Completed)
           case Recorded => s.status[n] != Pending
                            && (if n in env.succeeds then n in s.completed && s.status[n] == Completed
                                else n in s.failed)
         }
    else
      && (s.status[n] == Pending <==> Open(s, n) && n !in st.stuck)
      && (n in s.completed ==> s.status[n] == Completed)
      && (n in s.scheduled ==> !Open(s, n))
  }

  ghost predicate Core(s: State, env: Env, st: Start) {
    && Sets(s, st) && Counts(s) && Limiter(s)
    && forall n :: n in s.status ==> NodeOk(s, env, st, n)
  }

  // ------------------------------------------------------------------ the loops

  /** Everything NodeOk reads about `m`, apart from its dependencies. */
  predicate SameView(s: State, t: State, m: NodeId) {
    && StatusOf(s, m) == StatusOf(t, m)
    && (m in s.phase <==> m in t.phase) && (m in s.phase ==> t.phase[m] == s.phase[m])
    && (m in s.completed <==> m in t.completed) && (m in s.failed <==> m in t.failed)
    && (m in s.scheduled <==> m in t.scheduled) && (m in s.submitted <==> m in t.submitted)
    && (m in s.slots <==> m in t.slots) && (m in s.started ==> m in t.started)
  }

  lemma SameViewOk(s: State, t: State, env: Env, st: Start, m: NodeId)
    requires m in s.status && NodeOk(s, env, st, m)
    requires SameView(s, t, m) && s.dag == t.dag && s.completed <= t.completed
    ensures m in t.status && NodeOk(t, env, st, m)
  {
  }

  lemma SubmitFacts(s: State, env: Env, st: Start, n: NodeId)
    requires Sets(s, st) && n in s.status && Ready(s, n) && NodeOk(s, env, st, n) && Limiter(s)
    ensures n !in s.phase && n !in s.submitted && n !in s.slots && n !in st.stuck && n !in st.pre && Open(s, n)
  {
    assert n in s.slots ==> n in s.submitted;
  }

  /** Core from its parts, when only node `n` may have changed. */
  lemma CoreByNode(s: State, t: State, env: Env, st: Start, n: NodeId)
    requires Core(s, env, st)
    requires Sets(t, st) && Counts(t) && Limiter(t)
    requires t.dag == s.dag && s.completed <= t.completed
    requires n in t.status ==> NodeOk(t, env, st, n)
    requires forall m :: m != n ==> SameView(s, t, m)
    ensures Core(t, env, st)
  {
    assert Core(s, env, st);
    hide Sets, Counts, Limiter, SameView, NodeOk;
    forall m | m in t.status && m != n ensures NodeOk(t, env, st, m) {
      assert SameView(s, t, m);
      SameViewStatus(s, t, m);
      SameViewOk(s, t, env, st, m);
    }
  }

  lemma SameViewStatus(s: State, t: State, m: NodeId)
    requires SameView(s, t, m)
    ensures m in s.status <==> m in t.status
  {
  }

  /** `n` enters the phase map with phase `p`; scheduling bookkeeping grows by `n`. */
  ghost predicate Arrived(s: State, t: State, n: NodeId) {
    && t.dag == s.dag && t.limit == s.limit
    && t.completed == s.completed && t.failed == s.failed
    && t.scheduled == s.scheduled + {n} && t.inFlight == s.inFlight + 1
    && t.submitted == s.submitted + [n]
    && n in t.phase && t.phase == s.phase[n := t.phase[n]]
  }

  lemma ArriveSets(s: State, t: State, st: Start, n: NodeId)
    requires Sets(s, st) && n in s.status && n !in st.stuck && Arrived(s, t, n)
    requires t.status.Keys == s.status.Keys && t.slots <= s.slots + {n}
    ensures Sets(t, st)
  {
    assert t.phase.Keys == s.phase.Keys + {n};
  }

  lemma ArriveCounts(s: State, t: State, n: NodeId)
    requires Counts(s) && n !in s.slots && n !in s.phase && Arrived(s, t, n)
    requires (t.active == s.active && t.slots == s.slots) || (t.active == s.active + 1 && t.slots == s.slots + {n})
    ensures Counts(t)
  {
    assert t.phase.Keys == s.phase.Keys + {n};
    assert |s.phase.Keys + {n}| == |s.phase.Keys| + 1 && |s.slots + {n}| == |s.slots| + 1;
  }

  lemma ArriveLimiter(s: State, t: State, n: NodeId)
    requires Limiter(s) && n !in s.phase && n !in s.submitted && Arrived(s, t, n)
    requires || (s.active < s.limit && t.active == s.active + 1 && t.queue == s.queue
                 && t.started == s.started + [n] && t.phase[n] == Dispatching)
             || (s.active >= s.limit && t.active == s.active && t.queue == s.queue + [n]
                 && t.started == s.started && t.phase[n] == Queued)
    ensures Limiter(t)
  {
    NoDupSnoc(s.submitted, n);
    assert t.submitted == t.started + t.queue;
  }

  lemma CoreParts(s: State, env: Env, st: Start, n: NodeId)
    requires Core(s, env, st) && n in s.status
    ensures Sets(s, st) && Counts(s) && Limiter(s) && NodeOk(s, env, st, n)
  {
  }

  lemma ArriveStartNode(s: State, env: Env, st: Start, n: NodeId)
    requires n in s.status && Ready(s, n) && Open(s, n) && n !in st.pre && n !in s.slots
    ensures var t := StartNode(Arrive(s, n), n);
            n in t.status && NodeOk(t, env, st, n) && forall m :: m != n ==> SameView(s, t, m)
  {
  }

  lemma ArriveStartCore(s: State, env: Env, st: Start, n: NodeId)
    requires Core(s, env, st) && n in s.status && Ready(s, n) && s.active < s.limit
    ensures Core(StartNode(Arrive(s, n), n), env, st)
  {
    hide Core, Sets, Counts, Limiter, NodeOk, SameView, Ready;
    CoreParts(s, env, st, n);
    SubmitFacts(s, env, st, n);
    var t := StartNode(Arrive(s, n), n);
    ArriveSets(s, t, st, n);
    ArriveCounts(s, t, n);
    ArriveLimiter(s, t, n);
    ArriveStartNode(s, env, st, n);
    CoreByNode(s, t, env, st, n);
  }

  lemma ArriveEnqueueNode(s: State, env: Env, st: Start, n: NodeId)
    requires n in s.status && Ready(s, n) && Open(s, n) && n !in st.pre && n !in s.slots
    ensures var t := Enqueue(Arrive(s, n), n);
            n in t.status && NodeOk(t, env, st, n) && forall m :: m != n ==> SameView(s, t, m)
  {
  }

  lemma ArriveEnqueueCore(s: State, env: Env, st: Start, n: NodeId)
    requires Core(s, env, st) && n in s.status && Ready(s, n) && s.active >= s.limit
    ensures Core(Enqueue(Arrive(s, n), n), env, st)
  {
    hide Core, Sets, Counts, Limiter, NodeOk, SameView, Ready;
    CoreParts(s, env, st, n);
    SubmitFacts(s, env, st, n);
    var t := Enqueue(Arrive(s, n), n);
    ArriveSets(s, t, st, n);
    ArriveCounts(s, t, n);
    ArriveLimiter(s, t, n);
    ArriveEnqueueNode(s, env, st, n);
    CoreByNode(s, t, env, st, n);
  }

  lemma SubmitCore(s: State, env: Env, st: Start, n: NodeId)
    requires Core(s, env, st) && n in s.status && Ready(s, n)
    ensures Core(Submit(s, n), env, st)
  {
    hide Core, StartNode, Enqueue, Arrive;
    if s.active < s.limit {
      ArriveStartCore(s, env, st, n);
    } else {
      ArriveEnqueueCore(s, env, st, n);
    }
  }

  /** What a scheduling pass leaves alone. */
  predicate SameOutcome(s: State, t: State) {
    && t.dag == s.dag && t.limit == s.limit && t.results == s.results && t.releases == s.releases
    && t.completed == s.completed && t.failed == s.failed
    && t.paymentFailed == s.paymentFailed && t.paymentFaults == s.paymentFaults
    && t.settled == s.settled && t.emitted == s.emitted
  }

  lemma SubmitFrame(s: State, n: NodeId)
    ensures SameOutcome(s, Submit(s, n))
    ensures Submit(s, n).submitted == s.submitted + [n]
    ensures Submit(s, n).inFlight == s.inFlight + 1
  {
    hide StartNode, Enqueue, Arrive;
    if s.active < s.limit {
      StartFrame(s, n);
    } else {
      EnqueueFrame(s, n);
    }
  }

  lemma StartFrame(s: State, n: NodeId)
    ensures var t := StartNode(Arrive(s, n), n);
            SameOutcome(s, t) && t.submitted == s.submitted + [n] && t.inFlight == s.inFlight + 1
  {
  }

  lemma EnqueueFrame(s: State, n: NodeId)
    ensures var t := Enqueue(Arrive(s, n), n);
            SameOutcome(s, t) && t.submitted == s.submitted + [n] && t.inFlight == s.inFlight + 1
  {
  }

  lemma OrderInStatus(s: State, env: Env, st: Start, i: nat)
    requires Core(s, env, st) && i < |s.dag.order|
    ensures s.dag.order[i] in s.status && s.status.Keys == s.dag.Ids()
  {
  }

  lemma {:induction false} ScheduleFromCore(s: State, env: Env, st: Start, i: nat)
    requires Core(s, env, st)
    ensures Core(ScheduleFrom(s, i), env, st)
    ensures SameOutcome(s, ScheduleFrom(s, i))
    ensures s.submitted <= ScheduleFrom(s, i).submitted
    ensures ScheduleFrom(s, i).inFlight - s.inFlight == |ScheduleFrom(s, i).submitted| - |s.submitted|
    decreases |s.dag.order| - i
  {
    hide Core, Submit, Ready;
    if i < |s.dag.order| {
      var n := s.dag.order[i];
      if Ready(s, n) {
        OrderInStatus(s, env, st, i);
        SubmitCore(s, env, st, n);
        SubmitFrame(s, n);
        ScheduleFromCore(Submit(s, n), env, st, i + 1);
      } else {
        ScheduleFromCore(s, env, st, i + 1);
      }
    }
  }

  lemma FailNodeParts(s: State, env: Env, st: Start, n: NodeId, deadlocked: bool)
    requires Sets(s, st) && Counts(s) && Limiter(s) && n in s.status && NodeOk(s, env, st, n)
    requires s.status[n] == Pending && Blocked(s, n, deadlocked)
    ensures var t := FailNode(s, n);
            Sets(t, st) && Counts(t) && Limiter(t) && n !in s.phase && NodeOk(t, env, st, n)
  {
  }

  lemma FailNodeOthers(s: State, n: NodeId)
    ensures forall m :: m != n ==> SameView(s, FailNode(s, n), m)
  {
  }

  lemma FailNodeCore(s: State, env: Env, st: Start, n: NodeId, deadlocked: bool)
    requires Core(s, env, st) && n in s.status
    requires s.status[n] == Pending && Blocked(s, n, deadlocked)
    ensures Core(FailNode(s, n), env, st) && n !in s.phase
  {
    hide Core, Sets, Counts, Limiter, NodeOk, SameView, Blocked;
    CoreParts(s, env, st, n);
    FailNodeParts(s, env, st, n, deadlocked);
    FailNodeOthers(s, n);
    CoreByNode(s, FailNode(s, n), env, st, n);
  }

  /** What a failing pass leaves alone. */
  predicate SameProgress(s: State, t: State) {
    && t.dag == s.dag && t.limit == s.limit && t.results == s.results && t.releases == s.releases
    && t.completed == s.completed && t.scheduled == s.scheduled && t.contexts == s.contexts
    && t.inFlight == s.inFlight && t.active == s.active && t.queue == s.queue
    && t.phase == s.phase && t.slots == s.slots
    && t.submitted == s.submitted && t.started == s.started
    && t.paymentFaults == s.paymentFaults && t.paymentFailed == s.paymentFailed
    && t.settled == s.settled && t.emitted == s.emitted
  }

  lemma {:induction false} FailFromCore(s: State, env: Env, st: Start, deadlocked: bool, i: nat)
    requires Core(s, env, st)
    ensures Core(FailFrom(s, deadlocked, i), env, st)
    ensures SameProgress(s, FailFrom(s, deadlocked, i))
    ensures s.failed <= FailFrom(s, deadlocked, i).failed
    decreases |s.dag.order| - i
  {
    hide Core, Blocked;
    if i < |s.dag.order| {
      var n := s.dag.order[i];
      if StatusOf(s, n) == Some(Pending) && Blocked(s, n, deadlocked) {
        FailNodeCore(s, env, st, n, deadlocked);
        FailFromCore(FailNode(s, n), env, st, deadlocked, i + 1);
      } else {
        FailFromCore(s, env, st, deadlocked, i + 1);
      }
    }
  }

  lemma FinishCore(s: State, env: Env, st: Start)
    requires Core(s, env, st)
    ensures Core(FinishIfSettled(s), env, st)
  {
    hide SameView, NodeOk;
    var t := FinishIfSettled(s);
    assert Limiter(t) by { assert forall m :: m in t.queue <==> At(s, m, Queued); }
    forall m | m in t.status ensures NodeOk(t, env, st, m) {
      assert SameView(s, t, m) by { SameViewRefl(s, t, m); }
      SameViewOk(s, t, env, st, m);
    }
  }

  lemma SameViewRefl(s: State, t: State, m: NodeId)
    requires t == s.(settled := t.settled, stored := t.stored, emitted := t.emitted, paymentFailed := t.paymentFailed)
    ensures SameView(s, t, m)
  {
  }

  lemma ScheduleReadyCore(s: State, env: Env, st: Start)
    requires Core(s, env, st)
    ensures Core(ScheduleReadyNodes(s), env, st)
  {
    hide Core, FinishIfSettled;
    ScheduleFromCore(s, env, st, 0);
    var t := ScheduleFrom(s, 0);
    FailFromCore(t, env, st, true, 0);
    FinishCore(FailFrom(t, true, 0), env, st);
  }

  // ------------------------------------------------------------------ the steps

  function Leave(s: State, n: NodeId): State {
    s.(inFlight := s.inFlight - 1, phase := s.phase - {n})
  }

  lemma LeaveParts(s: State, env: Env, st: Start, n: NodeId)
    requires Sets(s, st) && Counts(s) && Limiter(s) && n in s.status && NodeOk(s, env, st, n)
    requires At(s, n, Recorded)
    ensures var t := Leave(s, n); Sets(t, st) && Counts(t) && Limiter(t) && NodeOk(t, env, st, n)
  {
    assert Leave(s, n).phase.Keys == s.phase.Keys - {n};
  }

  lemma LeaveOthers(s: State, n: NodeId)
    ensures forall m :: m != n ==> SameView(s, Leave(s, n), m)
  {
  }

  lemma PhaseInStatus(s: State, env: Env, st: Start, n: NodeId)
    requires Core(s, env, st) && (n in s.phase || n in s.slots)
    ensures n in s.status
  {
    assert n in s.phase ==> n in s.phase.Keys;
  }

  lemma LeaveCore(s: State, env: Env, st: Start, n: NodeId)
    requires Core(s, env, st) && At(s, n, Recorded)
    ensures Core(Leave(s, n), env, st)
  {
    hide Core, Sets, Counts, Limiter, NodeOk, SameView;
    PhaseInStatus(s, env, st, n);
    CoreParts(s, env, st, n);
    LeaveParts(s, env, st, n);
    LeaveOthers(s, n);
    CoreByNode(s, Leave(s, n), env, st, n);
  }

  lemma DrainCore(s: State, env: Env, st: Start, n: NodeId)
    requires Core(s, env, st) && At(s, n, Recorded)
    ensures Core(DrainNode(s, n), env, st)
  {
    hide Core, FinishIfSettled, ScheduleReadyNodes;
    var t := Leave(s, n);
    LeaveCore(s, env, st, n);
    ScheduleReadyCore(t, env, st);
    FailFromCore(ScheduleReadyNodes(t), env, st, false, 0);
    FinishCore(FailFrom(ScheduleReadyNodes(t), false, 0), env, st);
  }

  lemma GiveBackCore(s: State, env: Env, st: Start, n: NodeId)
    requires Core(s, env, st) && Enabled(s, env, FreeSlot(n)) && s.queue == []
    ensures Core(GiveBack(s, n), env, st)
  {
    hide SameView, NodeOk;
    var t := GiveBack(s, n);
    PhaseInStatus(s, env, st, n);
    assert Sets(t, st) && Counts(t);
    assert Limiter(t) by { assert forall m :: m in t.queue <==> At(s, m, Queued); }
    GiveBackNodes(s, env, st, n);
    CoreByNode(s, t, env, st, n);
  }

  lemma GiveBackNodes(s: State, env: Env, st: Start, n: NodeId)
    requires n in s.status && NodeOk(s, env, st, n) && Enabled(s, env, FreeSlot(n))
    ensures NodeOk(GiveBack(s, n), env, st, n)
    ensures forall m :: m != n ==> SameView(s, GiveBack(s, n), m)
  {
  }

  /** The longest-waiting node is not yet started and waits nowhere else. */
  lemma QueueHead(s: State)
    requires Limiter(s) && s.queue != []
    ensures At(s, s.queue[0], Queued) && s.queue[0] !in s.started && s.queue[0] !in s.queue[1..]
    ensures s.started + [s.queue[0]] + s.queue[1..] == s.submitted
  {
    var q := s.queue[0];
    var k := |s.started|;
    assert q in s.queue;
    assert s.submitted[k] == q;
    forall i | 0 <= i < k ensures s.started[i] != q {
      assert s.submitted[i] == s.started[i];
    }
    forall i | 0 <= i < |s.queue[1..]| ensures s.queue[1..][i] != q {
      assert s.submitted[k + 1 + i] == s.queue[1..][i];
    }
  }

  lemma PopStartLimiter(s: State, g: State)
    requires Limiter(s) && s.queue != [] && s.queue[0] !in s.slots
    requires g.limit == s.limit && g.phase == s.phase && g.submitted == s.submitted && g.started == s.started
    requires g.queue == s.queue[1..] && g.active == s.active - 1
    ensures Limiter(StartNode(g, s.queue[0]))
  {
    QueueHead(s);
    var t := StartNode(g, s.queue[0]);
    assert s.queue == [s.queue[0]] + t.queue;
    forall m ensures m in t.queue <==> At(t, m, Queued) {
      assert m in s.queue <==> At(s, m, Queued);
    }
  }

  lemma PopStartSets(s: State, st: Start, n: NodeId, q: NodeId, rest: seq<NodeId>)
    requires Sets(s, st) && Counts(s) && q in s.phase && n in s.slots && q !in s.slots && q in s.status
    ensures var t := StartNode(GiveBack(s, n).(queue := rest), q); Sets(t, st) && Counts(t)
  {
    var t := StartNode(GiveBack(s, n).(queue := rest), q);
    assert t.phase.Keys == s.phase.Keys;
    assert |s.slots - {n}| == |s.slots| - 1;
    assert t.slots == (s.slots - {n}) + {q};
  }

  lemma PopStartNodes(s: State, env: Env, st: Start, n: NodeId, q: NodeId, rest: seq<NodeId>)
    requires n != q && n in s.status && NodeOk(s, env, st, n) && Enabled(s, env, FreeSlot(n))
    requires q in s.status && NodeOk(s, env, st, q) && At(s, q, Queued) && q in s.submitted
    ensures var t := StartNode(GiveBack(s, n).(queue := rest), q);
            NodeOk(t, env, st, n) && NodeOk(t, env, st, q) && forall m :: m != n && m != q ==> SameView(s, t, m)
  {
  }

  lemma FreeSlotCore(s: State, env: Env, st: Start, n: NodeId)
    requires Core(s, env, st) && Enabled(s, env, FreeSlot(n))
    ensures Core(FreeSlotOf(s, n), env, st)
  {
    hide Core, Sets, Counts, Limiter, NodeOk, SameView;
    PhaseInStatus(s, env, st, n);
    CoreParts(s, env, st, n);
    if s.queue == [] {
      GiveBackCore(s, env, st, n);
    } else {
      var q, rest := s.queue[0], s.queue[1..];
      QueueHead(s);
      PhaseInStatus(s, env, st, q);
      CoreParts(s, env, st, q);
      QueuedHasNoSlot(s, env, st, q);
      PopStartLimiter(s, GiveBack(s, n).(queue := rest));
      PopStartSets(s, st, n, q, rest);
      PopStartNodes(s, env, st, n, q, rest);
      CoreByTwoNodes(s, FreeSlotOf(s, n), env, st, n, q);
    }
  }

  lemma QueuedHasNoSlot(s: State, env: Env, st: Start, q: NodeId)
    requires q in s.status && NodeOk(s, env, st, q) && At(s, q, Queued) && q !in s.started
    ensures q !in s.slots && q in s.submitted
  {
  }

  lemma CoreByTwoNodes(s: State, t: State, env: Env, st: Start, n: NodeId, q: NodeId)
    requires Core(s, env, st)
    requires Sets(t, st) && Counts(t) && Limiter(t)
    requires t.dag == s.dag && s.completed <= t.completed
    requires n in t.status ==> NodeOk(t, env, st, n)
    requires q in t.status ==> NodeOk(t, env, st, q)
    requires forall m :: m != n && m != q ==> SameView(s, t, m)
    ensures Core(t, env, st)
  {
    assert Core(s, env, st);
    hide Sets, Counts, Limiter, SameView, NodeOk;
    forall m | m in t.status && m != n && m != q ensures NodeOk(t, env, st, m) {
      assert SameView(s, t, m);
      SameViewStatus(s, t, m);
      SameViewOk(s, t, env, st, m);
    }
  }

  /** A step of runNode: only node `n`'s own status and phase move. */
  ghost predicate OnlyNode(s: State, t: State, n: NodeId) {
    && t.dag == s.dag && t.limit == s.limit
    && t.scheduled == s.scheduled && t.inFlight == s.inFlight
    && t.active == s.active && t.queue == s.queue && t.slots == s.slots
    && t.submitted == s.submitted && t.started == s.started
    && n in s.phase && n in t.phase && s.phase[n] != Queued && t.phase[n] != Queued
    && t.phase == s.phase[n := t.phase[n]]
    && n in s.status && n in t.status && t.status == s.status[n := t.status[n]]
    && s.completed <= t.completed <= s.completed + {n}
    && s.failed <= t.failed <= s.failed + {n}
  }

  lemma OnlyNodeParts(s: State, t: State, st: Start, n: NodeId)
    requires Sets(s, st) && Counts(s) && Limiter(s) && OnlyNode(s, t, n) && t.completed !! t.failed
    ensures Sets(t, st) && Counts(t) && Limiter(t)
    ensures forall m :: m != n ==> SameView(s, t, m)
  {
    assert t.phase.Keys == s.phase.Keys;
    assert n in s.phase.Keys;
    forall m ensures m in t.queue <==> At(t, m, Queued) {
      assert m in s.queue <==> At(s, m, Queued);
    }
  }

  predicate InRun(step: Step) { !step.FreeSlot? && !step.Drain? }

  lemma InRunOnlyNode(s: State, env: Env, step: Step)
    requires InRun(step) && Enabled(s, env, step) && step.n in s.status
    ensures OnlyNode(s, Apply(s, step), step.n)
  {
    hide RecordNode, FailInRun;
    if step.Record? {
      RecordOnlyNode(s, step.n, At(s, step.n, Returned(true)));
    } else if step.DispatchFails? || step.FaultBeforeRelease? || step.FaultAfterRelease? {
      FailOnlyNode(s, step.n);
    }
  }

  lemma RecordOnlyNode(s: State, n: NodeId, ok: bool)
    requires n in s.phase && n in s.status && s.phase[n] != Queued
    ensures OnlyNode(s, RecordNode(s, n, ok), n)
  {
  }

  lemma FailOnlyNode(s: State, n: NodeId)
    requires n in s.phase && n in s.status && s.phase[n] != Queued
    ensures OnlyNode(s, FailInRun(s, n), n)
  {
  }

  lemma RecordNodeOk(s: State, env: Env, st: Start, n: NodeId)
    requires n in s.phase && s.phase[n].Returned? && n in s.status && NodeOk(s, env, st, n)
    requires s.completed !! s.failed
    ensures var t := RecordNode(s, n, At(s, n, Returned(true)));
            NodeOk(t, env, st, n) && t.completed !! t.failed
  {
  }

  lemma FailNodeOk(s: State, env: Env, st: Start, n: NodeId)
    requires n in s.phase && n in s.status && NodeOk(s, env, st, n)
    requires s.phase[n] in {Dispatching, Stored, Paying} && n !in env.succeeds
    ensures NodeOk(FailInRun(s, n), env, st, n)
  {
  }

  lemma CompleteNodeOk(s: State, env: Env, st: Start, n: NodeId, r: Option<string>)
    requires n in s.status && NodeOk(s, env, st, n) && Enabled(s, env, Complete(n, r))
    ensures NodeOk(Apply(s, Complete(n, r)), env, st, n)
  {
  }

  lemma OtherNodeOk(s: State, env: Env, st: Start, step: Step)
    requires step.Throws? || step.CallRelease? || step.Released? || step.ReleaseFails?
    requires step.n in s.status && NodeOk(s, env, st, step.n) && Enabled(s, env, step)
    ensures NodeOk(Apply(s, step), env, st, step.n)
  {
  }

  lemma InRunNode(s: State, env: Env, st: Start, step: Step)
    requires InRun(step) && Enabled(s, env, step) && step.n in s.status && NodeOk(s, env, st, step.n)
    requires s.completed !! s.failed
    ensures OnlyNode(s, Apply(s, step), step.n)
    ensures NodeOk(Apply(s, step), env, st, step.n)
    ensures Apply(s, step).completed !! Apply(s, step).failed
  {
    InRunOnlyNode(s, env, step);
    hide NodeOk, OnlyNode, RecordNode, FailInRun;
    match step
    case Complete(n, r) => CompleteNodeOk(s, env, st, n, r);
    case Record(n) => RecordNodeOk(s, env, st, n);
    case DispatchFails(n) => FailNodeOk(s, env, st, n); FailSets(s, n);
    case FaultBeforeRelease(n) => FailNodeOk(s, env, st, n); FailSets(s, n);
    case FaultAfterRelease(n) => FailNodeOk(s, env, st, n); FailSets(s, n);
    case _ => OtherNodeOk(s, env, st, step);
  }

  lemma FailSets(s: State, n: NodeId)
    ensures FailInRun(s, n).completed == s.completed && FailInRun(s, n).failed == s.failed
  {
  }

  lemma InRunCore(s: State, env: Env, st: Start, step: Step)
    requires Core(s, env, st) && Enabled(s, env, step) && InRun(step)
    ensures Core(Apply(s, step), env, st)
  {
    hide Core, Sets, Counts, Limiter, NodeOk, SameView, Apply;
    PhaseInStatus(s, env, st, step.n);
    CoreParts(s, env, st, step.n);
    assert s.completed !! s.failed by { Disjoint(s, st); }
    InRunNode(s, env, st, step);
    OnlyNodeParts(s, Apply(s, step), st, step.n);
    CoreByNode(s, Apply(s, step), env, st, step.n);
  }

  lemma Disjoint(s: State, st: Start)
    requires Sets(s, st)
    ensures s.completed !! s.failed
  {
  }

  /** Every enabled step keeps the invariant. */
  lemma StepKeepsCore(s: State, env: Env, st: Start, step: Step)
    requires Core(s, env, st) && Enabled(s, env, step)
    ensures Core(Apply(s, step), env, st)
  {
    hide Core, FreeSlotOf, DrainNode;
    match step
    case FreeSlot(n) => FreeSlotCore(s, env, st, n);
    case Drain(n) => DrainCore(s, env, st, n);
    case _ => InRunCore(s, env, st, step);
  }

  /** The start parameters a stored status map gives. */
  ghost function StartOf(dag: Dag, status: map<NodeId, Status>): Start {
    Start(set n | n in dag.Ids() && n in status && status[n] == Completed,
          set n | n in dag.Ids() && n in status && status[n] in {Running, Failed})
  }

  ghost predicate ValidStart(dag: Dag, limit: nat, status: map<NodeId, Status>) {
    dag.Valid() && limit >= 1 && status.Keys == dag.Ids()
  }

  /** Every node starts pending or completed. */
  ghost predicate FreshStart(dag: Dag, limit: nat, status: map<NodeId, Status>) {
    && ValidStart(dag, limit, status)
    && forall n :: n in status ==> status[n] in {Pending, Completed}
  }

  lemma FreshCore(dag: Dag, limit: nat, status: map<NodeId, Status>, results: map<NodeId, string>,
                  releases: multiset<NodeId>, env: Env)
    requires ValidStart(dag, limit, status)
    ensures Core(Fresh(dag, limit, status, results, releases), env, StartOf(dag, status))
  {
    var s := Fresh(dag, limit, status, results, releases);
    assert Elems<NodeId>([]) == {};
    forall m | m in s.status ensures NodeOk(s, env, StartOf(dag, status), m) {
    }
  }

  lemma BeginCore(dag: Dag, limit: nat, status: map<NodeId, Status>, results: map<NodeId, string>,
                  releases: multiset<NodeId>, env: Env)
    requires ValidStart(dag, limit, status)
    ensures Core(Begin(dag, limit, status, results, releases), env, StartOf(dag, status))
  {
    FreshCore(dag, limit, status, results, releases, env);
    ScheduleReadyCore(Fresh(dag, limit, status, results, releases), env, StartOf(dag, status));
  }
}
