/** The executor's own code: the concurrency limiter and one DAG run, updated in place. */
module DagExecutor {
  import opened Common
  import opened DagModel
  import opened DagInvariant
  import opened DagTrace

  class ConcurrencyLimiter {
    const limit: nat
    var queue: seq<NodeId>
    var active: int

    constructor (limit: nat)
      ensures this.limit == limit && queue == [] && active == 0
    {
      this.limit := limit;
      queue := [];
      active := 0;
    }

    /** Hand work to the limiter. True: it starts now; false: it waits its turn. */
    method Run(n: NodeId) returns (startsNow: bool)
      modifies this
      ensures startsNow <==> old(active) < limit
      ensures startsNow ==> active == old(active) + 1 && queue == old(queue)
      ensures !startsNow ==> active == old(active) && queue == old(queue) + [n]
    {
      if active < limit {
        active := active + 1;
        return true;
      }
      queue := queue + [n];
      return false;
    }

    /** A piece of work settled: give its slot to the longest-waiting one, if any. */
    method Done() returns (next: Option<NodeId>)
      modifies this
      ensures old(queue) == [] ==> next == None && queue == [] && active == old(active) - 1
      ensures old(queue) != [] ==> next == Some(old(queue)[0]) && queue == old(queue)[1..] && active == old(active)
    {
      active := active - 1;
      if queue == [] {
        return None;
      }
      next := Some(queue[0]);
      queue := queue[1..];
      active := active + 1;
    }
  }

  /** What differs between two states in the variables the executor keeps. */
  ghost predicate Wrote(s: State, t: State, status: map<NodeId, Status>, stored: map<NodeId, Status>,
                        results: map<NodeId, string>, contexts: map<NodeId, seq<string>>, failed: set<NodeId>) {
    && t.status == status && t.stored == stored && t.results == results && t.contexts == contexts && t.failed == failed
    && t.completed == s.completed && t.scheduled == s.scheduled && t.inFlight == s.inFlight
    && t.paymentFailed == s.paymentFailed && t.settled == s.settled && t.emitted == s.emitted
    && t.dag == s.dag && t.limit == s.limit
  }

  /** Every node of the DAG, and nothing else, has a status. */
  ghost predicate Shaped(dag: Dag, status: map<NodeId, Status>) { dag.Valid() && status.Keys == dag.deps.Keys }

  lemma StillShaped(dag: Dag, status: map<NodeId, Status>, n: NodeId, v: Status)
    requires Shaped(dag, status) && n in dag.deps
    ensures Shaped(dag, status[n := v])
  {
    assert status[n := v].Keys == status.Keys;
  }

  lemma StartVariables(s: State, n: NodeId)
    ensures Wrote(s, StartNode(s, n), s.status[n := Running], s.stored[n := Running], s.results,
                  s.contexts[n := ContextOf(DepsOf(s, n), s.results)], s.failed)
  {
  }

  lemma CompleteVariables(s: State, n: NodeId, r: Option<string>)
    ensures Wrote(s, Apply(s, Complete(n, r)), s.status[n := Completed], s.stored[n := Completed],
                  if r.Some? then s.results[n := r.value] else s.results - {n}, s.contexts, s.failed)
    ensures Apply(s, Complete(n, r)).active == s.active && Apply(s, Complete(n, r)).queue == s.queue
  {
  }

  lemma FailVariables(s: State, n: NodeId)
    ensures Wrote(s, FailNode(s, n), s.status[n := Failed], s.stored[n := Failed], s.results, s.contexts,
                  s.failed + {n})
    ensures FailNode(s, n).active == s.active && FailNode(s, n).queue == s.queue
  {
  }

  /** The run's own variables. `model` is the state they stand for: Valid() says each variable agrees
      with it; the positions of promises and the logs live in `model` only. */
  class DagRun {
    const dag: Dag
    const limiter: ConcurrencyLimiter
    var status: map<NodeId, Status>
    var stored: map<NodeId, Status>
    var results: map<NodeId, string>
    var contexts: map<NodeId, seq<string>>
    var completed: set<NodeId>
    var failed: set<NodeId>
    var scheduled: set<NodeId>
    var inFlight: int
    var paymentFailed: bool
    var settled: bool
    var emitted: seq<TaskStatus>
    ghost var model: State

    ghost predicate Valid()
      reads this, limiter
    {
      && Shaped(dag, status) && model.dag == dag && SameVariables(model) && SameLimiter(model)
    }

    ghost predicate SameVariables(s: State)
      reads this
    {
      && status == s.status && stored == s.stored && results == s.results && contexts == s.contexts
      && completed == s.completed && failed == s.failed && scheduled == s.scheduled && inFlight == s.inFlight
      && paymentFailed == s.paymentFailed && settled == s.settled && emitted == s.emitted
    }

    ghost predicate SameLimiter(s: State)
      reads this, limiter
    {
      limiter.limit == s.limit && limiter.active == s.active && limiter.queue == s.queue
    }

    constructor (dag: Dag, limiter: ConcurrencyLimiter, status: map<NodeId, Status>, results: map<NodeId, string>,
                 ghost releases: multiset<NodeId>)
      requires dag.Valid() && status.Keys == dag.deps.Keys
      requires limiter.active == 0 && limiter.queue == []
      ensures Valid() && this.dag == dag && this.limiter == limiter
      ensures model == Fresh(dag, limiter.limit, status, results, releases)
      ensures this.status == stored == status && this.results == results && contexts == map[]
      ensures completed == scheduled == (set n | n in dag.deps && status[n] == Completed) && failed == {}
      ensures inFlight == 0 && !paymentFailed && !settled && emitted == [] && model.releases == releases
    {
      this.dag, this.limiter := dag, limiter;
      this.status, this.stored, this.results, this.contexts := status, status, results, map[];
      this.inFlight, this.paymentFailed, this.settled, this.emitted := 0, false, false, [];
      this.model := Fresh(dag, limiter.limit, status, results, releases);
      // Nodes completed by an earlier attempt count as done.
      var done: set<NodeId> := {};
      for i := 0 to |dag.order|
        invariant done == set n | n in dag.order[..i] && n in status && status[n] == Completed
      {
        var n := dag.order[i];
        assert dag.order[..i + 1] == dag.order[..i] + [n];
        assert n in dag.Ids();
        if status[n] == Completed {
          done := done + {n};
        }
      }
      assert dag.order[..|dag.order|] == dag.order;
      assert done == set n | n in dag.Ids() && n in status && status[n] == Completed;
      this.completed, this.failed, this.scheduled := done, {}, done;
    }

    /** The defined results of the dependencies, in order. */
    method Context(deps: seq<NodeId>) returns (parts: seq<string>)
      ensures parts == ContextOf(deps, results) && Delivers(deps, results, parts)
    {
      ContextDelivers(deps, results);
      parts := [];
      var i := |deps|;
      while i > 0
        invariant 0 <= i <= |deps|
        invariant parts == ContextOf(deps[i..], results)
      {
        i := i - 1;
        assert deps[i..][1..] == deps[i + 1..];
        if deps[i] in results {
          parts := [results[deps[i]]] + parts;
        }
      }
    }

    /** runNode up to its first await; the limiter has handed `n` a slot. */
    method StartWork(n: NodeId)
      requires Shaped(dag, status) && model.dag == dag && n in dag.deps
      requires SameVariables(model) && SameLimiter(StartNode(model, n))
      modifies `status, `stored, `contexts, `model
      ensures Valid() && model == StartNode(old(model), n)
      ensures status == old(status)[n := Running] && stored == old(stored)[n := Running]
      ensures n in contexts && contexts == old(contexts)[n := contexts[n]] && Delivers(dag.deps[n], results, contexts[n])
    {
      hide StartNode, Shaped, ContextOf, Delivers;
      StillShaped(dag, status, n, Running);
      StartVariables(model, n);
      status := status[n := Running];
      stored := stored[n := Running];
      var context := Context(dag.deps[n]);
      contexts := contexts[n := context];
      model := StartNode(model, n);
    }

    method SubmitNode(n: NodeId)
      requires Valid() && n in dag.deps
      modifies this, limiter
      ensures Valid() && model == Submit(old(model), n)
    {
      scheduled := scheduled + {n};
      inFlight := inFlight + 1;
      model := Arrive(model, n);
      var startsNow := limiter.Run(n);
      if startsNow {
        StartWork(n);
      } else {
        model := Enqueue(model, n);
      }
    }

    method ScheduleReady()
      requires Valid()
      modifies this, limiter
      ensures Valid() && model == ScheduleReadyNodes(old(model))
    {
      hide Submit, FinishIfSettled;
      var scheduledAny := false;
      var i := 0;
      while i < |dag.order|
        invariant 0 <= i <= |dag.order| && Valid()
        invariant ScheduleFrom(model, i) == ScheduleFrom(old(model), 0)
        invariant scheduledAny <==> |model.submitted| > |old(model).submitted|
        invariant |model.submitted| >= |old(model).submitted|
      {
        var n := dag.order[i];
        assert n in dag.Ids();
        if status[n] == Pending && n !in scheduled && forall d :: d in dag.deps[n] ==> d in completed {
          assert Ready(model, n);
          SubmitFrame(model, n);
          scheduledAny := true;
          SubmitNode(n);
        } else {
          assert !Ready(model, n);
        }
        i := i + 1;
      }
      if !scheduledAny && inFlight == 0 {
        FailBlocked(true);
        Finish();
      }
    }

    method FailBlocked(includeDeadlocked: bool)
      requires Valid()
      modifies `status, `stored, `failed, `model
      ensures Valid() && model == FailFrom(old(model), includeDeadlocked, 0)
    {
      var i := 0;
      while i < |dag.order|
        invariant 0 <= i <= |dag.order| && Valid()
        invariant FailFrom(model, includeDeadlocked, i) == FailFrom(old(model), includeDeadlocked, 0)
      {
        var n := dag.order[i];
        assert n in dag.Ids();
        if status[n] == Pending {
          FailIfBlocked(n, includeDeadlocked);
        }
        i := i + 1;
      }
    }

    method FailIfBlocked(n: NodeId, includeDeadlocked: bool)
      requires Valid() && n in dag.deps
      modifies `status, `stored, `failed, `model
      ensures Valid()
      ensures model == if Blocked(old(model), n, includeDeadlocked) then FailNode(old(model), n) else old(model)
    {
      hide Blocked, FailNode, Shaped;
      StillShaped(dag, status, n, Failed);
      FailVariables(model, n);
      var blocked := IsBlocked(n, includeDeadlocked);
      if blocked {
        status := status[n := Failed];
        failed := failed + {n};
        stored := stored[n := Failed];
        model := FailNode(model, n);
      }
    }

    method IsBlocked(n: NodeId, includeDeadlocked: bool) returns (blocked: bool)
      requires Valid() && n in dag.deps
      ensures blocked <==> Blocked(model, n, includeDeadlocked)
      ensures blocked <==>
                || (exists d :: d in dag.deps[n] && (d in failed || d !in dag.order))
                || (includeDeadlocked && inFlight == 0 && exists d :: d in dag.deps[n] && d !in completed)
    {
      var hasFailedDependency := exists d :: d in dag.deps[n] && d in failed;
      var hasUnresolvedDependency := exists d :: d in dag.deps[n] && d !in dag.Ids();
      var isDeadlocked := includeDeadlocked && inFlight == 0 && !forall d :: d in dag.deps[n] ==> d in completed;
      blocked := hasFailedDependency || hasUnresolvedDependency || isDeadlocked;
      assert forall d :: d in dag.Ids() <==> d in dag.order;
    }

    method Finish()
      requires Valid()
      modifies `settled, `emitted, `stored, `paymentFailed, `model
      ensures Valid() && model == FinishIfSettled(old(model))
      ensures old(settled) || |completed| + |failed| != |dag.order| ==>
                settled == old(settled) && emitted == old(emitted) && stored == old(stored) && paymentFailed == old(paymentFailed)
      ensures !old(settled) && |completed| + |failed| == |dag.order| ==>
                && settled && stored == status && !paymentFailed
                && emitted == old(emitted) + [if failed != {} then TaskFailed
                                              else if old(paymentFailed) then TaskPaymentFailed else TaskCompleted]
    {
      if settled || |completed| + |failed| != |dag.order| {
        return;
      }
      settled := true;
      emitted := emitted +
        [if failed != {} then TaskFailed else if paymentFailed then TaskPaymentFailed else TaskCompleted];
      stored := status;
      paymentFailed := false;
      model := FinishIfSettled(model);
    }

    // ---------------------------------------------------------------- one method a step

    /** The agent answered: write the completion and its result. */
    method CompleteNode(n: NodeId, result: Option<string>)
      requires Valid() && At(model, n, Dispatching) && n in dag.deps
      modifies `status, `stored, `results, `model
      ensures Valid() && model == Apply(old(model), Complete(n, result))
      ensures status == old(status)[n := Completed] && stored == old(stored)[n := Completed]
      ensures results == if result.Some? then old(results)[n := result.value] else old(results) - {n}
    {
      CompleteVariables(model, n, result);
      ghost var goal := Apply(model, Complete(n, result));
      hide Apply, Shaped;
      StillShaped(dag, status, n, Completed);
      status := status[n := Completed];
      results := if result.Some? then results[n := result.value] else results - {n};
      stored := stored[n := Completed];
      model := goal;
    }

    /** The catch block of runNode, whatever threw. */
    method CatchError(n: NodeId)
      requires Valid() && n in dag.deps
      modifies `status, `stored, `model
      ensures Valid() && model == FailInRun(old(model), n)
      ensures status == old(status)[n := Failed] && stored == old(stored)[n := Failed]
    {
      status := status[n := Failed];
      stored := stored[n := Failed];
      model := FailInRun(model, n);
    }

    /** The release call settled. */
    method PaymentSettled(n: NodeId, ok: bool)
      requires Valid() && At(model, n, Paying)
      modifies `paymentFailed, `model
      ensures Valid() && model == Apply(old(model), if ok then Released(n) else ReleaseFails(n))
      ensures paymentFailed <==> old(paymentFailed) || !ok
      ensures model.paymentFaults == old(model).paymentFaults + (if ok then {} else {n}) && At(model, n, Returned(true))
    {
      if !ok {
        paymentFailed := true;
      }
      model := Apply(model, if ok then Released(n) else ReleaseFails(n));
    }

    method RecordResult(n: NodeId, ok: bool)
      requires Valid() && At(model, n, Returned(ok))
      modifies `completed, `failed, `model
      ensures Valid() && model == Apply(old(model), Record(n))
      ensures completed == old(completed) + (if ok then {n} else {}) && failed == old(failed) + (if ok then {} else {n})
    {
      if ok {
        completed := completed + {n};
      } else {
        failed := failed + {n};
      }
      model := RecordNode(model, n, ok);
    }

    /** The limiter's own finally: give the slot back and start the next node. */
    method SlotFreed(n: NodeId)
      requires Valid() && n in model.slots
      requires limiter.queue != [] ==> limiter.queue[0] in dag.deps
      modifies this, limiter
      ensures Valid() && model == FreeSlotOf(old(model), n)
      ensures old(limiter.queue) == [] ==> limiter.active == old(limiter.active) - 1 && status == old(status) && limiter.queue == []
      ensures old(limiter.queue) != [] ==>
                && limiter.active == old(limiter.active) && limiter.queue == old(limiter.queue)[1..]
                && status == old(status)[old(limiter.queue)[0] := Running]
    {
      model := GiveBack(model, n);
      var next := limiter.Done();
      match next {
        case None =>
        case Some(q) =>
          model := model.(queue := model.queue[1..]);
          StartWork(q);
      }
    }

    /** The finally of a scheduled node. */
    method DrainFinished(n: NodeId)
      requires Valid() && At(model, n, Recorded)
      modifies this, limiter
      ensures Valid() && model == DrainNode(old(model), n)
    {
      hide ScheduleReadyNodes, FinishIfSettled;
      inFlight := inFlight - 1;
      model := model.(inFlight := model.inFlight - 1, phase := model.phase - {n});
      ScheduleReady();
      FailBlocked(false);
      Finish();
    }
  }
}
