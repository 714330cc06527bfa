/** The pool's own code: acquire, release, timeouts, close, and the serialised writer. */
module Pool {
  import opened Common
  import opened PoolModel
  import WriteQueue

  datatype Acquired = Got(handle: Handle) | Queued | Closed | CannotOpen

  function DropSettled(waiters: seq<Call>, settled: set<Call>): seq<Call> {
    if waiters != [] && waiters[0] in settled then DropSettled(waiters[1..], settled) else waiters
  }

  /** Taking a call out of the queue leaves the others in order. */
  lemma {:induction false} WithoutAt(waiters: seq<Call>, c: Call, i: nat)
    requires i < |waiters| && waiters[i] == c && c !in waiters[..i]
    ensures Without(waiters, c) == waiters[..i] + waiters[i + 1..]
  {
    if i > 0 {
      assert waiters[..i][0] == waiters[0];
      assert waiters[1..][..i - 1] == waiters[..i][1..];
      WithoutAt(waiters[1..], c, i - 1);
      assert waiters[1..][i..] == waiters[i + 1..];
      assert waiters[..i] == [waiters[0]] + waiters[1..][..i - 1];
    }
  }

  /** `t` is `s` with these variables. */
  ghost predicate Wrote(s: State, t: State, idle: seq<Handle>, waiters: seq<Call>, open: int, active: int,
                        outcome: map<Call, Outcome>, nextHandle: Handle) {
    && t.idle == idle && t.waiters == waiters && t.open == open && t.active == active && t.outcome == outcome
    && t.nextHandle == nextHandle && t.min == s.min && t.max == s.max && t.closed == s.closed && t.nextCall == s.nextCall
  }

  lemma AcquireClosed(s: State, call: Call, bad: set<Handle>, opens: bool)
    requires s.closed
    ensures Wrote(s, AcquireAs(s, call, bad, opens), s.idle, s.waiters, s.open, s.active,
                  s.outcome[call := Rejected], s.nextHandle)
  {
  }

  lemma AcquireIdle(s: State, call: Call, bad: set<Handle>, opens: bool)
    requires !s.closed && Drained(s.idle, bad) != []
    ensures var left := Drained(s.idle, bad);
            Wrote(s, AcquireAs(s, call, bad, opens), left[..|left| - 1], s.waiters, s.open - (|s.idle| - |left|),
                  s.active + 1, s.outcome[call := Served(left[|left| - 1])], s.nextHandle)
  {
  }

  lemma AcquireFresh(s: State, call: Call, bad: set<Handle>, opens: bool)
    requires !s.closed && Drained(s.idle, bad) == [] && s.open - |s.idle| < s.max
    ensures if opens then
              Wrote(s, AcquireAs(s, call, bad, opens), [], s.waiters, s.open - |s.idle| + 1, s.active + 1,
                    s.outcome[call := Served(s.nextHandle)], s.nextHandle + 1)
            else Wrote(s, AcquireAs(s, call, bad, opens), [], s.waiters, s.open - |s.idle|, s.active,
                       s.outcome[call := OpenFailed], s.nextHandle)
  {
  }

  lemma AcquireQueued(s: State, call: Call, bad: set<Handle>, opens: bool)
    requires !s.closed && Drained(s.idle, bad) == [] && s.open - |s.idle| >= s.max
    ensures Wrote(s, AcquireAs(s, call, bad, opens), [], s.waiters + [call], s.open - |s.idle|, s.active,
                  s.outcome, s.nextHandle)
  {
  }

  /** The handle at `p` is the topmost idle one that answers its ping. */
  predicate TopHealthy(idle: seq<Handle>, bad: set<Handle>, p: int) {
    0 <= p < |idle| && idle[p] !in bad && forall q :: p < q < |idle| ==> idle[q] in bad
  }

  lemma {:induction false} DrainedIs(idle: seq<Handle>, bad: set<Handle>)
    ensures forall p :: TopHealthy(idle, bad, p) ==> 0 <= p < |idle| && Drained(idle, bad) == idle[..p + 1]
    ensures (forall h :: h in idle ==> h in bad) ==> Drained(idle, bad) == []
  {
    if idle != [] && idle[|idle| - 1] in bad {
      var front := idle[..|idle| - 1];
      DrainedIs(front, bad);
      forall p | TopHealthy(idle, bad, p) ensures Drained(idle, bad) == idle[..p + 1] {
        assert TopHealthy(front, bad, p) && front[..p + 1] == idle[..p + 1];
      }
    } else {
      forall p | TopHealthy(idle, bad, p) ensures p == |idle| - 1 { }
      assert idle != [] ==> idle[|idle| - 1] in idle;
      assert idle[..|idle|] == idle;
    }
  }

  class SqlitePool {
    const min: nat
    const max: nat
    var idle: seq<Handle>
    var waiters: seq<Call>
    var settled: set<Call>               // the `settled` flag of each call's waiter
    var openReaders: int
    var activeReaders: int
    var closed: bool
    var nextCall: Call                   // stands for the identity of a promise
    var nextHandle: Handle               // stands for the identity of a connection
    ghost var model: State

    var writing: bool
    var writeQueue: seq<nat>
    ghost var writes: WriteQueue.State

    ghost predicate Valid()
      reads this
    {
      && model.min == min && model.max == max && model.idle == idle && model.waiters == waiters
      && model.open == openReaders && model.active == activeReaders && model.closed == closed
      && model.outcome.Keys == settled && model.nextCall == nextCall && model.nextHandle == nextHandle
    }

    /** No queued waiter is settled: a timeout takes its waiter out of the queue. */
    ghost predicate NoneSettled()
      reads this
    {
      forall c :: c in waiters ==> c !in settled
    }

    /** The writer's variables are those of its model, which keeps its invariant. */
    ghost predicate Writer()
      reads this
    {
      && writes.closed == closed && writes.writing == writing && writes.queue == writeQueue
      && WriteQueue.Inv(writes)
    }

    constructor (min: nat, max: nat)
      ensures Valid() && NoneSettled() && Writer() && model == Warm(min, max)
      ensures writes == WriteQueue.EMPTY
    {
      this.min, this.max := min, max;
      waiters, settled, openReaders, activeReaders, closed := [], {}, 0, 0, false;
      writing, writeQueue, writes := false, [], WriteQueue.EMPTY;
      nextCall, nextHandle := 0, 0;
      model := Warm(min, max);
      idle := [];
      new;
      for i := 0 to min
        invariant idle == seq(i, k => k) && openReaders == nextHandle == i && nextCall == 0 && activeReaders == 0 && !closed
        invariant waiters == [] && settled == {} && model == Warm(min, max)
        invariant !writing && writeQueue == [] && writes == WriteQueue.EMPTY
      {
        idle := idle + [nextHandle];
        nextHandle := nextHandle + 1;
        openReaders := openReaders + 1;
      }
    }

    /** Lend an idle handle that answers a ping, else open one, else queue. */
    method Acquire(bad: set<Handle>, opens: bool) returns (r: Acquired)
      requires Valid()
      modifies `idle, `waiters, `settled, `openReaders, `activeReaders, `nextCall, `nextHandle, `model
      ensures Valid() && model == Apply(old(model), Step.Acquire(bad, opens))
      ensures r.Got? ==> old(model).nextCall in model.outcome && model.outcome[old(model).nextCall] == Served(r.handle)
      ensures r == Queued ==> waiters == old(waiters) + [old(model).nextCall]
      ensures r != Queued ==> waiters == old(waiters) && settled == old(settled) + {old(nextCall)}
      ensures r == Queued ==> settled == old(settled) && activeReaders == old(activeReaders)
      ensures old(closed) ==> r == Closed && idle == old(idle) && openReaders == old(openReaders) && activeReaders == old(activeReaders)
      ensures forall p :: !old(closed) && TopHealthy(old(idle), bad, p) ==>
                && r == Got(old(idle)[p]) && idle == old(idle)[..p]
                && openReaders == old(openReaders) - (|old(idle)| - 1 - p) && activeReaders == old(activeReaders) + 1
      ensures !old(closed) && (forall h :: h in old(idle) ==> h in bad) ==>
                var left := old(openReaders) - |old(idle)|;
                && idle == []
                && (left < max && opens ==> r == Got(old(nextHandle)) && openReaders == left + 1 && activeReaders == old(activeReaders) + 1)
                && (left < max && !opens ==> r == CannotOpen && openReaders == left && activeReaders == old(activeReaders))
                && (left >= max ==> r == Queued && openReaders == left)
    {
      DrainedIs(idle, bad);
      hide Drained, AcquireAs, TopHealthy;
      var call := nextCall;
      nextCall := nextCall + 1;
      ghost var s := model.(nextCall := call + 1);
      model := AcquireAs(s, call, bad, opens);
      if closed {
        AcquireClosed(s, call, bad, opens);
        settled := settled + {call};
        return Closed;
      }
      var healthy := TakeHealthy(bad);
      if healthy.Some? {
        AcquireIdle(s, call, bad, opens);
        activeReaders := activeReaders + 1;
        settled := settled + {call};
        return Got(healthy.value);
      }
      if openReaders < max {
        AcquireFresh(s, call, bad, opens);
        settled := settled + {call};
        if !opens {
          return CannotOpen;
        }
        openReaders := openReaders + 1;
        activeReaders := activeReaders + 1;
        nextHandle := nextHandle + 1;
        return Got(nextHandle - 1);
      }
      AcquireQueued(s, call, bad, opens);
      waiters := waiters + [call];
      return Queued;
    }

    /** Pop idle handles, discarding those that fail their health check, up to a healthy one. */
    method TakeHealthy(bad: set<Handle>) returns (h: Option<Handle>)
      modifies `idle, `openReaders
      ensures var left := Drained(old(idle), bad);
              && openReaders == old(openReaders) - (|old(idle)| - |left|)
              && (left == [] ==> h == None && idle == [])
              && (left != [] ==> h == Some(left[|left| - 1]) && idle == left[..|left| - 1])
    {
      while idle != []
        invariant Drained(idle, bad) == Drained(old(idle), bad) && openReaders - |idle| == old(openReaders) - |old(idle)|
        decreases |idle|
      {
        var db := idle[|idle| - 1];
        idle := idle[..|idle| - 1];
        if db !in bad {
          return Some(db);
        }
        openReaders := openReaders - 1;
      }
      return None;
    }

    /** The waiter's timer: leave the queue unless already settled. */
    method TimedOut(call: Call)
      requires Valid() && NoneSettled() && (call !in settled ==> call in waiters)
      modifies `waiters, `settled, `model
      ensures Valid() && model == if call in old(settled) then old(model) else Apply(old(model), Step.TimeOut(call))
      ensures settled == old(settled) + {call} && (call in old(settled) ==> waiters == old(waiters))
      ensures call !in old(settled) ==>
                waiters == Without(old(waiters), call) && call in model.outcome && model.outcome[call] == Outcome.TimedOut
    {
      if call in settled {
        return;
      }
      settled := settled + {call};
      model := Settle(model.(waiters := Without(waiters, call)), call, Outcome.TimedOut);
      RemoveWaiter(call);
    }

    method RemoveWaiter(call: Call)
      requires call in waiters
      modifies `waiters
      ensures waiters == Without(old(waiters), call)
    {
      ghost var last :| 0 <= last < |waiters| && waiters[last] == call;
      var i := 0;
      while waiters[i] != call
        invariant 0 <= i <= last < |waiters| && call !in waiters[..i] && waiters == old(waiters)
        decreases |waiters| - i
      {
        assert waiters[..i + 1] == waiters[..i] + [waiters[i]];
        i := i + 1;
      }
      WithoutAt(waiters, call, i);
      waiters := waiters[..i] + waiters[i + 1..];
    }

    /** Shift the queue past settled waiters to the longest-waiting live one. */
    method NextWaiter() returns (w: Option<Call>)
      modifies `waiters
      ensures var live := DropSettled(old(waiters), settled);
              && (live == [] ==> w == None && waiters == [])
              && (live != [] ==> w == Some(live[0]) && waiters == live[1..])
    {
      while waiters != []
        invariant DropSettled(waiters, settled) == DropSettled(old(waiters), settled)
        decreases |waiters|
      {
        var waiter := waiters[0];
        waiters := waiters[1..];
        if waiter !in settled {
          return Some(waiter);
        }
      }
      return None;
    }

    /** Hand the handle to the longest-waiting call, or keep it, or close it. */
    method Release(h: Handle, healthy: bool, opens: bool)
      requires Valid() && NoneSettled() && h in model.inUse
      modifies `idle, `waiters, `settled, `openReaders, `activeReaders, `nextHandle, `model
      ensures Valid() && model == Apply(old(model), Step.Release(h, healthy, opens))
      ensures old(closed) ==> openReaders == old(openReaders) - 1 && activeReaders == old(activeReaders) - 1
                              && idle == old(idle) && waiters == old(waiters) && settled == old(settled)
      ensures !old(closed) && old(waiters) != [] ==>
                var w := old(waiters)[0];
                && waiters == old(waiters)[1..] && idle == old(idle)
                && (healthy || opens ==>
                      && settled == old(settled) + {w} && openReaders == old(openReaders) && activeReaders == old(activeReaders)
                      && w in model.outcome && model.outcome[w] == Served(if healthy then h else old(nextHandle)))
                && (!healthy && !opens ==>
                      settled == old(settled) && openReaders == old(openReaders) - 1 && activeReaders == old(activeReaders) - 1)
      ensures !old(closed) && old(waiters) == [] ==>
                && waiters == [] && settled == old(settled) && activeReaders == old(activeReaders) - 1
                && (healthy && |old(idle)| < min ==> idle == old(idle) + [h] && openReaders == old(openReaders))
                && (!healthy || |old(idle)| >= min ==> idle == old(idle) && openReaders == old(openReaders) - 1)
    {
      model := ReleaseHandle(model, h, healthy, opens);
      activeReaders := activeReaders - 1;
      if closed {
        openReaders := openReaders - 1;
        return;
      }
      assert waiters != [] ==> waiters[0] !in settled;
      var waiter := NextWaiter();
      if waiter.Some? {
        if !healthy {
          openReaders := openReaders - 1;
          if !opens {
            return;
          }
          nextHandle := nextHandle + 1;
          openReaders := openReaders + 1;
        }
        settled := settled + {waiter.value};
        activeReaders := activeReaders + 1;
        return;
      }
      if !healthy || |idle| >= min {
        openReaders := openReaders - 1;
        return;
      }
      idle := idle + [h];
    }

    /** Refuse new work and reject everyone queued. */
    method BeginClose()
      requires Valid() && Writer() && !closed
      modifies `waiters, `settled, `closed, `model, `writes
      ensures Writer() && writes == WriteQueue.Apply(old(writes), WriteQueue.Close)
      ensures Valid() && model == Apply(old(model), Step.BeginClose)
      ensures closed && waiters == [] && settled == old(settled) + Elems(old(waiters))
      ensures forall c :: c in old(waiters) ==> c in model.outcome && model.outcome[c] == Rejected
      ensures forall c :: c in old(model).outcome && c !in old(waiters) ==> c in model.outcome && model.outcome[c] == old(model).outcome[c]
    {
      closed := true;
      writes := writes.(closed := true);
      ghost var goal := Apply(model, Step.BeginClose);
      model := goal;
      while waiters != []
        invariant model == goal && closed && writes == old(writes).(closed := true)
        invariant settled + Elems(waiters) == old(settled) + Elems(old(waiters))
        decreases |waiters|
      {
        var waiter := waiters[0];
        assert Elems(waiters) == {waiter} + Elems(waiters[1..]);
        waiters := waiters[1..];
        settled := settled + {waiter};
      }
      assert Elems(waiters) == {};
    }

    /** Close the idle handles once in-flight work has drained. */
    method FinishClose()
      requires Valid() && closed
      modifies `idle, `openReaders, `model
      ensures Valid() && model == Apply(old(model), Step.FinishClose)
      ensures idle == [] && openReaders == old(openReaders) - |old(idle)|
    {
      ghost var goal := Apply(model, Step.FinishClose);
      model := goal;
      while idle != []
        invariant model == goal
        invariant openReaders - |idle| == old(openReaders) - |old(idle)|
        decreases |idle|
      {
        idle := idle[..|idle| - 1];
        openReaders := openReaders - 1;
      }
    }

    // ---------------------------------------------------------------- the writer

    /** Run the body now if the writer is free, else queue it. False: the pool is closed. */
    method EnqueueWrite(body: nat) returns (accepted: bool)
      requires Writer()
      modifies `writing, `writeQueue, `writes
      ensures Writer() && (accepted <==> !closed)
      ensures writes == WriteQueue.Apply(old(writes), WriteQueue.Submit(body))
    {
      WriteQueue.StepKeepsInv(writes, WriteQueue.Submit(body));
      writes := WriteQueue.SubmitBody(writes, body);
      if closed {
        return false;
      }
      if writing {
        writeQueue := writeQueue + [body];
      } else {
        writing := true;
      }
      return true;
    }

    /** The running body settled, well or badly: start the next one. */
    method WriteSettled() returns (next: Option<nat>)
      requires Writer() && writing
      modifies `writing, `writeQueue, `writes
      ensures Writer()
      ensures WriteQueue.Enabled(old(writes), WriteQueue.Settle)
      ensures writes == WriteQueue.Apply(old(writes), WriteQueue.Settle)
      ensures next == if old(writeQueue) == [] then None else Some(old(writeQueue)[0])
    {
      WriteQueue.StepKeepsInv(writes, WriteQueue.Settle);
      writes := WriteQueue.SettleBody(writes);
      writing := false;
      next := None;
      if writeQueue != [] {
        next := Some(writeQueue[0]);
        writeQueue := writeQueue[1..];
        writing := true;
      }
    }
  }
}
