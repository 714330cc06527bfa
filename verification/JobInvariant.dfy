/**
 * Single execution and the job lifecycle: what every step keeps, as long as no recovery
 * pass finds the lease of a running handler lapsed.
 */
module JobInvariant {
  import opened Common
  import opened JobModel

  /** The row a live run works on. */
  predicate Holds(row: Job, run: Run) {
    && row.status == Active && row.attempts == run.job.attempts && row.maxAttempts == run.job.maxAttempts
    && (row.lease.NoLease? || row.lease.owner == run.worker)
  }

  predicate RunOk(s: State, r: nat) {
    r in s.runs ==>
      && r < s.nextRun && s.runs[r].worker in s.workers && s.runs[r].id in s.inserted
      && (s.runs[r].id in s.rows ==> Holds(s.rows[s.runs[r].id], s.runs[r]))
  }

  predicate Apart(s: State, a: nat, b: nat) {
    a in s.runs && b in s.runs && a != b ==> s.runs[a].id != s.runs[b].id
  }

  /** The retry budget of a row that was inserted with a limit of at least one. */
  predicate Budget(j: Job, failures: int) {
    j.maxAttempts >= 1 ==>
      && 0 <= j.attempts == failures
      && if j.status == DeadLetter then j.attempts == j.maxAttempts else j.attempts < j.maxAttempts
  }

  predicate RowOk(s: State, id: JobId) {
    id in s.rows ==> id in s.inserted && id in s.failures && Budget(s.rows[id], s.failures[id])
  }

  function IdsOf(s: State, w: WorkerId): set<JobId> { set r | r in RunsOf(s, w) :: s.runs[r].id }

  predicate WorkerOk(s: State, w: WorkerId) {
    w in s.workers ==>
      && s.workers[w].active == |RunsOf(s, w)| && s.workers[w].active <= s.workers[w].concurrency
      && s.workers[w].timers <= IdsOf(s, w)
  }

  ghost predicate Runs(s: State) { (forall r :: RunOk(s, r)) && forall a, b :: Apart(s, a, b) }

  ghost predicate RowsOk(s: State) { forall id :: RowOk(s, id) }

  ghost predicate Workers(s: State) { forall w :: WorkerOk(s, w) }

  predicate Tally(s: State) { |s.rows| + s.removed == |s.inserted| && s.rows.Keys <= s.inserted }

  ghost predicate Inv(s: State) { Runs(s) && RowsOk(s) && Workers(s) && Tally(s) }

  /** No live run works on a row whose lease is gone. */
  predicate Covered(s: State, r: nat) {
    r in s.runs && s.runs[r].id in s.rows ==> !Lapsed(s.rows[s.runs[r].id], s.now)
  }

  ghost predicate NoLapse(s: State) { forall r :: Covered(s, r) }

  /** The assumption single execution rests on: no recovery over a live lapsed lease. */
  ghost predicate Safe(s: State, step: Step) { step.StartWorker? ==> NoLapse(s) }

  // ------------------------------------------------------------------ single steps

  lemma TickKeeps(s: State, to: int)
    requires Inv(s)
    ensures Inv(s.(now := to))
  {
    var t := s.(now := to);
    forall r ensures RunOk(t, r) { assert RunOk(s, r); }
    forall a, b ensures Apart(t, a, b) { assert Apart(s, a, b); }
    forall id ensures RowOk(t, id) { assert RowOk(s, id); }
    forall w ensures WorkerOk(t, w) { assert WorkerOk(s, w); SameRunsOf(s, t, w); }
  }

  lemma SameRunsOf(s: State, t: State, w: WorkerId)
    requires s.runs == t.runs
    ensures RunsOf(t, w) == RunsOf(s, w) && IdsOf(t, w) == IdsOf(s, w)
  {
  }

  lemma EnqueueKeeps(s: State, id: JobId, job: Job)
    requires Inv(s) && id !in s.inserted && Budget(job, 0)
    ensures Inv(EnqueueJob(s, id, job))
  {
    var t := EnqueueJob(s, id, job);
    forall r ensures RunOk(t, r) { assert RunOk(s, r); }
    forall a, b ensures Apart(t, a, b) { assert Apart(s, a, b); }
    forall k ensures RowOk(t, k) { assert RowOk(s, k); }
    forall w ensures WorkerOk(t, w) { assert WorkerOk(s, w); SameRunsOf(s, t, w); }
    assert t.rows.Keys == s.rows.Keys + {id};
  }

  /** Worker variables other than the in-flight count, the limit and the timers are free. */
  lemma WorkerKeeps(s: State, w: WorkerId, worker: Worker)
    requires Inv(s)
    requires WorkerOk(SetWorker(s, w, worker), w)
    ensures Inv(SetWorker(s, w, worker))
  {
    var t := SetWorker(s, w, worker);
    forall r ensures RunOk(t, r) { assert RunOk(s, r); }
    forall a, b ensures Apart(t, a, b) { assert Apart(s, a, b); }
    forall id ensures RowOk(t, id) { assert RowOk(s, id); }
    forall v ensures WorkerOk(t, v) { assert WorkerOk(s, v); SameRunsOf(s, t, v); }
  }

  lemma SpawnKeeps(s: State, w: WorkerId, worker: Worker)
    requires Inv(s) && Enabled(s, Spawn(w, worker))
    ensures Inv(SetWorker(s, w, worker))
  {
    assert RunsOf(s, w) == {} by {
      forall r | r in s.runs ensures s.runs[r].worker != w { assert RunOk(s, r); }
    }
    SameRunsOf(s, SetWorker(s, w, worker), w);
    WorkerKeeps(s, w, worker);
  }

  lemma SwitchKeeps(s: State, w: WorkerId, on: bool)
    requires Inv(s) && w in s.workers
    ensures Inv(SetWorker(s, w, s.workers[w].(running := on)))
  {
    assert WorkerOk(s, w);
    SameRunsOf(s, SetWorker(s, w, s.workers[w].(running := on)), w);
    WorkerKeeps(s, w, s.workers[w].(running := on));
  }

  /** A change of one row that no live run works on. */
  lemma IdleRowKeeps(s: State, id: JobId, job: Job, failures: int)
    requires Inv(s) && id in s.rows && Budget(job, failures) && s.rows[id].status != Active
    ensures Inv(SetRow(s, id, job).(failures := s.failures[id := failures]))
  {
    var t := SetRow(s, id, job).(failures := s.failures[id := failures]);
    forall r ensures RunOk(t, r) { assert RunOk(s, r); }
    forall a, b ensures Apart(t, a, b) { assert Apart(s, a, b); }
    forall k ensures RowOk(t, k) { assert RowOk(s, k); assert RowOk(s, id); }
    forall w ensures WorkerOk(t, w) { assert WorkerOk(s, w); SameRunsOf(s, t, w); }
    assert t.rows.Keys == s.rows.Keys;
  }

  lemma ReplayKeeps(s: State, id: JobId)
    requires Inv(s)
    ensures Inv(ReplayJob(s, id))
  {
    if id in s.rows && s.rows[id].status == DeadLetter {
      assert RowOk(s, id);
      IdleRowKeeps(s, id, Replayed(s.rows[id], s.now), 0);
    }
  }

  /** A change of one row that keeps it active with the same attempts and owner. */
  lemma ActiveRowKeeps(s: State, id: JobId, lease: Lease, updatedAt: int)
    requires Inv(s) && id in s.rows && s.rows[id].status == Active
    requires lease.NoLease? || (s.rows[id].lease.Lease? && lease.owner == s.rows[id].lease.owner)
    ensures Inv(SetRow(s, id, s.rows[id].(lease := lease, updatedAt := updatedAt)))
  {
    var t := SetRow(s, id, s.rows[id].(lease := lease, updatedAt := updatedAt));
    forall r ensures RunOk(t, r) { assert RunOk(s, r); }
    forall a, b ensures Apart(t, a, b) { assert Apart(s, a, b); }
    forall k ensures RowOk(t, k) { assert RowOk(s, k); }
    forall w ensures WorkerOk(t, w) { assert WorkerOk(s, w); SameRunsOf(s, t, w); }
    assert t.rows.Keys == s.rows.Keys;
  }

  lemma RenewedKeeps(s: State, r: nat, renewed: int)
    requires Inv(s) && r in s.runs
    ensures Inv(s.(runs := s.runs[r := s.runs[r].(renewed := renewed)]))
  {
    var t := s.(runs := s.runs[r := s.runs[r].(renewed := renewed)]);
    forall q ensures RunOk(t, q) { assert RunOk(s, q); }
    forall a, b ensures Apart(t, a, b) { assert Apart(s, a, b); }
    forall id ensures RowOk(t, id) { assert RowOk(s, id); }
    forall w ensures WorkerOk(t, w) {
      assert WorkerOk(s, w);
      assert RunsOf(t, w) == RunsOf(s, w);
      assert IdsOf(s, w) <= IdsOf(t, w) by {
        forall q | q in RunsOf(s, w) ensures s.runs[q].id in IdsOf(t, w) { assert t.runs[q].id == s.runs[q].id; }
      }
    }
  }

  lemma FewerTimers(s: State, w: WorkerId, id: JobId)
    requires Inv(s) && w in s.workers
    ensures Inv(SetWorker(s, w, s.workers[w].(timers := s.workers[w].timers - {id})))
  {
    var worker := s.workers[w].(timers := s.workers[w].timers - {id});
    assert WorkerOk(s, w);
    SameRunsOf(s, SetWorker(s, w, worker), w);
    WorkerKeeps(s, w, worker);
  }

  lemma BeatKeeps(s: State, r: nat)
    requires Inv(s) && Enabled(s, Beat(r))
    ensures Inv(BeatRun(s, r))
  {
    hide Inv;
    var run := s.runs[r];
    if run.id in s.rows && OwnedBy(s.rows[run.id], run.worker) {
      var lease := Lease(run.worker, s.now + s.workers[run.worker].ttl);
      ActiveRowKeeps(s, run.id, lease, s.now);
      RenewedKeeps(SetRow(s, run.id, s.rows[run.id].(lease := lease, updatedAt := s.now)), r, s.now);
    } else {
      FewerTimers(s, run.worker, run.id);
    }
  }

  lemma ReleaseKeeps(s: State, w: WorkerId, id: JobId)
    requires Inv(s) && w in s.workers
    ensures Inv(ReleaseJob(s, w, id))
  {
    hide Inv;
    FewerTimers(s, w, id);
    if id in s.rows && OwnedBy(s.rows[id], w) {
      ActiveRowKeeps(SetWorker(s, w, s.workers[w].(timers := s.workers[w].timers - {id})), id, NoLease, s.now);
    }
  }

  lemma ClaimKeeps(s: State, w: WorkerId, id: JobId)
    requires Inv(s) && Enabled(s, Claim(w, id))
    ensures Inv(ClaimJob(s, w, id))
  {
    hide Next;
    ClaimableRow(s, w, id);
    var t := ClaimJob(s, w, id);
    assert s.nextRun !in s.runs by { assert RunOk(s, s.nextRun); }
    assert RowOk(s, id) && WorkerOk(s, w);
    forall r ensures RunOk(t, r) { assert RunOk(s, r); }
    forall a, b ensures Apart(t, a, b) { assert Apart(s, a, b) && RunOk(s, a) && RunOk(s, b); }
    forall k ensures RowOk(t, k) { assert RowOk(s, k); }
    forall v ensures WorkerOk(t, v) { assert WorkerOk(s, v); ClaimWorkers(s, w, id, v); }
    assert t.rows.Keys == s.rows.Keys;
  }

  lemma ClaimableRow(s: State, w: WorkerId, id: JobId)
    requires Enabled(s, Claim(w, id))
    ensures id in s.rows && s.rows[id].status != Active && Claimable(s.rows[id])
  {
  }

  lemma ClaimWorkers(s: State, w: WorkerId, id: JobId, v: WorkerId)
    requires w in s.workers && id in s.rows && s.nextRun !in s.runs
    requires s.workers[w].active < s.workers[w].concurrency && WorkerOk(s, v)
    ensures WorkerOk(ClaimJob(s, w, id), v)
  {
    hide Claimed;
    var t := ClaimJob(s, w, id);
    assert RunsOf(t, v) == if v == w then RunsOf(s, v) + {s.nextRun} else RunsOf(s, v);
    assert IdsOf(s, v) <= IdsOf(t, v) by {
      forall q | q in RunsOf(s, v) ensures s.runs[q].id in IdsOf(t, v) {
        assert q in RunsOf(t, v) && t.runs[q].id == s.runs[q].id;
      }
    }
    assert v == w ==> id in IdsOf(t, v) by { assert t.runs[s.nextRun].id == id; }
  }

  /** Ending a run needs nothing of its row. */
  lemma EndWorkers(s: State, r: nat, v: WorkerId)
    requires Runs(s) && Workers(s) && r in s.runs
    ensures WorkerOk(EndRun(s, r), v)
  {
    var t := EndRun(s, r);
    assert WorkerOk(s, v) && RunOk(s, r);
    assert RunsOf(t, v) == RunsOf(s, v) - {r};
    forall id | v in t.workers && id in t.workers[v].timers ensures id in IdsOf(t, v) {
      var q :| q in RunsOf(s, v) && s.runs[q].id == id;
      assert q in RunsOf(t, v) && t.runs[q].id == id;
    }
  }

  lemma EndKeeps(s: State, r: nat)
    requires Inv(s) && r in s.runs
    ensures Inv(EndRun(s, r))
  {
    var t := EndRun(s, r);
    assert RunOk(s, r);
    forall q ensures RunOk(t, q) { assert RunOk(s, q); }
    forall a, b ensures Apart(t, a, b) { assert Apart(s, a, b); }
    forall id ensures RowOk(t, id) { assert RowOk(s, id); }
    forall v ensures WorkerOk(t, v) { EndWorkers(s, r, v); }
  }

  /** Ending run `r` and deciding its row in one go. */
  lemma DecideKeeps(s: State, r: nat, row: Job, failures: int)
    requires Inv(s) && r in s.runs && s.runs[r].id in s.rows && Budget(row, failures)
    ensures Inv(EndRun(SetRow(s, s.runs[r].id, row).(failures := s.failures[s.runs[r].id := failures]), r))
  {
    var id := s.runs[r].id;
    var m := EndRun(s, r);
    EndKeeps(s, r);
    var t := m.(rows := s.rows[id := row], failures := s.failures[id := failures]);
    forall q ensures RunOk(t, q) { assert RunOk(m, q) && Apart(s, q, r); }
    forall a, b ensures Apart(t, a, b) { assert Apart(m, a, b); }
    forall k ensures RowOk(t, k) { assert RowOk(m, k) && RowOk(m, id); }
    forall v ensures WorkerOk(t, v) { assert WorkerOk(m, v); SameRunsOf(m, t, v); }
    assert t.rows.Keys == s.rows.Keys;
    assert t == EndRun(SetRow(s, id, row).(failures := s.failures[id := failures]), r);
  }

  lemma SucceedKeeps(s: State, r: nat)
    requires Inv(s) && r in s.runs
    ensures Inv(SucceedRun(s, r))
  {
    var id := s.runs[r].id;
    if id in s.rows {
      assert RunOk(s, r) && RowOk(s, id);
      assert s.failures[id := s.failures[id]] == s.failures;
      hide Inv;
      DecideKeeps(s, r, CompletedRow(s.rows[id], s.now), s.failures[id]);
    } else {
      EndKeeps(s, r);
    }
  }

  lemma FailKeeps(s: State, r: nat, delay: int)
    requires Inv(s) && r in s.runs
    ensures Inv(FailRun(s, r, delay))
  {
    var id := s.runs[r].id;
    if id in s.rows {
      assert RunOk(s, r) && RowOk(s, id);
      var row := FailedRow(s.rows[id], s.runs[r].job, WorkerMax(s, s.runs[r].worker), s.now, delay);
      assert Budget(row, s.failures[id] + 1);
      hide Inv;
      DecideKeeps(s, r, row, s.failures[id] + 1);
    } else {
      EndKeeps(s, r);
    }
  }

  lemma CrashWorkers(s: State, w: WorkerId, v: WorkerId)
    requires WorkerOk(s, v)
    ensures WorkerOk(CrashWorker(s, w), v)
  {
    var t := CrashWorker(s, w);
    if v != w {
      assert RunsOf(t, v) == RunsOf(s, v);
      forall id | id in IdsOf(s, v) ensures id in IdsOf(t, v) {
        var q :| q in RunsOf(s, v) && s.runs[q].id == id;
        assert q in RunsOf(t, v) && t.runs[q].id == id;
      }
    }
  }

  lemma CrashKeeps(s: State, w: WorkerId)
    requires Inv(s)
    ensures Inv(CrashWorker(s, w))
  {
    hide WorkerOk;
    var t := CrashWorker(s, w);
    forall r ensures RunOk(t, r) { assert RunOk(s, r); }
    forall a, b ensures Apart(t, a, b) { assert Apart(s, a, b); }
    forall id ensures RowOk(t, id) { assert RowOk(s, id); }
    forall v ensures WorkerOk(t, v) { assert WorkerOk(s, v); CrashWorkers(s, w, v); }
  }

  lemma DropKeeps(s: State, rows: Rows)
    requires Inv(s) && rows.Keys <= s.rows.Keys && forall id :: id in rows ==> rows[id] == s.rows[id]
    ensures Inv(KeepRows(s, rows))
  {
    var t := KeepRows(s, rows);
    forall r ensures RunOk(t, r) { assert RunOk(s, r); }
    forall a, b ensures Apart(t, a, b) { assert Apart(s, a, b); }
    forall id ensures RowOk(t, id) { assert RowOk(s, id); }
    forall w ensures WorkerOk(t, w) { assert WorkerOk(s, w); SameRunsOf(s, t, w); }
    SubsetCardinality(rows.Keys, s.rows.Keys);
    assert |rows| == |rows.Keys| && |s.rows| == |s.rows.Keys|;
  }

  /** A recovery pass keeps the invariant exactly when no live run's lease has lapsed. */
  lemma RecoverKeepsIff(s: State)
    requires Inv(s)
    ensures Inv(Recover(s)) <==> NoLapse(s)
  {
    var t := Recover(s);
    assert t.rows.Keys == s.rows.Keys;
    if NoLapse(s) {
      forall r ensures RunOk(t, r) { assert RunOk(s, r) && Covered(s, r); }
      forall a, b ensures Apart(t, a, b) { assert Apart(s, a, b); }
      forall id ensures RowOk(t, id) { assert RowOk(s, id); }
      forall w ensures WorkerOk(t, w) { assert WorkerOk(s, w); SameRunsOf(s, t, w); }
      assert |t.rows| == |t.rows.Keys| && |s.rows| == |s.rows.Keys|;
    } else {
      var r :| !Covered(s, r);
      assert RunOk(s, r) && !RunOk(t, r);
    }
  }

  lemma StepKeepsInv(s: State, step: Step)
    requires Inv(s) && Enabled(s, step) && Safe(s, step)
    ensures Inv(Apply(s, step))
  {
    hide Inv, Next;
    match step
    case Tick(to) => TickKeeps(s, to);
    case Enqueue(id, task, priority, max) => EnqueueKeeps(s, id, NewJob(task, priority, max, s.now));
    case Spawn(w, worker) => SpawnKeeps(s, w, worker);
    case StartWorker(w) =>
      SwitchKeeps(s, w, true);
      SwitchNoLapse(s, w, s.workers[w].(running := true));
      RecoverKeepsIff(SetWorker(s, w, s.workers[w].(running := true)));
    case Claim(w, id) => ClaimKeeps(s, w, id);
    case Beat(r) => BeatKeeps(s, r);
    case Succeed(r) => SucceedKeeps(s, r);
    case Fail(r, delay) => FailKeeps(s, r, delay);
    case Abandon(r) => EndKeeps(s, r);
    case StopWorker(w) => SwitchKeeps(s, w, false);
    case Release(w, id) => ReleaseKeeps(s, w, id);
    case Crash(w) => CrashKeeps(s, w);
    case Replay(id) => ReplayKeeps(s, id);
    case Delete(id) => DropKeeps(s, s.rows - {id});
    case Purge(before) => DropKeeps(s, PurgeAll(s.rows, before));
  }

  /** In any state at all, whoever runs what, rows plus removals stay equal to insertions. */
  lemma StepKeepsTally(s: State, step: Step)
    requires Tally(s) && Enabled(s, step)
    ensures Tally(Apply(s, step))
  {
    hide Tally, Next, Limit, EndRun;
    match step
    case Enqueue(id, task, priority, max) => EnqueueTally(s, id, NewJob(task, priority, max, s.now));
    case StartWorker(w) =>
      RunningTally(s, w);
      RecoverTally(SetWorker(s, w, s.workers[w].(running := true)));
    case Claim(w, id) => ClaimTally(s, w, id);
    case Succeed(r) => RunEndTally(s, step);
    case Fail(r, delay) => RunEndTally(s, step);
    case Abandon(r) => EndTally(s, r);
    case Delete(id) => DropTally(s, s.rows - {id});
    case Purge(before) => DropTally(s, PurgeAll(s.rows, before));
    case _ => OtherTally(s, step);
  }

  lemma RunningTally(s: State, w: WorkerId)
    requires Tally(s) && w in s.workers
    ensures Tally(SetWorker(s, w, s.workers[w].(running := true)))
  {
  }

  lemma EnqueueTally(s: State, id: JobId, job: Job)
    requires Tally(s) && id !in s.inserted
    ensures Tally(EnqueueJob(s, id, job))
  {
    assert EnqueueJob(s, id, job).rows.Keys == s.rows.Keys + {id};
    KeyCount(EnqueueJob(s, id, job).rows);
    KeyCount(s.rows);
  }

  lemma RecoverTally(s: State)
    requires Tally(s)
    ensures Tally(Recover(s))
  {
    assert Recover(s).rows.Keys == s.rows.Keys;
    KeyCount(Recover(s).rows);
    KeyCount(s.rows);
  }

  lemma KeyCount(rows: Rows)
    ensures |rows| == |rows.Keys|
  {
  }

  lemma SetRowTally(s: State, id: JobId, job: Job)
    requires Tally(s) && id in s.rows
    ensures Tally(SetRow(s, id, job))
  {
    assert SetRow(s, id, job).rows.Keys == s.rows.Keys;
    KeyCount(SetRow(s, id, job).rows);
    KeyCount(s.rows);
  }

  lemma ClaimTally(s: State, w: WorkerId, id: JobId)
    requires Tally(s) && Enabled(s, Claim(w, id))
    ensures Tally(ClaimJob(s, w, id))
  {
    var job := Claimed(s.rows[id], s.now, Lease(w, s.now + s.workers[w].ttl));
    SetRowTally(s, id, job);
  }

  lemma EndTally(s: State, r: nat)
    requires Tally(s) && r in s.runs
    ensures Tally(EndRun(s, r))
  {
  }

  lemma RunEndTally(s: State, step: Step)
    requires Tally(s) && Enabled(s, step) && (step.Succeed? || step.Fail?)
    ensures Tally(Apply(s, step))
  {
    hide EndRun, Limit;
    var run := s.runs[step.r];
    EndTally(s, step.r);
    if run.id in s.rows {
      var row := if step.Succeed? then CompletedRow(s.rows[run.id], s.now)
                 else FailedRow(s.rows[run.id], run.job, WorkerMax(s, run.worker), s.now, step.delay);
      SetRowTally(s, run.id, row);
      EndTally(SetRow(s, run.id, row), step.r);
      EndTally(SetRow(s, run.id, row).(
                 failures := s.failures[run.id := (if run.id in s.failures then s.failures[run.id] else 0) + 1]), step.r);
    }
  }

  lemma DropTally(s: State, rows: Rows)
    requires Tally(s) && rows.Keys <= s.rows.Keys
    ensures Tally(KeepRows(s, rows))
  {
    SubsetCardinality(rows.Keys, s.rows.Keys);
    KeyCount(rows);
    KeyCount(s.rows);
  }

  lemma OtherTally(s: State, step: Step)
    requires Tally(s) && Enabled(s, step)
    requires step.Tick? || step.Spawn? || step.Beat? || step.StopWorker? || step.Release? || step.Crash? || step.Replay?
    ensures Tally(Apply(s, step))
  {
    if step.Beat? && s.runs[step.r].id in s.rows {
      var run := s.runs[step.r];
      SetRowTally(s, run.id, s.rows[run.id].(lease := Lease(run.worker, s.now + s.workers[run.worker].ttl), updatedAt := s.now));
    } else if step.Release? && step.id in s.rows {
      SetRowTally(s, step.id, s.rows[step.id].(lease := NoLease, updatedAt := s.now));
    } else if step.Replay? && step.id in s.rows {
      SetRowTally(s, step.id, Replayed(s.rows[step.id], s.now));
    }
  }

  lemma SwitchNoLapse(s: State, w: WorkerId, worker: Worker)
    ensures NoLapse(SetWorker(s, w, worker)) <==> NoLapse(s)
  {
    var t := SetWorker(s, w, worker);
    if NoLapse(s) { forall r ensures Covered(t, r) { assert Covered(s, r); } }
    if NoLapse(t) { forall r ensures Covered(s, r) { assert Covered(t, r); } }
  }
}
