/** What the queue promises over whole histories, and when it does not. */
module JobTheorems {
  import opened Common
  import opened JobModel
  import opened JobInvariant

  ghost predicate SafeHistory(s: State, steps: seq<Step>)
    requires IsHistory(s, steps)
    decreases |steps|
  {
    steps == [] || (Safe(s, steps[0]) && SafeHistory(Apply(s, steps[0]), steps[1..]))
  }

  lemma {:induction false} HistoryKeepsInv(s: State, steps: seq<Step>)
    requires Inv(s) && IsHistory(s, steps) && SafeHistory(s, steps)
    ensures Inv(After(s, steps))
    decreases |steps|
  {
    hide Inv, Enabled, Safe, Apply;
    if steps != [] {
      StepKeepsInv(s, steps[0]);
      HistoryKeepsInv(Apply(s, steps[0]), steps[1..]);
    }
  }

  lemma EmptyInv(now: int)
    ensures Inv(Empty(now))
  {
  }

  /** At most one live execution of a job, on an active row no other worker holds; no worker over its limit. */
  lemma SingleExecutor(now: int, steps: seq<Step>, a: nat, b: nat)
    requires IsHistory(Empty(now), steps) && SafeHistory(Empty(now), steps)
    ensures var s := After(Empty(now), steps);
            && (a in s.runs && b in s.runs && s.runs[a].id == s.runs[b].id ==> a == b)
            && (a in s.runs && s.runs[a].id in s.rows ==>
                  var row := s.rows[s.runs[a].id];
                  row.status == Active && (row.lease.Lease? ==> row.lease.owner == s.runs[a].worker))
            && (forall w :: w in s.workers ==> |RunsOf(s, w)| <= s.workers[w].concurrency)
  {
    EmptyInv(now);
    HistoryKeepsInv(Empty(now), steps);
    var s := After(Empty(now), steps);
    assert RunOk(s, a) && Apart(s, a, b);
    forall w | w in s.workers ensures |RunsOf(s, w)| <= s.workers[w].concurrency { assert WorkerOk(s, w); }
  }

  // ------------------------------------------------------------------ renewals in time

  /** The run's row is leased to its worker, for one lease duration from the last renewal. */
  predicate Fresh(s: State, r: nat) {
    r in s.runs && s.runs[r].id in s.rows && s.runs[r].worker in s.workers ==>
      var due := s.runs[r].renewed + s.workers[s.runs[r].worker].ttl;
      s.rows[s.runs[r].id].lease == Lease(s.runs[r].worker, due) && s.now <= due
  }

  ghost predicate AllFresh(s: State) { forall r :: Fresh(s, r) }

  predicate DueBy(s: State, r: nat, to: int) {
    r in s.runs && s.runs[r].id in s.rows && s.runs[r].worker in s.workers ==>
      to <= s.runs[r].renewed + s.workers[s.runs[r].worker].ttl
  }

  /** Every live run renews before its lease is due, and a worker releases only what it no longer runs. */
  ghost predicate Disciplined(s: State, step: Step) {
    match step
    case Tick(to) => forall r :: DueBy(s, r, to)
    case Release(w, id) => forall r :: r in s.runs && s.runs[r].worker == w ==> s.runs[r].id != id
    case _ => true
  }

  ghost predicate DisciplinedHistory(s: State, steps: seq<Step>)
    requires IsHistory(s, steps)
    decreases |steps|
  {
    steps == [] || (Disciplined(s, steps[0]) && DisciplinedHistory(Apply(s, steps[0]), steps[1..]))
  }

  lemma FreshCoversAll(s: State)
    requires Inv(s) && AllFresh(s)
    ensures NoLapse(s)
  {
    forall r ensures Covered(s, r) { assert Fresh(s, r) && RunOk(s, r); }
  }

  /** Freshness of `r` depends on its run, its row, its worker's lease time and the clock. */
  lemma FreshFrame(s: State, t: State, r: nat)
    requires Fresh(s, r) && RunOk(s, r) && s.now == t.now
    requires r in t.runs ==> r in s.runs && t.runs[r] == s.runs[r]
    requires r in t.runs && t.runs[r].id in t.rows ==>
               t.runs[r].id in s.rows && t.rows[t.runs[r].id].lease == s.rows[t.runs[r].id].lease
    requires r in t.runs && t.runs[r].worker in t.workers ==>
               t.runs[r].worker in s.workers && t.workers[t.runs[r].worker].ttl == s.workers[t.runs[r].worker].ttl
    ensures Fresh(t, r)
  {
  }

  /** Steps that leave the leases of rows with a live run alone. */
  lemma OtherStepFresh(s: State, step: Step, r: nat)
    requires Inv(s) && AllFresh(s) && Enabled(s, step)
    requires step.Enqueue? || step.Spawn? || step.StopWorker? || step.Crash? || step.Replay? || step.Delete? || step.Purge?
    ensures Fresh(Apply(s, step), r)
  {
    assert Fresh(s, r) && RunOk(s, r);
    hide Inv, AllFresh, Fresh;
    FreshFrame(s, Apply(s, step), r);
  }

  lemma StartFresh(s: State, w: WorkerId, r: nat)
    requires Inv(s) && AllFresh(s) && Enabled(s, StartWorker(w))
    ensures Fresh(Apply(s, StartWorker(w)), r)
  {
    assert Fresh(s, r) && RunOk(s, r);
  }

  lemma ClaimFresh(s: State, w: WorkerId, id: JobId, r: nat)
    requires Inv(s) && AllFresh(s) && Enabled(s, Claim(w, id))
    ensures Fresh(ClaimJob(s, w, id), r)
  {
    hide Next;
    ClaimableRow(s, w, id);
    assert Fresh(s, r) && RunOk(s, r);
  }

  lemma BeatFresh(s: State, b: nat, r: nat)
    requires Inv(s) && AllFresh(s) && Enabled(s, Beat(b))
    ensures Fresh(BeatRun(s, b), r)
  {
    assert Fresh(s, r) && RunOk(s, r) && Apart(s, r, b);
  }

  lemma EndFresh(s: State, e: nat, row: Job, failures: map<JobId, int>, r: nat)
    requires Inv(s) && AllFresh(s) && e in s.runs
    ensures Fresh(EndRun(s, e), r)
    ensures s.runs[e].id in s.rows ==> Fresh(EndRun(SetRow(s, s.runs[e].id, row).(failures := failures), e), r)
    ensures s.runs[e].id in s.rows ==> Fresh(EndRun(SetRow(s, s.runs[e].id, row), e), r)
  {
    assert Fresh(s, r) && RunOk(s, r) && Apart(s, r, e);
    hide Inv, AllFresh, Fresh;
    FreshFrame(s, EndRun(s, e), r);
    if s.runs[e].id in s.rows {
      FreshFrame(s, EndRun(SetRow(s, s.runs[e].id, row).(failures := failures), e), r);
      FreshFrame(s, EndRun(SetRow(s, s.runs[e].id, row), e), r);
    }
  }

  lemma RunEndFresh(s: State, step: Step, r: nat)
    requires Inv(s) && AllFresh(s) && Enabled(s, step) && (step.Succeed? || step.Fail? || step.Abandon?)
    ensures Fresh(Apply(s, step), r)
  {
    hide Inv, AllFresh, Fresh, EndRun;
    var run := s.runs[step.r];
    EndFresh(s, step.r, run.job, s.failures, r);
    if run.id in s.rows && !step.Abandon? {
      var row := if step.Succeed? then CompletedRow(s.rows[run.id], s.now)
                 else FailedRow(s.rows[run.id], run.job, WorkerMax(s, run.worker), s.now, step.delay);
      EndFresh(s, step.r, row, s.failures[run.id := (if run.id in s.failures then s.failures[run.id] else 0) + 1], r);
    }
  }

  lemma ReleaseFresh(s: State, w: WorkerId, id: JobId, r: nat)
    requires Inv(s) && AllFresh(s) && Enabled(s, Release(w, id)) && Disciplined(s, Release(w, id))
    ensures Fresh(ReleaseJob(s, w, id), r)
  {
    assert Fresh(s, r) && RunOk(s, r);
  }

  lemma StepKeepsFresh(s: State, step: Step)
    requires Inv(s) && AllFresh(s) && Enabled(s, step) && Disciplined(s, step)
    ensures AllFresh(Apply(s, step))
  {
    forall r ensures Fresh(Apply(s, step), r) {
      assert step.Tick? ==> DueBy(s, r, step.to) && Fresh(s, r);
      hide Inv, AllFresh, Apply, Next;
      match step
      case Tick(to) => TickFresh(s, to, r);
      case StartWorker(w) => StartFresh(s, w, r);
      case Claim(w, id) => ClaimFresh(s, w, id, r); ApplyIs(s, step);
      case Beat(b) => BeatFresh(s, b, r); ApplyIs(s, step);
      case Release(w, id) => ReleaseFresh(s, w, id, r); ApplyIs(s, step);
      case Succeed(_) => RunEndFresh(s, step, r);
      case Fail(_, _) => RunEndFresh(s, step, r);
      case Abandon(_) => RunEndFresh(s, step, r);
      case _ => OtherStepFresh(s, step, r);
    }
  }

  lemma TickFresh(s: State, to: int, r: nat)
    requires Fresh(s, r) && DueBy(s, r, to) && to >= s.now
    ensures Fresh(Apply(s, Tick(to)), r)
  {
  }

  lemma ApplyIs(s: State, step: Step)
    requires Enabled(s, step)
    ensures step.Claim? ==> step.id in s.rows && Apply(s, step) == ClaimJob(s, step.w, step.id)
    ensures step.Beat? ==> Apply(s, step) == BeatRun(s, step.r)
    ensures step.Release? ==> Apply(s, step) == ReleaseJob(s, step.w, step.id)
  {
  }

  lemma {:induction false} DisciplineIsSafe(s: State, steps: seq<Step>)
    requires Inv(s) && AllFresh(s) && IsHistory(s, steps) && DisciplinedHistory(s, steps)
    ensures SafeHistory(s, steps) && AllFresh(After(s, steps))
    decreases |steps|
  {
    hide Inv, AllFresh, Enabled, Apply;
    if steps != [] {
      FreshCoversAll(s);
      assert Safe(s, steps[0]);
      StepKeepsInv(s, steps[0]);
      StepKeepsFresh(s, steps[0]);
      DisciplineIsSafe(Apply(s, steps[0]), steps[1..]);
    }
  }

  /** With renewals in time and drained releases, the one execution of a job is the leaseholder's. */
  lemma LeaseholderExecutes(now: int, steps: seq<Step>, a: nat, b: nat)
    requires IsHistory(Empty(now), steps) && DisciplinedHistory(Empty(now), steps)
    ensures var s := After(Empty(now), steps);
            && (a in s.runs && b in s.runs && s.runs[a].id == s.runs[b].id ==> a == b)
            && (a in s.runs && s.runs[a].id in s.rows ==>
                  var row := s.rows[s.runs[a].id];
                  OwnedBy(row, s.runs[a].worker) && !Lapsed(row, s.now))
  {
    EmptyInv(now);
    DisciplineIsSafe(Empty(now), steps);
    SingleExecutor(now, steps, a, b);
    HistoryKeepsInv(Empty(now), steps);
    var s := After(Empty(now), steps);
    assert Fresh(s, a) && RunOk(s, a);
  }

  // ------------------------------------------------------------------ the failing families

  /** A lease a stopping worker still has to release always belongs to a handler that is still running. */
  lemma ReleaseHitsLiveRun(s: State, w: WorkerId, id: JobId)
    requires Inv(s) && Enabled(s, Release(w, id))
    ensures exists r :: r in s.runs && s.runs[r].worker == w && s.runs[r].id == id
  {
    assert WorkerOk(s, w);
    assert id in IdsOf(s, w);
  }

  /** A claim leases the row and starts its heartbeat, which renews the lease for as long as the row is still owned. */
  lemma ClaimBeats(s: State, w: WorkerId, id: JobId, later: nat)
    requires Enabled(s, Claim(w, id)) && s.nextRun !in s.runs
    ensures var t := Apply(s, Claim(w, id));
            var u := t.(now := t.now + later);
            && t.rows == s.rows[id := s.rows[id].(status := Active, updatedAt := s.now, lease := Lease(w, s.now + s.workers[w].ttl))]
            && t.workers[w] == s.workers[w].(active := s.workers[w].active + 1, timers := s.workers[w].timers + {id})
            && Enabled(u, Beat(s.nextRun))
            && var v := Apply(u, Beat(s.nextRun));
               && v.rows == u.rows[id := u.rows[id].(lease := Lease(w, u.now + s.workers[w].ttl), updatedAt := u.now)]
               && v.runs == u.runs[s.nextRun := u.runs[s.nextRun].(renewed := u.now)]
  {
  }

  /** A recovery pass over a live run's lapsed lease lets the next claim of that job execute it twice. */
  lemma LapsedRunsTwice(s: State, r: nat, w1: WorkerId, w2: WorkerId)
    requires Inv(s) && !Covered(s, r) && Enabled(s, StartWorker(w1)) && w2 in s.workers
    requires var t := Apply(s, StartWorker(w1)); Enabled(t, Claim(w2, s.runs[r].id))
    ensures var t := Apply(Apply(s, StartWorker(w1)), Claim(w2, s.runs[r].id));
            s.nextRun in t.runs && r in t.runs && r != s.nextRun && t.runs[r].id == t.runs[s.nextRun].id
  {
    assert RunOk(s, r);
  }

  const NEW_WORKER := Worker(false, 1, 10, 3, 0, {})

  /** A job is claimed, its lease of ten lapses unrenewed, and a second worker starts. */
  function LapsingSteps(): seq<Step> {
    [Enqueue("j", "t", 2, 3), Spawn("a", NEW_WORKER), StartWorker("a"), Claim("a", "j"), Tick(11),
     Spawn("b", NEW_WORKER), StartWorker("b"), Claim("b", "j")]
  }

  /** The queue holding one row of job "j". */
  function OneJob(now: int, row: Job, workers: map<WorkerId, Worker>, runs: map<nat, Run>, nextRun: nat): State {
    State(now, map["j" := row], workers, runs, nextRun, {"j"}, 0, map["j" := 0])
  }

  lemma OneStep(s: State, steps: seq<Step>)
    requires steps != [] && Enabled(s, steps[0]) && IsHistory(Apply(s, steps[0]), steps[1..])
    ensures IsHistory(s, steps) && After(s, steps) == After(Apply(s, steps[0]), steps[1..])
  {
    hide Enabled, Apply;
  }

  lemma RecoverSingle(now: int, row: Job)
    ensures RecoverAll(map["j" := row], now) == map["j" := Recovered(row, now)]
  {
  }

  lemma ClaimOne(s: State, w: WorkerId)
    requires s.rows.Keys == {"j"} && Runnable(s.rows["j"], s.now)
    requires w in s.workers && s.workers[w].running && s.workers[w].active < s.workers[w].concurrency
    ensures Enabled(s, Claim(w, "j")) && Apply(s, Claim(w, "j")) == ClaimJob(s, w, "j")
  {
    assert NoLater(s.rows["j"], s.rows["j"]);
  }

  /** From the empty queue that history ends with the two workers executing the job at once. */
  lemma LapseReached()
    ensures IsHistory(Empty(0), LapsingSteps())
    ensures var s := After(Empty(0), LapsingSteps());
            && 0 in s.runs && 1 in s.runs && s.runs[0].id == s.runs[1].id == "j"
            && s.runs[0].worker == "a" && s.runs[1].worker == "b"
  {
    var steps := LapsingSteps();
    var s4 := LapseClaimed();
    LapseTwice(s4);
    assert steps == steps[..4] + steps[4..];
    hide LapsingSteps;
    HistoryJoin(Empty(0), steps[..4], steps[4..]);
  }

  lemma {:induction false} HistoryJoin(s: State, a: seq<Step>, b: seq<Step>)
    requires IsHistory(s, a) && IsHistory(After(s, a), b)
    ensures IsHistory(s, a + b) && After(s, a + b) == After(After(s, a), b)
    decreases |a|
  {
    if a == [] {
      assert a + b == b;
    } else {
      hide Enabled, Apply;
      HistoryJoin(Apply(s, a[0]), a[1..], b);
      assert (a + b)[1..] == a[1..] + b;
    }
  }

  /** Worker "a" executes the job under a lease until 10. */
  ghost predicate Claimed1(s: State) {
    && s.now == 0 && s.rows.Keys == {"j"} && s.nextRun == 1
    && s.rows["j"].status == Active && s.rows["j"].lease == Lease("a", 10) && s.workers.Keys == {"a"}
    && s.runs.Keys == {0} && s.runs[0].id == "j" && s.runs[0].worker == "a"
  }

  lemma LapseClaimed() returns (s4: State)
    ensures IsHistory(Empty(0), LapsingSteps()[..4]) && After(Empty(0), LapsingSteps()[..4]) == s4 && Claimed1(s4)
  {
    var t := LapsingSteps()[..4];
    var row := NewJob("t", 2, 3, 0);
    var s1 := OneJob(0, row, map[], map[], 0);
    assert Apply(Empty(0), t[0]) == s1;
    var s2 := OneJob(0, row, map["a" := NEW_WORKER], map[], 0);
    assert Apply(s1, t[1]) == s2;
    var on := NEW_WORKER.(running := true);
    var s3 := OneJob(0, row, map["a" := on], map[], 0);
    RecoverSingle(0, row);
    assert Apply(s2, t[2]) == s3;
    ClaimOne(s3, "a");
    s4 := ClaimJob(s3, "a", "j");
    assert Claimed1(s4);
    assert Enabled(Empty(0), t[0]) && Enabled(s1, t[1]) && Enabled(s2, t[2]);
    hide Enabled, Apply, ClaimJob, Claimed1;
    assert t[1..][1..] == t[2..] && t[2..][1..] == t[3..] && t[3..][1..] == [];
    assert IsHistory(s4, []) && After(s4, []) == s4;
    OneStep(s3, t[3..]);
    OneStep(s2, t[2..]);
    OneStep(s1, t[1..]);
    OneStep(Empty(0), t);
  }

  lemma LapseTwice(s4: State)
    requires Claimed1(s4)
    ensures IsHistory(s4, LapsingSteps()[4..])
    ensures var s := After(s4, LapsingSteps()[4..]);
            && 0 in s.runs && 1 in s.runs && s.runs[0].id == s.runs[1].id == "j"
            && s.runs[0].worker == "a" && s.runs[1].worker == "b"
  {
    var t := LapsingSteps()[4..];
    var s5 := Apply(s4, t[0]);
    var s6 := Apply(s5, t[1]);
    var s7 := Apply(s6, t[2]);
    assert s4.rows == map["j" := s4.rows["j"]];
    RecoverSingle(11, s4.rows["j"]);
    assert s7.rows["j"].status == Pending && s7.rows.Keys == {"j"} && s7.now == 11 && s7.runs == s4.runs && s7.nextRun == 1;
    assert s7.workers["b"] == NEW_WORKER.(running := true);
    ClaimOne(s7, "b");
    var s8 := ClaimJob(s7, "b", "j");
    assert s8.runs[1].worker == "b" && s8.runs[0] == s4.runs[0];
    assert Enabled(s4, t[0]) && Enabled(s5, t[1]) && Enabled(s6, t[2]);
    hide Enabled, Apply, ClaimJob, Claimed1;
    assert t[1..][1..] == t[2..] && t[2..][1..] == t[3..] && t[3..][1..] == [];
    assert IsHistory(s8, []) && After(s8, []) == s8;
    OneStep(s7, t[3..]);
    OneStep(s6, t[2..]);
    OneStep(s5, t[1..]);
    OneStep(s4, t);
  }

  // ------------------------------------------------------------------ the life of a job

  function StatusIn(s: State, id: JobId): Option<JobStatus> {
    if id in s.rows then Some(s.rows[id].status) else None
  }

  predicate Removes(s: State, step: Step, id: JobId) {
    match step
    case Delete(k) => k == id
    case Purge(before) => id in s.rows && AgedOut(s.rows[id], before)
    case _ => false
  }

  predicate RunEnds(s: State, step: Step, id: JobId) {
    match step
    case Succeed(r) => r in s.runs && s.runs[r].id == id
    case Fail(r, _) => r in s.runs && s.runs[r].id == id
    case _ => false
  }

  predicate Reclaims(s: State, step: Step, id: JobId) {
    step.StartWorker? && id in s.rows && Lapsed(s.rows[id], s.now)
  }

  /** The only edges along which a step can move a job. */
  predicate Moves(s: State, step: Step, id: JobId, was: Option<JobStatus>, now: Option<JobStatus>) {
    || was == now
    || (was == None && now == Some(Pending) && step.Enqueue? && step.id == id)
    || (now == None && Removes(s, step, id))
    || (was in {Some(Pending), Some(Failed)} && now == Some(Active) && step.Claim? && step.id == id)
    || (was == Some(Active) && now == Some(Completed) && step.Succeed? && RunEnds(s, step, id))
    || (was == Some(Active) && now == Some(Failed) && step.Fail? && RunEnds(s, step, id))
    || (was in {Some(Active), Some(Failed), Some(Pending)} && now == Some(DeadLetter) && step.Fail? && RunEnds(s, step, id))
    || (was == Some(Active) && now == Some(Pending) && Reclaims(s, step, id))
    || (was == Some(DeadLetter) && now == Some(Pending) && step == Replay(id))
  }

  /** A job keeps its task. */
  predicate SameTask(s: State, t: State, id: JobId) {
    id in s.rows && id in t.rows ==> t.rows[id].task == s.rows[id].task
  }

  lemma RunEndMoves(s: State, step: Step, id: JobId)
    requires Enabled(s, step) && (step.Succeed? || step.Fail?)
    ensures Moves(s, step, id, StatusIn(s, id), StatusIn(Apply(s, step), id))
    ensures SameTask(s, Apply(s, step), id)
  {
    hide Limit, EndRun;
    EndRunRows(s, step.r);
    var job := s.runs[step.r].id;
    if job in s.rows {
      var row := if step.Succeed? then CompletedRow(s.rows[job], s.now)
                 else FailedRow(s.rows[job], s.runs[step.r].job, WorkerMax(s, s.runs[step.r].worker), s.now, step.delay);
      EndRunRows(SetRow(s, job, row), step.r);
      EndRunRows(SetRow(s, job, row).(failures := s.failures[job := (if job in s.failures then s.failures[job] else 0) + 1]), step.r);
    }
  }

  lemma EndRunRows(s: State, r: nat)
    requires r in s.runs
    ensures EndRun(s, r).rows == s.rows
  {
  }

  lemma TableMoves(s: State, step: Step, id: JobId)
    requires Enabled(s, step) && s.rows.Keys <= s.inserted
    requires step.Enqueue? || step.Replay? || step.Delete? || step.Purge? || step.StartWorker?
    ensures Moves(s, step, id, StatusIn(s, id), StatusIn(Apply(s, step), id))
    ensures SameTask(s, Apply(s, step), id)
  {
  }

  lemma OtherMoves(s: State, step: Step, id: JobId)
    requires Enabled(s, step) && !step.Succeed? && !step.Fail?
    requires !(step.Enqueue? || step.Replay? || step.Delete? || step.Purge? || step.StartWorker?)
    ensures Moves(s, step, id, StatusIn(s, id), StatusIn(Apply(s, step), id))
    ensures SameTask(s, Apply(s, step), id)
  {
    if step.Claim? { ClaimableRow(s, step.w, step.id); }
    hide Next;
  }

  /** In any state at all, whoever runs what, a step moves a job only along these edges. */
  lemma StatusMoves(s: State, step: Step, id: JobId)
    requires Enabled(s, step) && s.rows.Keys <= s.inserted
    ensures Moves(s, step, id, StatusIn(s, id), StatusIn(Apply(s, step), id))
    ensures SameTask(s, Apply(s, step), id)
  {
    hide Moves, Enabled, Apply, StatusIn, SameTask;
    if step.Succeed? || step.Fail? {
      RunEndMoves(s, step, id);
    } else if step.Enqueue? || step.Replay? || step.Delete? || step.Purge? || step.StartWorker? {
      TableMoves(s, step, id);
    } else {
      OtherMoves(s, step, id);
    }
  }

  /** In every history whatever, a completed job stays completed for as long as its row exists. */
  lemma {:induction false} CompletedForever(s: State, steps: seq<Step>, id: JobId)
    requires s.rows.Keys <= s.inserted && IsHistory(s, steps)
    requires id in s.inserted && StatusIn(s, id) in {Some(Completed), None}
    ensures StatusIn(After(s, steps), id) in {StatusIn(s, id), None}
    decreases |steps|
  {
    if steps != [] {
      StatusMoves(s, steps[0], id);
      InsertedGrows(s, steps[0], id);
      RowsInserted(s, steps[0]);
      hide Enabled, Apply;
      CompletedForever(Apply(s, steps[0]), steps[1..], id);
    }
  }

  lemma RowsInserted(s: State, step: Step)
    requires Enabled(s, step) && s.rows.Keys <= s.inserted
    ensures Apply(s, step).rows.Keys <= Apply(s, step).inserted
  {
    forall id | id in Apply(s, step).rows ensures id in Apply(s, step).inserted {
      StatusMoves(s, step, id);
      if id in s.inserted { InsertedGrows(s, step, id); }
      hide Next, Limit;
    }
  }

  lemma InsertedGrows(s: State, step: Step, id: JobId)
    requires Enabled(s, step) && id in s.inserted
    ensures id in Apply(s, step).inserted
  {
    hide Next;
  }

  /** The retry budget of a job with a limit of at least one: failed runs since insertion or replay never exceed
      the limit, and the job is parked exactly when they reach it. */
  lemma RetryBudget(now: int, steps: seq<Step>, id: JobId)
    requires IsHistory(Empty(now), steps) && SafeHistory(Empty(now), steps)
    ensures var s := After(Empty(now), steps);
            id in s.rows && s.rows[id].maxAttempts >= 1 ==>
              && id in s.failures && s.failures[id] == s.rows[id].attempts <= s.rows[id].maxAttempts
              && (s.rows[id].status == DeadLetter <==> s.rows[id].attempts == s.rows[id].maxAttempts)
  {
    EmptyInv(now);
    HistoryKeepsInv(Empty(now), steps);
    assert RowOk(After(Empty(now), steps), id);
  }

  // ------------------------------------------------------------------ counts

  function InStatus(rows: Rows, st: JobStatus): set<JobId> { set id | id in rows && rows[id].status == st }

  function InAny(rows: Rows, sts: set<JobStatus>): set<JobId> { set id | id in rows && rows[id].status in sts }

  lemma AddStatus(rows: Rows, sts: set<JobStatus>, st: JobStatus)
    requires st !in sts
    ensures |InAny(rows, sts + {st})| == |InAny(rows, sts)| + |InStatus(rows, st)|
  {
    assert InAny(rows, sts + {st}) == InAny(rows, sts) + InStatus(rows, st);
    assert InAny(rows, sts) !! InStatus(rows, st);
  }

  lemma AllStatuses(rows: Rows, sts: set<JobStatus>)
    requires forall st :: st in sts
    ensures InAny(rows, sts) == rows.Keys && |rows| == |rows.Keys|
  {
  }

  lemma NoStatus(rows: Rows)
    ensures |InAny(rows, {})| == 0
  {
    assert InAny(rows, {}) == {};
  }

  lemma StatusesPartition(rows: Rows)
    ensures |InStatus(rows, Pending)| + |InStatus(rows, Active)| + |InStatus(rows, Completed)|
            + |InStatus(rows, Failed)| + |InStatus(rows, DeadLetter)| == |rows|
  {
    hide InAny, InStatus;
    NoStatus(rows);
    AddStatus(rows, {}, Pending);
    var s1 := {} + {Pending};
    AddStatus(rows, s1, Active);
    var s2 := s1 + {Active};
    AddStatus(rows, s2, Completed);
    var s3 := s2 + {Completed};
    AddStatus(rows, s3, Failed);
    var s4 := s3 + {Failed};
    AddStatus(rows, s4, DeadLetter);
    forall st: JobStatus ensures st in s4 + {DeadLetter} {
      match st case Pending => case Active => case Completed => case Failed => case DeadLetter =>
    }
    AllStatuses(rows, s4 + {DeadLetter});
  }

  lemma {:induction false} HistoryKeepsTally(s: State, steps: seq<Step>)
    requires Tally(s) && IsHistory(s, steps)
    ensures Tally(After(s, steps))
    decreases |steps|
  {
    hide Tally, Enabled, Apply;
    if steps != [] {
      StepKeepsTally(s, steps[0]);
      HistoryKeepsTally(Apply(s, steps[0]), steps[1..]);
    }
  }

  /** In every history whatever, the five counts add up to the jobs inserted minus the rows removed. */
  lemma CountsConserved(now: int, steps: seq<Step>)
    requires IsHistory(Empty(now), steps)
    ensures var s := After(Empty(now), steps);
            |InStatus(s.rows, Pending)| + |InStatus(s.rows, Active)| + |InStatus(s.rows, Completed)|
            + |InStatus(s.rows, Failed)| + |InStatus(s.rows, DeadLetter)| == |s.inserted| - s.removed
  {
    HistoryKeepsTally(Empty(now), steps);
    StatusesPartition(After(Empty(now), steps).rows);
  }

  // ------------------------------------------------------------------ one live job a task

  predicate Live(j: Job) { j.status in {Pending, Active, Failed} }

  function LiveJobs(rows: Rows, task: string): set<JobId> { set id | id in rows && Live(rows[id]) && rows[id].task == task }

  predicate AtMostOne(rows: Rows, task: string) { |LiveJobs(rows, task)| <= 1 }

  predicate HasPending(rows: Rows, task: string) { exists id :: id in rows && rows[id].task == task && Live(rows[id]) }

  /** Insertion keeps one live job a task exactly when the enqueueUnique check would pass. */
  lemma EnqueueKeepsOneIff(s: State, id: JobId, task: string, priority: int, maxAttempts: int)
    requires AtMostOne(s.rows, task) && id !in s.rows
    ensures AtMostOne(EnqueueJob(s, id, NewJob(task, priority, maxAttempts, s.now)).rows, task)
            <==> !HasPending(s.rows, task)
  {
    var t := EnqueueJob(s, id, NewJob(task, priority, maxAttempts, s.now));
    assert LiveJobs(t.rows, task) == LiveJobs(s.rows, task) + {id};
    assert HasPending(s.rows, task) <==> LiveJobs(s.rows, task) != {} by {
      if k :| k in LiveJobs(s.rows, task) { assert s.rows[k].task == task; }
      if HasPending(s.rows, task) {
        var k :| k in s.rows && s.rows[k].task == task && Live(s.rows[k]);
        assert k in LiveJobs(s.rows, task);
      }
    }
  }

  /** Replaying a parked job keeps one live job a task exactly when the task has no other live job. */
  lemma ReplayKeepsOneIff(s: State, id: JobId)
    requires id in s.rows && s.rows[id].status == DeadLetter && AtMostOne(s.rows, s.rows[id].task)
    ensures AtMostOne(ReplayJob(s, id).rows, s.rows[id].task) <==> LiveJobs(s.rows, s.rows[id].task) == {}
  {
    assert LiveJobs(ReplayJob(s, id).rows, s.rows[id].task) == LiveJobs(s.rows, s.rows[id].task) + {id};
  }

  /** No other step creates a live job. */
  lemma OthersKeepOne(s: State, step: Step, task: string)
    requires Enabled(s, step) && s.rows.Keys <= s.inserted && !step.Enqueue? && !step.Replay?
    requires AtMostOne(s.rows, task)
    ensures AtMostOne(Apply(s, step).rows, task)
  {
    var t := Apply(s, step);
    forall id | id in LiveJobs(t.rows, task) ensures id in LiveJobs(s.rows, task) {
      StatusMoves(s, step, id);
    }
    SubsetCardinality(LiveJobs(t.rows, task), LiveJobs(s.rows, task));
  }
}
