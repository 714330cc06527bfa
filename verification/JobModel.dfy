/**
 * The durable job queue: rows of the jobs table, the workers that share it, and the
 * handler executions in progress. A step is one statement or one synchronous stretch
 * of worker code; any number of workers interleave.
 */
module JobModel {
  import opened Common

  type JobId = string
  type WorkerId = string

  datatype JobStatus = Pending | Active | Completed | Failed | DeadLetter

  datatype Lease = NoLease | Lease(owner: WorkerId, expires: int)

  /** Times are instants on one clock; `priority` is the stored weight. */
  datatype Job = Job(
    task: string, priority: int, status: JobStatus, attempts: int, maxAttempts: int,
    nextRunAt: int, createdAt: int, updatedAt: int, failedAt: Option<int>, lease: Lease)

  type Rows = map<JobId, Job>

  // ------------------------------------------------------------------ single statements

  predicate Claimable(j: Job) {
    j.status == Pending || (j.status == Failed && j.attempts < j.maxAttempts)
  }

  predicate Runnable(j: Job, now: int) { Claimable(j) && j.nextRunAt <= now }

  /** Claim order: higher priority first, then older. */
  predicate NoLater(a: Job, b: Job) {
    a.priority > b.priority || (a.priority == b.priority && a.createdAt <= b.createdAt)
  }

  predicate Next(rows: Rows, now: int, id: JobId) {
    && id in rows && Runnable(rows[id], now)
    && forall k :: k in rows && Runnable(rows[k], now) ==> NoLater(rows[id], rows[k])
  }

  function Claimed(j: Job, now: int, lease: Lease): Job {
    j.(status := Active, updatedAt := now, lease := lease)
  }

  /** A row is the caller's when it is active and leased to it. */
  predicate OwnedBy(j: Job, w: WorkerId) {
    j.status == Active && j.lease.Lease? && j.lease.owner == w
  }

  predicate Lapsed(j: Job, now: int) {
    j.lease.NoLease? || j.lease.expires < now
  }

  function Recovered(j: Job, now: int): Job {
    if j.status == Active && Lapsed(j, now) then
      j.(status := Pending, nextRunAt := now, updatedAt := now, lease := NoLease)
    else j
  }

  function RecoverAll(rows: Rows, now: int): Rows {
    map id | id in rows :: Recovered(rows[id], now)
  }

  function Replayed(j: Job, now: int): Job {
    j.(status := Pending, attempts := 0, nextRunAt := now, failedAt := None, lease := NoLease, updatedAt := now)
  }

  predicate AgedOut(j: Job, before: int) {
    j.status == DeadLetter &&
    match j.failedAt { case Some(t) => t <= before case None => j.updatedAt <= before }
  }

  function PurgeAll(rows: Rows, before: int): Rows {
    map id | id in rows && !AgedOut(rows[id], before) :: rows[id]
  }

  /** The retry limit a failing run applies: the job's own, or the worker's when that is zero. */
  function Limit(job: Job, workerMax: int): int {
    if job.maxAttempts != 0 then job.maxAttempts else workerMax
  }

  /** The row after a failed run of snapshot `job`; the guarded update may match nothing. */
  function FailedRow(row: Job, job: Job, workerMax: int, now: int, delay: int): Job {
    var attempts := job.attempts + 1;
    if attempts < Limit(job, workerMax) then
      if row.status == Active then
        row.(status := Failed, attempts := attempts, nextRunAt := now + delay, updatedAt := now)
      else row
    else if row.status in {Active, Failed, Pending} then
      row.(status := DeadLetter, attempts := attempts, failedAt := Some(now), updatedAt := now)
    else row
  }

  function CompletedRow(row: Job, now: int): Job {
    if row.status == Active then row.(status := Completed, updatedAt := now) else row
  }

  // ------------------------------------------------------------------ the machine

  /** `active` is the worker's in-flight count, `timers` its lease heartbeats by job. */
  datatype Worker = Worker(running: bool, concurrency: int, ttl: nat, maxAttempts: int, active: int, timers: set<JobId>)

  /** One execution of the handler: the claimed snapshot and the time of its last renewal. */
  datatype Run = Run(worker: WorkerId, id: JobId, job: Job, renewed: int)

  datatype State = State(
    now: int,
    rows: Rows,
    workers: map<WorkerId, Worker>,
    runs: map<nat, Run>,
    nextRun: nat,
    inserted: set<JobId>,            // log: every id ever inserted
    removed: nat,                    // log: rows deleted
    failures: map<JobId, int>)       // log: failed runs since insertion or replay

  datatype Step =
    | Tick(to: int)
    | Enqueue(id: JobId, task: string, priority: int, maxAttempts: int)
    | Spawn(w: WorkerId, worker: Worker)
    | StartWorker(w: WorkerId)
    | Claim(w: WorkerId, id: JobId)
    | Beat(r: nat)
    | Succeed(r: nat)
    | Fail(r: nat, delay: int)
    | Abandon(r: nat)                // the run ends without touching its row
    | StopWorker(w: WorkerId)
    | Release(w: WorkerId, id: JobId)
    | Crash(w: WorkerId)
    | Replay(id: JobId)
    | Delete(id: JobId)
    | Purge(before: int)

  predicate Enabled(s: State, step: Step) {
    match step
    case Tick(to) => to >= s.now
    case Enqueue(id, _, _, _) => id !in s.inserted
    case Spawn(w, worker) =>
      w !in s.workers && !worker.running && worker.active == 0 && worker.timers == {} && worker.concurrency >= 0
    case StartWorker(w) => w in s.workers && !s.workers[w].running
    case Claim(w, id) =>
      && w in s.workers && s.workers[w].running && s.workers[w].active < s.workers[w].concurrency
      && Next(s.rows, s.now, id)
    case Beat(r) => r in s.runs && s.runs[r].worker in s.workers && s.runs[r].id in s.workers[s.runs[r].worker].timers
    case Succeed(r) => r in s.runs
    case Fail(r, delay) => r in s.runs && delay >= 0
    case Abandon(r) => r in s.runs
    case StopWorker(w) => w in s.workers && s.workers[w].running
    case Release(w, id) => w in s.workers && id in s.workers[w].timers   // a stop's last act, even if started again since
    case Crash(w) => w in s.workers
    case Replay(id) => true
    case Delete(id) => true
    case Purge(_) => true
  }

  function NewJob(task: string, priority: int, maxAttempts: int, now: int): Job {
    Job(task, priority, Pending, 0, maxAttempts, now, now, now, None, NoLease)
  }

  function EnqueueJob(s: State, id: JobId, job: Job): State {
    s.(rows := s.rows[id := job], inserted := s.inserted + {id}, failures := s.failures[id := 0])
  }

  function SetWorker(s: State, w: WorkerId, worker: Worker): State {
    s.(workers := s.workers[w := worker])
  }

  function Recover(s: State): State { s.(rows := RecoverAll(s.rows, s.now)) }

  function ClaimJob(s: State, w: WorkerId, id: JobId): State
    requires w in s.workers && id in s.rows
  {
    var worker := s.workers[w];
    var job := Claimed(s.rows[id], s.now, Lease(w, s.now + worker.ttl));
    s.(rows := s.rows[id := job],
       workers := s.workers[w := worker.(active := worker.active + 1, timers := worker.timers + {id})],
       runs := s.runs[s.nextRun := Run(w, id, job, s.now)],
       nextRun := s.nextRun + 1)
  }

  /** Renew if still owned; otherwise stop the heartbeat. */
  function BeatRun(s: State, r: nat): State
    requires r in s.runs && s.runs[r].worker in s.workers
  {
    var run := s.runs[r];
    var worker := s.workers[run.worker];
    if run.id in s.rows && OwnedBy(s.rows[run.id], run.worker) then
      s.(rows := s.rows[run.id := s.rows[run.id].(lease := Lease(run.worker, s.now + worker.ttl), updatedAt := s.now)],
         runs := s.runs[r := run.(renewed := s.now)])
    else SetWorker(s, run.worker, worker.(timers := worker.timers - {run.id}))
  }

  function SetRow(s: State, id: JobId, job: Job): State { s.(rows := s.rows[id := job]) }

  /** A run is over: its heartbeat stops and its slot is given back. */
  function EndRun(s: State, r: nat): State
    requires r in s.runs
  {
    var run := s.runs[r];
    var t := s.(runs := s.runs - {r});
    if run.worker in s.workers then
      var worker := s.workers[run.worker];
      SetWorker(t, run.worker, worker.(active := worker.active - 1, timers := worker.timers - {run.id}))
    else t
  }

  function SucceedRun(s: State, r: nat): State
    requires r in s.runs
  {
    var id := s.runs[r].id;
    EndRun(if id in s.rows then SetRow(s, id, CompletedRow(s.rows[id], s.now)) else s, r)
  }

  function WorkerMax(s: State, w: WorkerId): int {
    if w in s.workers then s.workers[w].maxAttempts else 0
  }

  /** The catch block of executeJob. */
  function FailRun(s: State, r: nat, delay: int): State
    requires r in s.runs
  {
    var run := s.runs[r];
    if run.id in s.rows then
      var row := FailedRow(s.rows[run.id], run.job, WorkerMax(s, run.worker), s.now, delay);
      EndRun(SetRow(s, run.id, row).(
               failures := s.failures[run.id := (if run.id in s.failures then s.failures[run.id] else 0) + 1]), r)
    else EndRun(s, r)
  }

  function ReleaseJob(s: State, w: WorkerId, id: JobId): State
    requires w in s.workers
  {
    var t := SetWorker(s, w, s.workers[w].(timers := s.workers[w].timers - {id}));
    if id in s.rows && OwnedBy(s.rows[id], w) then
      SetRow(t, id, s.rows[id].(lease := NoLease, updatedAt := s.now))
    else t
  }

  function RunsOf(s: State, w: WorkerId): set<nat> { set r | r in s.runs && s.runs[r].worker == w }

  function CrashWorker(s: State, w: WorkerId): State {
    s.(workers := s.workers - {w}, runs := s.runs - RunsOf(s, w))
  }

  function ReplayJob(s: State, id: JobId): State {
    if id in s.rows && s.rows[id].status == DeadLetter then
      SetRow(s, id, Replayed(s.rows[id], s.now)).(failures := s.failures[id := 0])
    else s
  }

  function KeepRows(s: State, rows: Rows): State {
    s.(rows := rows, removed := s.removed + (if |rows| <= |s.rows| then |s.rows| - |rows| else 0))
  }

  function Apply(s: State, step: Step): State
    requires Enabled(s, step)
  {
    match step
    case Tick(to) => s.(now := to)
    case Enqueue(id, task, priority, max) => EnqueueJob(s, id, NewJob(task, priority, max, s.now))
    case Spawn(w, worker) => SetWorker(s, w, worker)
    case StartWorker(w) => Recover(SetWorker(s, w, s.workers[w].(running := true)))
    case Claim(w, id) => ClaimJob(s, w, id)
    case Beat(r) => BeatRun(s, r)
    case Succeed(r) => SucceedRun(s, r)
    case Fail(r, delay) => FailRun(s, r, delay)
    case Abandon(r) => EndRun(s, r)
    case StopWorker(w) => SetWorker(s, w, s.workers[w].(running := false))
    case Release(w, id) => ReleaseJob(s, w, id)
    case Crash(w) => CrashWorker(s, w)
    case Replay(id) => ReplayJob(s, id)
    case Delete(id) => KeepRows(s, s.rows - {id})
    case Purge(before) => KeepRows(s, PurgeAll(s.rows, before))
  }

  predicate IsHistory(s: State, steps: seq<Step>)
    decreases |steps|
  {
    steps == [] || (Enabled(s, steps[0]) && IsHistory(Apply(s, steps[0]), steps[1..]))
  }

  function After(s: State, steps: seq<Step>): State
    requires IsHistory(s, steps)
    decreases |steps|
  {
    if steps == [] then s else After(Apply(s, steps[0]), steps[1..])
  }

  function Empty(now: int): State {
    State(now, map[], map[], map[], 0, {}, 0, map[])
  }
}
