/** The queue's own code: the job store's statements, the dead-letter queue and the worker's loops. */
module JobStore {
  import opened Common
  import opened JobModel
  import opened JobTheorems

  const CLAIM_BUSY_ATTEMPTS := 3

  /** How one attempt at the claim transaction ends. */
  datatype Tx = Ran | Busy | Broke

  datatype ClaimResult = Got(id: JobId) | Nothing | Thrown

  /** The first attempt that is not busy decides; three busy ones count as nothing found. */
  function Decided(tx: seq<Tx>, attempt: nat): Tx
    decreases CLAIM_BUSY_ATTEMPTS - attempt
  {
    if attempt >= CLAIM_BUSY_ATTEMPTS then Busy
    else if Attempt(tx, attempt) == Busy then Decided(tx, attempt + 1)
    else Attempt(tx, attempt)
  }

  function Attempt(tx: seq<Tx>, attempt: nat): Tx { if attempt < |tx| then tx[attempt] else Busy }

  datatype Updates = Updates(attempts: Option<int>, nextRunAt: Option<int>, failedAt: Option<int>)

  function Set<T>(u: Option<T>, v: T): T { match u case Some(x) => x case None => v }

  function UpdatedRow(j: Job, status: JobStatus, u: Updates, now: int): Job {
    j.(status := status, updatedAt := now, attempts := Set(u.attempts, j.attempts),
       nextRunAt := Set(u.nextRunAt, j.nextRunAt), failedAt := if u.failedAt.Some? then u.failedAt else j.failedAt)
  }

  /** Some runnable job comes no later than any other in `ids`. */
  lemma {:induction false} NextExists(rows: Rows, now: int, ids: set<JobId>) returns (id: JobId)
    requires ids != {} && forall k :: k in ids ==> k in rows && Runnable(rows[k], now)
    ensures id in ids && forall k :: k in ids ==> NoLater(rows[id], rows[k])
  {
    var k :| k in ids;
    if ids == {k} {
      id := k;
    } else {
      var rest := NextExists(rows, now, ids - {k});
      id := if NoLater(rows[k], rows[rest]) then k else rest;
    }
  }

  /** The table when the recovery pass has yet to visit `todo`. */
  function RecoverSome(rows: Rows, now: int, todo: set<JobId>): Rows {
    map id | id in rows :: if id in todo then rows[id] else Recovered(rows[id], now)
  }

  function Reclaimable(rows: Rows, now: int, todo: set<JobId>): set<JobId> {
    set id | id in rows && id !in todo && rows[id].status == Active && Lapsed(rows[id], now)
  }

  lemma RecoverNone(rows: Rows, now: int)
    ensures RecoverSome(rows, now, rows.Keys) == rows && Reclaimable(rows, now, rows.Keys) == {}
  {
  }

  lemma RecoverOne(rows: Rows, now: int, todo: set<JobId>, id: JobId)
    requires id in todo && id in rows
    ensures var some := RecoverSome(rows, now, todo);
            && some.Keys == rows.Keys && some[id] == rows[id]
            && RecoverSome(rows, now, todo - {id})
               == (if rows[id].status == Active && Lapsed(rows[id], now)
                   then some[id := rows[id].(status := Pending, nextRunAt := now, updatedAt := now, lease := NoLease)] else some)
    ensures |Reclaimable(rows, now, todo - {id})|
            == |Reclaimable(rows, now, todo)| + (if rows[id].status == Active && Lapsed(rows[id], now) then 1 else 0)
  {
    if rows[id].status == Active && Lapsed(rows[id], now) {
      assert Reclaimable(rows, now, todo - {id}) == Reclaimable(rows, now, todo) + {id};
    } else {
      assert Reclaimable(rows, now, todo - {id}) == Reclaimable(rows, now, todo);
    }
  }

  /** Exactly the active rows without a current lease became pending and due. */
  predicate ReclaimsLapsed(rows: Rows, after: Rows, now: int) {
    && after.Keys == rows.Keys
    && forall id :: id in rows ==>
         after[id] == if rows[id].status == Active && (rows[id].lease == NoLease || rows[id].lease.expires < now)
                      then rows[id].(status := Pending, nextRunAt := now, updatedAt := now, lease := NoLease)
                      else rows[id]
  }

  lemma RecoverDone(rows: Rows, now: int)
    ensures RecoverSome(rows, now, {}) == RecoverAll(rows, now) && ReclaimsLapsed(rows, RecoverAll(rows, now), now)
    ensures Reclaimable(rows, now, {}) == set id | id in rows && rows[id].status == Active
                                                   && (rows[id].lease == NoLease || rows[id].lease.expires < now)
  {
  }

  function AllRunnable(rows: Rows, now: int): set<JobId> { set k | k in rows && Runnable(rows[k], now) }

  /** The row is due, pending or to be retried, and none such has a higher priority, or the same priority
      and an earlier creation time. */
  predicate ComesFirst(rows: Rows, now: int, id: JobId) {
    && id in rows && rows[id].nextRunAt <= now
    && (rows[id].status == Pending || (rows[id].status == Failed && rows[id].attempts < rows[id].maxAttempts))
    && forall k :: k in rows && rows[k].nextRunAt <= now
                   && (rows[k].status == Pending || (rows[k].status == Failed && rows[k].attempts < rows[k].maxAttempts)) ==>
         && rows[k].priority <= rows[id].priority
         && (rows[k].priority == rows[id].priority ==> rows[id].createdAt <= rows[k].createdAt)
  }

  predicate NoneDue(rows: Rows, now: int) {
    forall k :: k in rows && rows[k].nextRunAt <= now ==>
      rows[k].status != Pending && (rows[k].status == Failed ==> rows[k].attempts >= rows[k].maxAttempts)
  }

  lemma NextComesFirst(rows: Rows, now: int, id: JobId)
    ensures Next(rows, now, id) <==> ComesFirst(rows, now, id)
  {
  }

  lemma NothingDue(rows: Rows, now: int)
    ensures AllRunnable(rows, now) == {} <==> NoneDue(rows, now)
  {
    forall k | k in rows && Runnable(rows[k], now) ensures k in AllRunnable(rows, now) { }
  }

  lemma DecidedIs(tx: seq<Tx>)
    ensures forall a :: 0 <= a < 3 && a < |tx| && (forall b :: 0 <= b < a ==> tx[b] == Busy) && tx[a] != Busy ==> Decided(tx, 0) == tx[a]
    ensures (forall b :: 0 <= b < 3 && b < |tx| ==> tx[b] == Busy) ==> Decided(tx, 0) == Busy
  {
    assert Decided(tx, 3) == Busy;
    assert Decided(tx, 2) == if Attempt(tx, 2) == Busy then Decided(tx, 3) else Attempt(tx, 2);
    assert Decided(tx, 1) == if Attempt(tx, 1) == Busy then Decided(tx, 2) else Attempt(tx, 1);
  }

  class JobStore {
    var rows: Rows
    var history: seq<(JobId, JobStatus)>

    constructor ()
      ensures rows == map[] && history == []
    {
      rows, history := map[], [];
    }

    /** The primary key refuses a second row with the same id. */
    method Insert(id: JobId, job: Job) returns (ok: bool)
      modifies `rows
      ensures ok <==> id !in old(rows)
      ensures rows == if ok then old(rows)[id := job] else old(rows)
    {
      ok := id !in rows;
      if ok {
        rows := rows[id := job];
      }
    }

    method HasPendingJobForTask(task: string) returns (found: bool)
      ensures found <==> HasPending(rows, task)
      ensures found <==> exists id :: id in rows && rows[id].task == task && rows[id].status in {Pending, Active, Failed}
    {
      found := exists id :: id in rows && rows[id].task == task && Live(rows[id]);
    }

    /** Claims a due pending or retriable job of the highest priority, the oldest among those. */
    method ClaimNextPendingJob(now: int, lease: Lease, tx: seq<Tx>) returns (result: ClaimResult)
      modifies `rows
      ensures result == Thrown <==> Decided(tx, 0) == Broke
      ensures result.Got? ==>
                && Next(old(rows), now, result.id) && ComesFirst(old(rows), now, result.id)
                && rows == old(rows)[result.id := old(rows)[result.id].(status := Active, updatedAt := now, lease := lease)]
                && rows == old(rows)[result.id := Claimed(old(rows)[result.id], now, lease)]
      ensures !result.Got? ==> rows == old(rows)
      ensures result == Nothing && Decided(tx, 0) == Ran ==> AllRunnable(rows, now) == {} && NoneDue(rows, now)
      ensures forall a :: 0 <= a < 3 && a < |tx| && (forall b :: 0 <= b < a ==> tx[b] == Busy) ==>
                && (tx[a] == Broke ==> result == Thrown)
                && (tx[a] == Ran ==> result != Thrown && (result == Nothing ==> NoneDue(rows, now)))
      ensures (forall b :: 0 <= b < 3 && b < |tx| ==> tx[b] == Busy) ==> result == Nothing
    {
      DecidedIs(tx);
      for attempt := 0 to CLAIM_BUSY_ATTEMPTS
        invariant Decided(tx, attempt) == Decided(tx, 0) && rows == old(rows)
      {
        match Attempt(tx, attempt) {
          case Busy =>
          case Broke => return Thrown;
          case Ran =>
            if AllRunnable(rows, now) == {} {
              assert NoneDue(rows, now) by { NothingDue(rows, now); }
              return Nothing;
            }
            ghost var first := NextExists(rows, now, AllRunnable(rows, now));
            assert Next(rows, now, first);
            var id :| id in rows && Next(rows, now, id);
            NextComesFirst(rows, now, id);
            rows := rows[id := Claimed(rows[id], now, lease)];
            return Got(id);
        }
      }
      return Nothing;
    }

    method ExtendLease(id: JobId, owner: WorkerId, expires: int, now: int) returns (renewed: bool)
      modifies `rows
      ensures renewed <==> id in old(rows) && OwnedBy(old(rows)[id], owner)
      ensures rows == if renewed then old(rows)[id := old(rows)[id].(lease := Lease(owner, expires), updatedAt := now)]
                      else old(rows)
    {
      renewed := id in rows && OwnedBy(rows[id], owner);
      if renewed {
        rows := rows[id := rows[id].(lease := Lease(owner, expires), updatedAt := now)];
      }
    }

    method ReleaseLease(id: JobId, owner: WorkerId, now: int) returns (released: bool)
      modifies `rows
      ensures released <==> id in old(rows) && OwnedBy(old(rows)[id], owner)
      ensures rows == if released then old(rows)[id := old(rows)[id].(lease := NoLease, updatedAt := now)] else old(rows)
    {
      released := id in rows && OwnedBy(rows[id], owner);
      if released {
        rows := rows[id := rows[id].(lease := NoLease, updatedAt := now)];
      }
    }

    /** The guarded update: the status is checked, the lease columns are neither checked nor cleared. */
    method UpdateStatus(id: JobId, status: JobStatus, updates: Updates, expected: set<JobStatus>, now: int)
      returns (changed: bool)
      modifies this
      ensures changed <==> id in old(rows) && (expected == {} || old(rows)[id].status in expected)
      ensures rows == if changed then old(rows)[id := UpdatedRow(old(rows)[id], status, updates, now)] else old(rows)
      ensures changed ==>
                && rows[id].status == status && rows[id].updatedAt == now
                && rows[id].attempts == (match updates.attempts case Some(a) => a case None => old(rows)[id].attempts)
                && rows[id].nextRunAt == (match updates.nextRunAt case Some(t) => t case None => old(rows)[id].nextRunAt)
                && rows[id].failedAt == (if updates.failedAt.Some? then updates.failedAt else old(rows)[id].failedAt)
                && rows[id].lease == old(rows)[id].lease && rows[id].task == old(rows)[id].task
                && rows[id].priority == old(rows)[id].priority && rows[id].maxAttempts == old(rows)[id].maxAttempts
                && rows[id].createdAt == old(rows)[id].createdAt
      ensures history == if changed then old(history) + [(id, status)] else old(history)
    {
      changed := id in rows && (expected == {} || rows[id].status in expected);
      if changed {
        rows := rows[id := UpdatedRow(rows[id], status, updates, now)];
        history := history + [(id, status)];
      }
    }

    method RetryDeadLetterJob(id: JobId, now: int) returns (requeued: bool)
      modifies `rows
      ensures requeued <==> id in old(rows) && old(rows)[id].status == DeadLetter
      ensures rows == if requeued then old(rows)[id := old(rows)[id].(
                        status := Pending, attempts := 0, nextRunAt := now, failedAt := None, lease := NoLease, updatedAt := now)]
                      else old(rows)
      ensures rows == if requeued then old(rows)[id := Replayed(old(rows)[id], now)] else old(rows)
    {
      requeued := id in rows && rows[id].status == DeadLetter;
      if requeued {
        rows := rows[id := Replayed(rows[id], now)];
      }
    }

    /** Counts the rows it reclaims. */
    method RecoverIncompleteJobs(now: int) returns (count: nat)
      modifies `rows
      ensures rows == RecoverAll(old(rows), now) && ReclaimsLapsed(old(rows), rows, now)
      ensures count == |set id | id in old(rows) && old(rows)[id].status == Active
                                 && (old(rows)[id].lease == NoLease || old(rows)[id].lease.expires < now)|
    {
      hide RecoverSome, Recovered;
      count := 0;
      var todo := rows.Keys;
      RecoverNone(rows, now);
      while todo != {}
        invariant todo <= rows.Keys == old(rows).Keys && count == |Reclaimable(old(rows), now, todo)|
        invariant rows == RecoverSome(old(rows), now, todo)
        decreases |todo|
      {
        var id :| id in todo;
        RecoverOne(old(rows), now, todo, id);
        if rows[id].status == Active && Lapsed(rows[id], now) {
          rows := rows[id := rows[id].(status := Pending, nextRunAt := now, updatedAt := now, lease := NoLease)];
          count := count + 1;
        }
        todo := todo - {id};
      }
      RecoverDone(old(rows), now);
    }

    method PurgeDeadLetters(before: int) returns (count: nat)
      modifies `rows
      ensures rows == PurgeAll(old(rows), before)
      ensures forall id :: id in rows <==>
                id in old(rows) && !(old(rows)[id].status == DeadLetter
                                     && (if old(rows)[id].failedAt.Some? then old(rows)[id].failedAt.value else old(rows)[id].updatedAt) <= before)
      ensures forall id :: id in rows ==> rows[id] == old(rows)[id]
      ensures count == |old(rows)| - |rows|
    {
      count := 0;
      var todo := rows.Keys;
      while todo != {}
        invariant todo <= rows.Keys <= old(rows).Keys && |rows| + count == |old(rows)|
        invariant forall id :: id in rows ==> rows[id] == old(rows)[id]
        invariant forall id :: id in old(rows) && id !in todo ==> (id in rows <==> !AgedOut(old(rows)[id], before))
        decreases |todo|
      {
        var id :| id in todo;
        if AgedOut(rows[id], before) {
          ghost var was := rows;
          rows := rows - {id};
          assert rows.Keys == was.Keys - {id} && |rows| == |rows.Keys| && |was| == |was.Keys|;
          count := count + 1;
        }
        todo := todo - {id};
      }
    }

    /** Group the rows by status and count each group. */
    method GetStats() returns (counts: map<JobStatus, nat>, total: nat)
      ensures forall st :: st in counts && counts[st] == |set id | id in rows && rows[id].status == st|
      ensures total == |rows|
    {
      counts := map[Pending := 0, Active := 0, Completed := 0, Failed := 0, DeadLetter := 0];
      total := 0;
      var todo := rows.Keys;
      ghost var done: set<JobId> := {};
      ZeroCounts(counts);
      while todo != {}
        invariant todo <= rows.Keys && done == rows.Keys - todo && total == |done|
        invariant forall st :: st in counts && counts[st] == |Seen(done, st)|
        decreases |todo|
      {
        hide Seen;
        var id :| id in todo;
        var status := rows[id].status;
        CountMore(counts, done, id, status);
        counts := counts[status := counts[status] + 1];
        done := done + {id};
        todo := todo - {id};
        total := total + 1;
      }
      forall st: JobStatus ensures Seen(done, st) == (set id | id in rows && rows[id].status == st) && |rows| == |done| {
        SeenAll(done, st);
      }
    }

    lemma SeenAll(done: set<JobId>, st: JobStatus)
      requires done == rows.Keys
      ensures Seen(done, st) == (set id | id in rows && rows[id].status == st) && |rows| == |done|
    {
    }

    ghost function Seen(ids: set<JobId>, st: JobStatus): set<JobId>
      reads this
    {
      set id | id in ids && id in rows && rows[id].status == st
    }

    lemma ZeroCount(counts: map<JobStatus, nat>, st: JobStatus)
      requires counts == map[Pending := 0, Active := 0, Completed := 0, Failed := 0, DeadLetter := 0]
      ensures st in counts && counts[st] == |Seen({}, st)|
    {
      assert Seen({}, st) == {};
      match st case Pending => case Active => case Completed => case Failed => case DeadLetter =>
    }

    lemma ZeroCounts(counts: map<JobStatus, nat>)
      requires counts == map[Pending := 0, Active := 0, Completed := 0, Failed := 0, DeadLetter := 0]
      ensures forall st :: st in counts && counts[st] == |Seen({}, st)|
    {
      forall st: JobStatus ensures st in counts && counts[st] == |Seen({}, st)| { ZeroCount(counts, st); }
    }

    lemma CountMore(counts: map<JobStatus, nat>, ids: set<JobId>, id: JobId, status: JobStatus)
      requires forall st :: st in counts && counts[st] == |Seen(ids, st)|
      requires id in rows && id !in ids && rows[id].status == status
      ensures var more := counts[status := counts[status] + 1];
              forall st :: st in more && more[st] == |Seen(ids + {id}, st)|
    {
      SeenMore(ids, id, status);
    }

    lemma SeenMore(ids: set<JobId>, id: JobId, status: JobStatus)
      requires id in rows && id !in ids && rows[id].status == status
      ensures forall st :: |Seen(ids + {id}, st)| == |Seen(ids, st)| + (if st == status then 1 else 0)
    {
      forall st ensures |Seen(ids + {id}, st)| == |Seen(ids, st)| + (if st == status then 1 else 0) {
        if st == status {
          assert Seen(ids + {id}, st) == Seen(ids, st) + {id};
        } else {
          assert Seen(ids + {id}, st) == Seen(ids, st);
        }
      }
    }
  }

  class DeadLetterQueue {
    const store: JobStore

    constructor (store: JobStore)
      ensures this.store == store
    {
      this.store := store;
    }

    /** Park a job that has used up its attempts. */
    method Push(id: JobId, attempts: int, now: int) returns (moved: bool)
      modifies store
      ensures moved <==> id in old(store.rows) && old(store.rows)[id].status in {Active, Failed, Pending}
      ensures store.rows == if moved then old(store.rows)[id := old(store.rows)[id].(
                              status := DeadLetter, attempts := attempts, failedAt := Some(now), updatedAt := now)]
                            else old(store.rows)
    {
      moved := store.UpdateStatus(id, DeadLetter, Updates(Some(attempts), None, Some(now)), {Active, Failed, Pending}, now);
    }
  }

  /** The table after claiming `ids` in turn. */
  function ClaimEach(rows: Rows, ids: seq<JobId>, now: int, lease: Lease): Rows {
    if ids == [] then rows
    else
      var before := ClaimEach(rows, ids[..|ids| - 1], now, lease);
      var id := ids[|ids| - 1];
      if id in before then before[id := Claimed(before[id], now, lease)] else before
  }

  predicate InClaimOrder(rows: Rows, ids: seq<JobId>, now: int, lease: Lease) {
    forall i :: 0 <= i < |ids| ==> Next(ClaimEach(rows, ids[..i], now, lease), now, ids[i])
  }

  /** The table after `ids` were claimed, row by row. */
  predicate ClaimsAre(rows: Rows, after: Rows, ids: seq<JobId>, now: int, lease: Lease) {
    && after.Keys == rows.Keys
    && forall id :: id in rows ==> after[id] == if id in ids then Claimed(rows[id], now, lease) else rows[id]
  }

  /** Claimed jobs are active, so the next runnable job is none of them. */
  lemma OneMoreClaim(rows: Rows, after: Rows, ids: seq<JobId>, now: int, lease: Lease, id: JobId)
    requires ClaimsAre(rows, after, ids, now, lease) && Next(after, now, id)
    ensures id !in ids && id in after
    ensures ClaimsAre(rows, after[id := Claimed(after[id], now, lease)], ids + [id], now, lease)
  {
    assert id in rows;
    assert after[id].status != Active;
  }

  lemma NextIn(rows: Rows, now: int, id: JobId)
    requires Next(rows, now, id)
    ensures id in rows
  {
  }

  lemma LastClaim(rows: Rows, ids: seq<JobId>, now: int, lease: Lease)
    requires InClaimOrder(rows, ids, now, lease) && ids != []
    ensures var front, id := ids[..|ids| - 1], ids[|ids| - 1];
            && ids == front + [id] && InClaimOrder(rows, front, now, lease)
            && var before := ClaimEach(rows, front, now, lease);
               Next(before, now, id) && id in before
               && ClaimEach(rows, ids, now, lease) == before[id := Claimed(before[id], now, lease)]
  {
    hide Next, Claimed;
    var front := ids[..|ids| - 1];
    assert ids == front + [ids[|ids| - 1]];
    NextIn(ClaimEach(rows, front, now, lease), now, ids[|ids| - 1]);
    forall i | 0 <= i < |front| ensures Next(ClaimEach(rows, front[..i], now, lease), now, front[i]) {
      assert front[..i] == ids[..i];
    }
  }

  /** A claiming loop never claims a job twice. */
  lemma {:induction false} ClaimedOnce(rows: Rows, ids: seq<JobId>, now: int, lease: Lease)
    requires InClaimOrder(rows, ids, now, lease)
    ensures NoDup(ids) && ClaimsAre(rows, ClaimEach(rows, ids, now, lease), ids, now, lease)
  {
    if ids == [] {
    } else {
      hide Next, ClaimsAre, InClaimOrder, ClaimEach, NoDup, Claimed;
      var front, id := ids[..|ids| - 1], ids[|ids| - 1];
      LastClaim(rows, ids, now, lease);
      ClaimedOnce(rows, front, now, lease);
      OneMoreClaim(rows, ClaimEach(rows, front, now, lease), front, now, lease, id);
      NoDupSnoc(front, id);
    }
  }

  /** A pass leases and activates the claimed rows only. Each was due, pending or to be retried; what was claimed
      later, or was due and left, has a lower priority, or the same and no earlier creation time. */
  ghost predicate Pass(rows: Rows, after: Rows, claimed: seq<JobId>, now: int, lease: Lease) {
    && after.Keys == rows.Keys
    && (forall id :: id in rows ==>
          after[id] == if id in claimed then rows[id].(status := Active, updatedAt := now, lease := lease) else rows[id])
    && (forall i :: 0 <= i < |claimed| ==> PassAt(rows, claimed, now, i))
  }

  ghost predicate PassAt(rows: Rows, claimed: seq<JobId>, now: int, i: nat)
    requires i < |claimed|
  {
    && claimed[i] in rows
    && var a := rows[claimed[i]];
       && a.nextRunAt <= now && (a.status == Pending || (a.status == Failed && a.attempts < a.maxAttempts))
       && (forall k :: k in rows && k !in claimed[..i] && rows[k].nextRunAt <= now
                       && (rows[k].status == Pending || (rows[k].status == Failed && rows[k].attempts < rows[k].maxAttempts)) ==>
             rows[k].priority <= a.priority && (rows[k].priority == a.priority ==> a.createdAt <= rows[k].createdAt))
  }

  lemma PassOrder(rows: Rows, claimed: seq<JobId>, now: int, lease: Lease)
    requires InClaimOrder(rows, claimed, now, lease)
    ensures NoDup(claimed) && Pass(rows, ClaimEach(rows, claimed, now, lease), claimed, now, lease)
  {
    ClaimedOnce(rows, claimed, now, lease);
    hide InClaimOrder, ClaimEach;
    forall i | 0 <= i < |claimed| ensures PassAt(rows, claimed, now, i) { ClaimAt(rows, claimed, now, lease, i); }
  }

  lemma ClaimAt(rows: Rows, claimed: seq<JobId>, now: int, lease: Lease, i: nat)
    requires InClaimOrder(rows, claimed, now, lease) && NoDup(claimed) && i < |claimed|
    ensures PassAt(rows, claimed, now, i)
  {
    var before := ClaimEach(rows, claimed[..i], now, lease);
    forall j | 0 <= j < i ensures Next(ClaimEach(rows, claimed[..i][..j], now, lease), now, claimed[..i][j]) {
      assert claimed[..i][..j] == claimed[..j];
    }
    ClaimedOnce(rows, claimed[..i], now, lease);
    NextComesFirst(before, now, claimed[i]);
    hide ClaimEach;
    assert claimed[i] !in claimed[..i];
  }

  lemma NoClaims(rows: Rows, now: int, lease: Lease)
    ensures InClaimOrder(rows, [], now, lease) && ClaimEach(rows, [], now, lease) == rows
  {
  }

  lemma ClaimSnoc(rows: Rows, ids: seq<JobId>, now: int, lease: Lease, id: JobId)
    requires InClaimOrder(rows, ids, now, lease) && Next(ClaimEach(rows, ids, now, lease), now, id)
    ensures InClaimOrder(rows, ids + [id], now, lease)
    ensures var before := ClaimEach(rows, ids, now, lease);
            id in before && ClaimEach(rows, ids + [id], now, lease) == before[id := Claimed(before[id], now, lease)]
  {
    var all := ids + [id];
    assert all[..|all| - 1] == ids;
    forall i | 0 <= i < |all| ensures Next(ClaimEach(rows, all[..i], now, lease), now, all[i]) {
      assert i < |ids| ==> all[..i] == ids[..i];
    }
  }

  class JobWorker {
    const store: JobStore
    const dlq: DeadLetterQueue
    const workerId: WorkerId
    const concurrency: int
    const leaseTtl: nat
    const maxAttempts: int
    var isRunning: bool
    var activeJobsCount: int
    var timers: set<JobId>

    constructor (store: JobStore, workerId: WorkerId, concurrency: int, leaseTtl: nat, maxAttempts: int)
      ensures this.store == store && this.workerId == workerId && this.concurrency == concurrency
      ensures this.leaseTtl == leaseTtl && this.maxAttempts == maxAttempts
      ensures !isRunning && activeJobsCount == 0 && timers == {}
      ensures dlq.store == store
    {
      this.store, this.workerId, this.concurrency, this.leaseTtl, this.maxAttempts :=
        store, workerId, concurrency, leaseTtl, maxAttempts;
      isRunning, activeJobsCount, timers := false, 0, {};
      dlq := new DeadLetterQueue(store);
    }

    method Start(now: int)
      modifies this, store
      ensures isRunning && activeJobsCount == old(activeJobsCount) && timers == old(timers)
      ensures old(isRunning) ==> store.rows == old(store.rows)
      ensures !old(isRunning) ==> store.rows == RecoverAll(old(store.rows), now) && ReclaimsLapsed(old(store.rows), store.rows, now)
    {
      if isRunning {
        return;
      }
      isRunning := true;
      var _ := store.RecoverIncompleteJobs(now);
    }

    /** Claim until at capacity or out of runnable jobs; every claimed job gets a heartbeat. */
    method ProcessJobs(now: int, tx: nat -> seq<Tx>) returns (ghost claimed: seq<JobId>)
      modifies this, store
      ensures isRunning == old(isRunning) && (!isRunning ==> claimed == [])
      ensures InClaimOrder(old(store.rows), claimed, now, Lease(workerId, now + leaseTtl))
      ensures NoDup(claimed) && Pass(old(store.rows), store.rows, claimed, now, Lease(workerId, now + leaseTtl))
      ensures store.rows == ClaimEach(old(store.rows), claimed, now, Lease(workerId, now + leaseTtl))
      ensures activeJobsCount == old(activeJobsCount) + |claimed|
      ensures activeJobsCount <= (if old(activeJobsCount) <= concurrency then concurrency else old(activeJobsCount))
      ensures timers == old(timers) + Elems(claimed)
      ensures isRunning && activeJobsCount < concurrency && (forall k: nat :: Decided(tx(k), 0) == Ran)
              ==> AllRunnable(store.rows, now) == {} && NoneDue(store.rows, now)
    {
      hide ClaimEach, InClaimOrder, Next, Claimed, Decided, ComesFirst, NoneDue, Pass, NoDup;
      claimed := [];
      NoClaims(store.rows, now, Lease(workerId, now + leaseTtl));
      var lease := Lease(workerId, now + leaseTtl);
      var k: nat := 0;
      while isRunning && activeJobsCount < concurrency
        invariant isRunning == old(isRunning) && (!isRunning ==> claimed == [])
        invariant InClaimOrder(old(store.rows), claimed, now, lease)
        invariant store.rows == ClaimEach(old(store.rows), claimed, now, lease)
        invariant activeJobsCount == old(activeJobsCount) + |claimed|
        invariant activeJobsCount <= (if old(activeJobsCount) <= concurrency then concurrency else old(activeJobsCount))
        invariant timers == old(timers) + Elems(claimed)
        decreases concurrency - activeJobsCount
      {
        var result := store.ClaimNextPendingJob(now, lease, tx(k));
        if !result.Got? {
          break;
        }
        ClaimSnoc(old(store.rows), claimed, now, lease, result.id);
        claimed := claimed + [result.id];
        activeJobsCount := activeJobsCount + 1;
        timers := timers + {result.id};
        k := k + 1;
      }
      PassOrder(old(store.rows), claimed, now, lease);
    }

    method Heartbeat(id: JobId, now: int)
      requires id in timers
      modifies this, store
      ensures isRunning == old(isRunning) && activeJobsCount == old(activeJobsCount)
      ensures id in old(store.rows) && OwnedBy(old(store.rows)[id], workerId) ==>
                && timers == old(timers)
                && store.rows == old(store.rows)[id := old(store.rows)[id].(
                                   lease := Lease(workerId, now + leaseTtl), updatedAt := now)]
      ensures !(id in old(store.rows) && OwnedBy(old(store.rows)[id], workerId)) ==>
                timers == old(timers) - {id} && store.rows == old(store.rows)
    {
      var renewed := store.ExtendLease(id, workerId, now + leaseTtl, now);
      if !renewed {
        timers := timers - {id};
      }
    }

    /** executeJob once the handler resolved. */
    method HandlerResolved(id: JobId, now: int)
      modifies this, store
      ensures store.rows == if id in old(store.rows) then old(store.rows)[id := CompletedRow(old(store.rows)[id], now)]
                            else old(store.rows)
      ensures store.rows == if id in old(store.rows) && old(store.rows)[id].status == Active
                            then old(store.rows)[id := old(store.rows)[id].(status := Completed, updatedAt := now)]
                            else old(store.rows)
      ensures timers == old(timers) - {id} && activeJobsCount == old(activeJobsCount) - 1 && isRunning == old(isRunning)
    {
      var _ := store.UpdateStatus(id, Completed, Updates(None, None, None), {Active}, now);
      timers := timers - {id};
      activeJobsCount := activeJobsCount - 1;
    }

    /** executeJob once the handler rejected; `job` is the claimed snapshot. */
    method HandlerRejected(id: JobId, job: Job, now: int, delay: int)
      requires dlq.store == store
      modifies this, store
      ensures store.rows == if id in old(store.rows)
                            then old(store.rows)[id := FailedRow(old(store.rows)[id], job, maxAttempts, now, delay)]
                            else old(store.rows)
      ensures var limit := if job.maxAttempts != 0 then job.maxAttempts else maxAttempts;
              id in old(store.rows) ==>
                var row := old(store.rows)[id];
                && (job.attempts + 1 < limit && row.status == Active ==>
                      store.rows[id] == row.(status := Failed, attempts := job.attempts + 1, nextRunAt := now + delay, updatedAt := now))
                && (job.attempts + 1 >= limit && row.status in {Active, Failed, Pending} ==>
                      store.rows[id] == row.(status := DeadLetter, attempts := job.attempts + 1, failedAt := Some(now), updatedAt := now))
                && (row.status in {Completed, DeadLetter} || (job.attempts + 1 < limit && row.status != Active) ==>
                      store.rows[id] == row)
      ensures timers == old(timers) - {id} && activeJobsCount == old(activeJobsCount) - 1 && isRunning == old(isRunning)
    {
      var attempts := job.attempts + 1;
      var limit := if job.maxAttempts != 0 then job.maxAttempts else maxAttempts;
      if attempts < limit {
        var _ := store.UpdateStatus(id, Failed, Updates(Some(attempts), Some(now + delay), None), {Active}, now);
      } else {
        var _ := dlq.Push(id, attempts, now);
      }
      timers := timers - {id};
      activeJobsCount := activeJobsCount - 1;
    }

    /** The last act of a graceful stop. */
    method ReleaseLeases(now: int)
      modifies this, store
      ensures timers == {} && isRunning == old(isRunning) && activeJobsCount == old(activeJobsCount)
      ensures store.rows.Keys == old(store.rows).Keys
      ensures forall id :: id in store.rows ==>
                store.rows[id] == if id in old(timers) && OwnedBy(old(store.rows)[id], workerId)
                                  then old(store.rows)[id].(lease := NoLease, updatedAt := now)
                                  else old(store.rows)[id]
    {
      while timers != {}
        invariant timers <= old(timers) && isRunning == old(isRunning) && activeJobsCount == old(activeJobsCount)
        invariant store.rows.Keys == old(store.rows).Keys
        invariant forall id :: id in store.rows && id in timers ==> store.rows[id] == old(store.rows)[id]
        invariant forall id :: id in store.rows && id !in timers ==>
                    store.rows[id] == if id in old(timers) && OwnedBy(old(store.rows)[id], workerId)
                                      then old(store.rows)[id].(lease := NoLease, updatedAt := now)
                                      else old(store.rows)[id]
        decreases |timers|
      {
        var id :| id in timers;
        timers := timers - {id};
        var _ := store.ReleaseLease(id, workerId, now);
      }
    }
  }

  class JobQueue {
    const store: JobStore
    var defaultMaxAttempts: int

    constructor (store: JobStore)
      ensures this.store == store && defaultMaxAttempts == 3
    {
      this.store := store;
      defaultMaxAttempts := 3;
    }

    method Enqueue(id: JobId, task: string, priority: int, maxAttempts: Option<int>, now: int) returns (ok: bool)
      modifies store
      ensures ok <==> id !in old(store.rows)
      ensures store.rows == if ok then old(store.rows)[id := NewJob(task, priority, Set(maxAttempts, defaultMaxAttempts), now)]
                            else old(store.rows)
      ensures ok ==> store.rows[id] == Job(task, priority, Pending, 0, if maxAttempts.Some? then maxAttempts.value else defaultMaxAttempts,
                                           now, now, now, None, NoLease)
    {
      ok := store.Insert(id, NewJob(task, priority, Set(maxAttempts, defaultMaxAttempts), now));
    }

    /** Refused while the task has a job that is pending, active or awaiting a retry. */
    method EnqueueUnique(id: JobId, task: string, priority: int, maxAttempts: Option<int>, now: int)
      returns (ok: bool)
      requires id !in store.rows
      modifies store
      ensures ok <==> !HasPending(old(store.rows), task)
      ensures AtMostOne(old(store.rows), task) ==> AtMostOne(store.rows, task)
      ensures ok ==> id in store.rows && Live(store.rows[id]) && store.rows[id].task == task
      ensures forall k :: k != id ==> (k in store.rows <==> k in old(store.rows)) &&
                                      (k in store.rows ==> store.rows[k] == old(store.rows)[k])
    {
      ghost var was := store.rows;
      var found := store.HasPendingJobForTask(task);
      if found {
        return false;
      }
      ok := Enqueue(id, task, priority, maxAttempts, now);
      if AtMostOne(was, task) {
        EnqueueKeepsOneIff(Empty(now).(rows := was), id, task, priority, Set(maxAttempts, defaultMaxAttempts));
      }
    }
  }
}
