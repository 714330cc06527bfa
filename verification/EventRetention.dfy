/** One retention pass: compact the finished tasks among the candidates, each in its own transaction. */
module EventRetention {
  import opened Common
  import opened EventModel
  import opened EventSummary
  import opened EventLog

  const TERMINAL_EVENT_TYPES := ["TaskCompleted", "TaskFailed"]
  const TERMINAL_TASK_STATUSES := ["completed", "failed", "cancelled", "payment_failed"]

  predicate HasTerminalLastEvent(kind: string) { kind in TERMINAL_EVENT_TYPES }

  /** The tasks database answers with the status of a task it knows, or the lookup throws. */
  datatype Lookup = LookupThrew | Found(status: Option<string>)

  predicate IsTerminal(l: Lookup) { l.Found? && l.status.Some? && l.status.value in TERMINAL_TASK_STATUSES }

  /** A task of the scan, with the type of its highest-numbered event. */
  datatype Candidate = Candidate(task: TaskId, lastEventType: string)

  /** What the tasks database and the event database answer for one task: its status when selected,
      its status inside the transaction, and the statement that fails. */
  datatype Answer = Answer(selected: Lookup, inTransaction: Lookup, fault: Fault)

  datatype Stats = Stats(
    candidates: nat, skipped: nat, compactedTasks: nat, eventsArchived: nat, eventsPurged: nat, failedTasks: nat)

  const NOTHING := Stats(0, 0, 0, 0, 0, 0)

  /** The task may be compacted: both databases say it finished, before and during the transaction. */
  predicate Eligible(c: Candidate, answers: TaskId -> Answer) {
    && c.lastEventType in {"TaskCompleted", "TaskFailed"}
    && forall l :: l in [answers(c.task).selected, answers(c.task).inTransaction] ==>
         l.Found? && l.status in {Some("completed"), Some("failed"), Some("cancelled"), Some("payment_failed")}
  }

  lemma EligibleIs(c: Candidate, answers: TaskId -> Answer)
    ensures Eligible(c, answers) <==>
              && HasTerminalLastEvent(c.lastEventType)
              && IsTerminal(answers(c.task).selected) && IsTerminal(answers(c.task).inTransaction)
  {
    var a := answers(c.task);
    assert a.selected in [a.selected, a.inTransaction] && a.inTransaction in [a.selected, a.inTransaction];
  }

  /** The status lookup that selects the candidate throws, which nothing inside the loop catches. */
  predicate Aborts(c: Candidate, answers: TaskId -> Answer) {
    c.lastEventType in {"TaskCompleted", "TaskFailed"} && answers(c.task).selected.LookupThrew?
  }

  /** The pass handles the first `n` candidates: all of them, or those before the first that aborts it. */
  ghost predicate StopsAfter(candidates: seq<Candidate>, answers: TaskId -> Answer, n: nat) {
    && n <= |candidates| && (forall i :: 0 <= i < n ==> !Aborts(candidates[i], answers))
    && (n < |candidates| ==> Aborts(candidates[n], answers))
  }

  /** A task is untouched by a pass, or it was eligible and every one of its rows was moved. */
  ghost predicate TaskMoved(before: Live, live: Live, archive: Archive, seen: seq<Candidate>,
                            answers: TaskId -> Answer, task: TaskId) {
    || (forall k :: k in before && k.task == task ==> k in live && live[k] == before[k])
    || (&& (exists c :: c in seen && c.task == task && Eligible(c, answers))
        && TaskKeys(live, task) == {} && TaskKeys(before, task) <= archive.Keys)
  }

  /** Live rows only ever leave, and archived rows only ever arrive. */
  ghost predicate OnlyMoves(before: Live, live: Live, held: Archive, archive: Archive) {
    && (forall k :: k in live ==> k in before && live[k] == before[k])
    && (forall k :: k in held ==> k in archive && archive[k] == held[k])
  }

  lemma CompactionMoves(live: Live, archive: Archive, task: TaskId, archivedAt: int)
    ensures OnlyMoves(live, WithoutTask(live, task), archive, InsertOrIgnore(archive, live, task, archivedAt))
    ensures TaskKeys(live, task) <= InsertOrIgnore(archive, live, task, archivedAt).Keys
  {
  }

  class Service {
    const db: EventDb
    const enabled: bool
    var stopped: bool
    var running: bool

    constructor (db: EventDb, enabled: bool)
      ensures this.db == db && this.enabled == enabled && !stopped && !running
    {
      this.db, this.enabled, stopped, running := db, enabled, false, false;
    }

    /** Every candidate up to the first lookup that throws ends skipped, compacted or failed, and what was
        purged is exactly what left the table. No `scan` is a scan that threw. */
    method Run(scan: Option<seq<Candidate>>, answers: TaskId -> Answer, archivedAt: int) returns (stats: Stats)
      modifies `running, db`live, db`archive, db`summary
      ensures !enabled || stopped || old(running) || scan == None ==>
                stats == NOTHING && db.live == old(db.live) && db.archive == old(db.archive) && db.summary == old(db.summary)
      ensures running == old(running)
      ensures enabled && !stopped && !old(running) && scan.Some? ==>
                && stats.candidates == |scan.value|
                && StopsAfter(scan.value, answers, stats.skipped + stats.compactedTasks + stats.failedTasks)
      ensures stats.eventsArchived == stats.eventsPurged == |old(db.live)| - |db.live|
      ensures var handled := stats.skipped + stats.compactedTasks + stats.failedTasks;
              scan.Some? && handled <= |scan.value| ==>
                PassMoved(old(db.live), db.live, old(db.archive), db.archive, scan.value[..handled], answers)
    {
      if !enabled || stopped || running {
        return NOTHING;
      }
      running := true;
      stats := NOTHING;
      if scan == None {
        running := false;
        return;
      }
      var candidates := scan.value;
      stats := stats.(candidates := |candidates|);
      ghost var before, held, seen := db.live, db.archive, [];
      for i := 0 to |candidates|
        invariant running && stats.candidates == |candidates| && seen == candidates[..i]
        invariant stats.skipped + stats.compactedTasks + stats.failedTasks == i
        invariant forall j :: 0 <= j < i ==> !Aborts(candidates[j], answers)
        invariant stats.eventsArchived == stats.eventsPurged == |before| - |db.live|
        invariant PassMoved(before, db.live, held, db.archive, seen, answers)
      {
        hide PassMoved, HasTerminalLastEvent;
        var c := candidates[i];
        if Aborts(c, answers) {
          running := false;
          return;
        }
        stats := Handle(c, answers, archivedAt, stats, before, held, seen);
        seen := seen + [c];
      }
      assert candidates[..|candidates|] == candidates;
      running := false;
    }

    /** One candidate, in its own transaction. */
    method Handle(c: Candidate, answers: TaskId -> Answer, archivedAt: int, was: Stats,
                  ghost before: Live, ghost held: Archive, ghost seen: seq<Candidate>) returns (stats: Stats)
      requires PassMoved(before, db.live, held, db.archive, seen, answers)
      modifies db`live, db`archive, db`summary
      ensures PassMoved(before, db.live, held, db.archive, seen + [c], answers)
      ensures stats.candidates == was.candidates
      ensures stats.skipped + stats.compactedTasks + stats.failedTasks == was.skipped + was.compactedTasks + was.failedTasks + 1
      ensures stats.eventsArchived - was.eventsArchived == stats.eventsPurged - was.eventsPurged == |old(db.live)| - |db.live|
    {
      EligibleIs(c, answers);
      hide PassMoved, Eligible, HasTerminalLastEvent, InsertOrIgnore, WithoutTask;
      if !HasTerminalLastEvent(c.lastEventType) || !IsTerminal(answers(c.task).selected) {
        SeenMore(before, db.live, held, db.archive, seen, c, answers);
        return was.(skipped := was.skipped + 1);
      }
      ghost var live, archive := db.live, db.archive;
      var outcome, nodes, sums := db.CompactTask(
        c.task, answers(c.task).selected.status.value, IsTerminal(answers(c.task).inTransaction), archivedAt, answers(c.task).fault);
      match outcome {
        case Threw =>
          SeenMore(before, db.live, held, db.archive, seen, c, answers);
          return was.(failedTasks := was.failedTasks + 1);
        case NoLiveEvents =>
          SeenMore(before, db.live, held, db.archive, seen, c, answers);
          return was.(skipped := was.skipped + 1);
        case Compacted(archived, _, purged) =>
          OneCompaction(before, live, archive, held, seen, answers, c, archivedAt);
          return was.(compactedTasks := was.compactedTasks + 1,
                      eventsArchived := was.eventsArchived + archived, eventsPurged := was.eventsPurged + purged);
      }
    }
  }

  /** What a pass has done to the two tables after the candidates `seen`: an eligible one without a fault is
      compacted, and nothing else leaves. */
  ghost predicate PassMoved(before: Live, live: Live, held: Archive, archive: Archive, seen: seq<Candidate>,
                        answers: TaskId -> Answer) {
    && OnlyMoves(before, live, held, archive) && (forall task :: TaskMoved(before, live, archive, seen, answers, task))
    && (forall c :: c in seen && Eligible(c, answers) && answers(c.task).fault == NoFault ==> TaskKeys(live, c.task) == {})
  }

  lemma SeenMore(before: Live, live: Live, held: Archive, archive: Archive, seen: seq<Candidate>, c: Candidate,
                 answers: TaskId -> Answer)
    requires PassMoved(before, live, held, archive, seen, answers)
    requires !Eligible(c, answers) || answers(c.task).fault != NoFault || TaskKeys(live, c.task) == {}
    ensures PassMoved(before, live, held, archive, seen + [c], answers)
  {
    forall task ensures TaskMoved(before, live, archive, seen + [c], answers, task) {
      assert TaskMoved(before, live, archive, seen, answers, task);
    }
  }

  lemma OneCompaction(before: Live, live: Live, archive: Archive, held: Archive, seen: seq<Candidate>,
                      answers: TaskId -> Answer, c: Candidate, archivedAt: int)
    requires PassMoved(before, live, held, archive, seen, answers) && Eligible(c, answers)
    ensures PassMoved(before, WithoutTask(live, c.task), held, InsertOrIgnore(archive, live, c.task, archivedAt), seen + [c], answers)
  {
    var after, archived := WithoutTask(live, c.task), InsertOrIgnore(archive, live, c.task, archivedAt);
    CompactionMoves(live, archive, c.task, archivedAt);
    forall d | d in seen + [c] && Eligible(d, answers) && answers(d.task).fault == NoFault
      ensures TaskKeys(after, d.task) == {} {
      if d in seen { assert TaskKeys(after, d.task) <= TaskKeys(live, d.task); }
    }
    forall task ensures TaskMoved(before, after, archived, seen + [c], answers, task) {
      assert TaskMoved(before, live, archive, seen, answers, task);
      assert TaskKeys(after, c.task) == {};
      if task == c.task && !(TaskKeys(before, task) <= archive.Keys) {
        assert TaskKeys(before, task) <= TaskKeys(live, task);
      }
    }
  }
}
