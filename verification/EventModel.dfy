/**
 * The event log's tiers: live rows, the archive table and the cold day files, with the bus
 * that numbers events. A step is one transaction, one emit, or one process restart.
 */
module EventModel {
  import opened Common

  type TaskId = string
  type Day = int

  const MS_PER_DAY := 24 * 60 * 60 * 1000

  datatype Key = Key(task: TaskId, number: nat)

  /** `node` is the nullable node_id column; `at` is the event time in milliseconds. */
  datatype Event = Event(key: Key, node: Option<string>, kind: string, at: int, payload: Option<string>)

  datatype LiveRow = LiveRow(event: Event, globalSeq: nat)

  /** An archived row stores '' for a null node_id. */
  datatype ArchiveRow = ArchiveRow(
    key: Key, node: string, kind: string, at: int, payload: Option<string>, globalSeq: nat, archivedAt: int)

  type Live = map<Key, LiveRow>
  type Archive = map<Key, ArchiveRow>

  /** A day file holds archive rows; it is readable when its checksum sidecar matches. */
  datatype DayFile = DayFile(rows: Archive, readable: bool)

  function NodeText(node: Option<string>): string { match node { case Some(n) => n case None => "" } }

  function ToArchive(row: LiveRow, archivedAt: int): ArchiveRow {
    var e := row.event;
    ArchiveRow(e.key, NodeText(e.node), e.kind, e.at, e.payload, row.globalSeq, archivedAt)
  }

  function FromArchive(row: ArchiveRow): Event {
    Event(row.key, if row.node == "" then None else Some(row.node), row.kind, row.at, row.payload)
  }

  function DayOf(at: int): Day { at / MS_PER_DAY }

  // ------------------------------------------------------------------ compaction

  function TaskKeys(live: Live, task: TaskId): set<Key> { set k | k in live && k.task == task }

  function ArchivedKeys(archive: Archive, task: TaskId): set<Key> { set k | k in archive && k.task == task }

  /** Rows whose key is already archived are skipped. */
  function InsertOrIgnore(archive: Archive, live: Live, task: TaskId, archivedAt: int): Archive {
    map k | k in archive.Keys + TaskKeys(live, task) ::
      if k in archive then archive[k] else ToArchive(live[k], archivedAt)
  }

  function WithoutTask(live: Live, task: TaskId): Live { live - TaskKeys(live, task) }

  // ------------------------------------------------------------------ cold files

  function DayRows(archive: Archive, day: Day): Archive {
    map k | k in archive && DayOf(archive[k].at) == day :: archive[k]
  }

  function WithoutDay(archive: Archive, day: Day): Archive { archive - DayRows(archive, day).Keys }

  function FileRows(files: map<Day, DayFile>, day: Day): Archive {
    if day in files then files[day].rows else map[]
  }

  /** Union keyed by (task, number); rows of `existing` win. */
  function Merge(existing: Archive, incoming: Archive): Archive { incoming + existing }

  predicate Readable(files: map<Day, DayFile>, day: Day) { day in files ==> files[day].readable }

  /** How far writing a day file and deleting its rows got. */
  datatype ArchiveOutcome =
    | Archived               // file, sidecar and delete all done
    | NothingWritten         // failed before the rename
    | SidecarStale           // failed between the rename and the sidecar
    | WrittenOnly            // file and sidecar done, the transaction rolled back

  function AddDays(archive: Archive, files: map<Day, DayFile>, days: seq<Day>): Archive
    decreases |days|
  {
    if days == [] then archive
    else AddDays(Merge(archive, FileRows(files, days[0])), files, days[1..])
  }

  // ------------------------------------------------------------------ the bus

  function NextSeq(next: map<TaskId, nat>, task: TaskId): nat { if task in next then next[task] else 0 }

  function Seqs(live: Live, task: TaskId): set<nat> { set k | k in live && k.task == task :: k.number }

  function Tasks(live: Live): set<TaskId> { set k | k in live :: k.task }

  predicate IsMax(m: nat, seqs: set<nat>) { m in seqs && forall x :: x in seqs ==> x <= m }

  lemma {:induction false} MaxExists(seqs: set<nat>) returns (m: nat)
    requires seqs != {}
    ensures IsMax(m, seqs)
  {
    var x :| x in seqs;
    if seqs == {x} {
      m := x;
    } else {
      var y := MaxExists(seqs - {x});
      m := if x > y then x else y;
      assert forall z :: z in seqs ==> z == x || z in seqs - {x};
    }
  }

  lemma SomeMax(live: Live, task: TaskId)
    requires task in Tasks(live)
    ensures exists m: nat :: IsMax(m, Seqs(live, task))
  {
    var k :| k in live && k.task == task;
    assert k.number in Seqs(live, task);
    var m := MaxExists(Seqs(live, task));
    assert IsMax(m, Seqs(live, task));
  }

  ghost function MaxSeq(live: Live, task: TaskId): (m: nat)
    requires task in Tasks(live)
    ensures IsMax(m, Seqs(live, task))
  {
    SomeMax(live, task);
    var m: nat :| IsMax(m, Seqs(live, task));
    m
  }

  /** Counters rebuilt from the live rows. */
  ghost function Rehydrated(live: Live): map<TaskId, nat> {
    map t | t in Tasks(live) :: MaxSeq(live, t) + 1
  }

  /** An empty node id is dropped before the event reaches the store. */
  function BusNode(nodeId: string): Option<string> { if nodeId == "" then None else Some(nodeId) }

  // ------------------------------------------------------------------ the machine

  datatype State = State(
    live: Live,
    archive: Archive,
    files: map<Day, DayFile>,
    next: map<TaskId, nat>,
    globalSeq: nat,
    appended: set<Event>,            // log: every event whose append succeeded
    dropped: set<Event>)             // log: every event in a purged day file

  datatype Step =
    | Emit(task: TaskId, nodeId: string, kind: string, at: int, payload: Option<string>, storeOk: bool)
    | Restart(rehydrates: bool)
    | Compact(task: TaskId, archivedAt: int, commits: bool)
    | ArchiveDay(day: Day, outcome: ArchiveOutcome)
    | RestoreDays(days: seq<Day>, commits: bool)
    | PurgeDay(day: Day)

  function Stamped(s: State, task: TaskId, nodeId: string, kind: string, at: int, payload: Option<string>): Event {
    Event(Key(task, NextSeq(s.next, task)), BusNode(nodeId), kind, at, payload)
  }

  /** The number is used up whether or not the append succeeds; a taken key makes it fail. */
  function EmitEvent(s: State, e: Event, storeOk: bool): State {
    var t := s.(next := s.next[e.key.task := e.key.number + 1]);
    if storeOk && e.key !in s.live then
      t.(live := s.live[e.key := LiveRow(e, s.globalSeq)], globalSeq := s.globalSeq + 1,
         appended := s.appended + {e})
    else t
  }

  function CompactRows(s: State, task: TaskId, archivedAt: int): State {
    s.(archive := InsertOrIgnore(s.archive, s.live, task, archivedAt), live := WithoutTask(s.live, task))
  }

  function ArchiveDayRows(s: State, day: Day, outcome: ArchiveOutcome): State {
    if DayRows(s.archive, day) == map[] || !Readable(s.files, day) then s
    else
      var merged := Merge(FileRows(s.files, day), DayRows(s.archive, day));
      match outcome
      case Archived => s.(files := s.files[day := DayFile(merged, true)], archive := WithoutDay(s.archive, day))
      case NothingWritten => s
      case SidecarStale => s.(files := s.files[day := DayFile(merged, false)])
      case WrittenOnly => s.(files := s.files[day := DayFile(merged, true)])
  }

  /** One unreadable file in the range makes the whole restore throw. */
  function Restore(s: State, days: seq<Day>): State {
    if forall d :: d in days ==> Readable(s.files, d) then s.(archive := AddDays(s.archive, s.files, days)) else s
  }

  function Purge(s: State, day: Day): State {
    s.(files := s.files - {day},
       dropped := s.dropped + (set k | k in FileRows(s.files, day) :: FromArchive(FileRows(s.files, day)[k])))
  }

  ghost function Apply(s: State, step: Step): State {
    match step
    case Emit(task, nodeId, kind, at, payload, ok) => EmitEvent(s, Stamped(s, task, nodeId, kind, at, payload), ok)
    case Restart(ok) => s.(next := if ok then Rehydrated(s.live) else map[])
    case Compact(task, at, commits) => if commits then CompactRows(s, task, at) else s
    case ArchiveDay(day, outcome) => ArchiveDayRows(s, day, outcome)
    case RestoreDays(days, commits) => if commits then Restore(s, days) else s
    case PurgeDay(day) => Purge(s, day)
  }

  ghost function After(s: State, steps: seq<Step>): State
    decreases |steps|
  {
    if steps == [] then s else After(Apply(s, steps[0]), steps[1..])
  }

  const EMPTY := State(map[], map[], map[], map[], 0, {}, {})
}
