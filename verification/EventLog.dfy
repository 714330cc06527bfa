/** The event log's own code: the store and its compaction, the bus, and the cold archive. */
module EventLog {
  import opened Common
  import opened EventModel
  import opened EventSummary

  /** Which statement of the compaction transaction fails, if any. */
  datatype Fault = NoFault | InsertFault | SummaryFault(at: nat) | DeleteFault | CommitFault

  datatype Outcome = Compacted(archived: nat, summaries: nat, purged: nat) | NoLiveEvents | Threw

  /** The keys archived for a task always cover its live keys, so the count read-back cannot fall short. */
  lemma ArchiveCoversLive(archive: Archive, live: Live, task: TaskId, archivedAt: int)
    ensures |ArchivedKeys(InsertOrIgnore(archive, live, task, archivedAt), task)| >= |TaskKeys(live, task)|
  {
    SubsetCardinality(TaskKeys(live, task), ArchivedKeys(InsertOrIgnore(archive, live, task, archivedAt), task));
  }

  lemma PurgedCount(live: Live, task: TaskId)
    ensures |live| - |WithoutTask(live, task)| == |TaskKeys(live, task)|
  {
    assert live.Keys == WithoutTask(live, task).Keys + TaskKeys(live, task);
    assert |live| == |live.Keys| && |WithoutTask(live, task)| == |WithoutTask(live, task).Keys|;
  }

  lemma NoneRemain(live: Live, task: TaskId)
    ensures TaskKeys(WithoutTask(live, task), task) == {}
  {
  }

  /** The task's rows left the live table for the archive, those with a key already archived without a trace;
      a null node id is archived as the empty one. */
  ghost predicate RowsMoved(live: Live, after: Live, archive: Archive, archived: Archive, task: TaskId, archivedAt: int) {
    && (forall k :: k in after <==> k in live && k.task != task) && (forall k :: k in after ==> after[k] == live[k])
    && (forall k :: k in archived <==> k in archive || (k in live && k.task == task))
    && (forall k :: k in archive ==> k in archived && archived[k] == archive[k])
    && (forall k :: k in live && k.task == task && k !in archive ==>
          && k in archived
          && var e := live[k].event;
             archived[k] == ArchiveRow(e.key, if e.node.Some? then e.node.value else "", e.kind, e.at, e.payload,
                                       live[k].globalSeq, archivedAt))
  }

  lemma MovedIs(live: Live, archive: Archive, task: TaskId, archivedAt: int)
    ensures RowsMoved(live, WithoutTask(live, task), archive, InsertOrIgnore(archive, live, task, archivedAt), task, archivedAt)
  {
  }

  /** The group's summary is stored under its node, unless a later group has the same one. */
  ghost predicate StoredLast(after: Summaries, task: TaskId, nodes: seq<Node>, sums: seq<Summary>, i: int)
    requires |nodes| == |sums|
  {
    0 <= i < |nodes| && (forall j :: i < j < |nodes| ==> NodeText(nodes[j]) != NodeText(nodes[i])) ==>
      (task, NodeText(nodes[i])) in after && after[(task, NodeText(nodes[i]))] == sums[i]
  }

  /** Each group's summary is stored under its node; all other summaries stay. */
  ghost predicate Upserted(table: Summaries, after: Summaries, task: TaskId, nodes: seq<Node>, sums: seq<Summary>)
    requires |nodes| == |sums|
  {
    && (forall i :: StoredLast(after, task, nodes, sums, i))
    && (forall key: (TaskId, string) :: key.0 != task || (forall n :: n in nodes ==> key.1 != NodeText(n)) ==>
          (key in after <==> key in table) && (key in table ==> after[key] == table[key]))
  }

  lemma {:induction false} UpsertedIs(table: Summaries, task: TaskId, nodes: seq<Node>, sums: seq<Summary>)
    requires |nodes| == |sums|
    ensures Upserted(table, UpsertAll(table, task, nodes, sums), task, nodes, sums)
  {
    if nodes != [] {
      var k := |nodes| - 1;
      UpsertedIs(table, task, nodes[..k], sums[..k]);
      assert nodes == nodes[..k] + [nodes[k]] && sums == sums[..k] + [sums[k]];
      UpsertedSnoc(table, UpsertAll(table, task, nodes[..k], sums[..k]), task, nodes[..k], sums[..k], nodes[k], sums[k]);
    }
  }

  lemma UpsertedSnoc(table: Summaries, before: Summaries, task: TaskId, nodes: seq<Node>, sums: seq<Summary>, n: Node, s: Summary)
    requires |nodes| == |sums| && Upserted(table, before, task, nodes, sums)
    ensures Upserted(table, before[(task, NodeText(n)) := s], task, nodes + [n], sums + [s])
  {
    hide NodeText;
    var after := before[(task, NodeText(n)) := s];
    forall i ensures StoredLast(after, task, nodes + [n], sums + [s], i) {
      if 0 <= i < |nodes| {
        assert StoredLast(before, task, nodes, sums, i);
        assert (nodes + [n])[|nodes|] == n;
        assert forall j :: 0 <= j < |nodes| ==> (nodes + [n])[j] == nodes[j];
      }
    }
    hide StoredLast;
    assert forall m :: m in nodes ==> m in nodes + [n];
    assert n in nodes + [n];
  }

  class EventDb {
    var live: Live
    var archive: Archive
    var summary: Summaries
    var globalSeq: nat

    constructor ()
      ensures live == map[] && archive == map[] && summary == map[] && globalSeq == 0
    {
      live, archive, summary, globalSeq := map[], map[], map[], 0;
    }

    /** Insert one event; the UNIQUE key refuses a second row with its number. */
    method Append(e: Event, storeOk: bool) returns (ok: bool)
      modifies `live, `globalSeq
      ensures ok <==> storeOk && e.key !in old(live)
      ensures live == if ok then old(live)[e.key := LiveRow(e, old(globalSeq))] else old(live)
      ensures globalSeq == if ok then old(globalSeq) + 1 else old(globalSeq)
    {
      ok := storeOk && e.key !in live;
      if ok {
        live := live[e.key := LiveRow(e, globalSeq)];
        globalSeq := globalSeq + 1;
      }
    }

    /** The highest stored number of each task. */
    method MaxTaskSeqPerTask() returns (result: map<TaskId, nat>)
      ensures result.Keys == Tasks(live)
      ensures forall t :: t in result ==> IsMax(result[t], Seqs(live, t))
      ensures forall k :: k in live ==> k.task in result && k.number <= result[k.task]
      ensures forall t :: t in result ==> Key(t, result[t]) in live
    {
      result := map[];
      var todo := live.Keys;
      while todo != {}
        invariant todo <= live.Keys
        invariant forall t :: t in result ==> Key(t, result[t]) in live
        invariant forall k :: k in live && k !in todo ==> k.task in result && k.number <= result[k.task]
        decreases |todo|
      {
        var k :| k in todo;
        if k.task !in result || result[k.task] < k.number {
          result := result[k.task := k.number];
        }
        todo := todo - {k};
      }
      forall t | t in result ensures IsMax(result[t], Seqs(live, t)) {
        assert Key(t, result[t]).number in Seqs(live, t);
      }
    }

    /** Archive, summarise and purge a task's live rows in one transaction. */
    method CompactTask(task: TaskId, terminal: string, eligible: bool, archivedAt: int, fault: Fault)
      returns (outcome: Outcome, ghost nodes: seq<Node>, ghost sums: seq<Summary>)
      modifies `live, `archive, `summary
      ensures outcome.Threw? ==> live == old(live) && archive == old(archive) && summary == old(summary)
      ensures outcome.NoLiveEvents? ==>
                TaskKeys(live, task) == {} && live == old(live) && archive == old(archive) && summary == old(summary)
      ensures outcome.Compacted? ==>
                && eligible && TaskKeys(old(live), task) != {}
                && live == WithoutTask(old(live), task)
                && archive == InsertOrIgnore(old(archive), old(live), task, archivedAt)
                && RowsMoved(old(live), live, old(archive), archive, task, archivedAt)
                && outcome.purged == outcome.archived == |TaskKeys(old(live), task)| == |old(live)| - |live|
                && TaskKeys(live, task) == {}
                && outcome.summaries == |nodes| == |sums|
                && NoDup(nodes) && Elems(nodes) == NodesOf(old(live), task)
                && summary == UpsertAll(old(summary), task, nodes, sums) && Upserted(old(summary), summary, task, nodes, sums)
                && (forall i :: 0 <= i < |nodes| ==>
                      && Summarises(sums[i], old(live), Group(old(live), task, nodes[i]))
                      && sums[i].status == terminal && sums[i].compactedAt == archivedAt)
      ensures eligible && fault == NoFault ==> !outcome.Threw? && (outcome.NoLiveEvents? <==> TaskKeys(old(live), task) == {})
      ensures !eligible || (fault == CommitFault) ==> outcome.Threw?
    {
      hide InsertOrIgnore, WithoutTask, UpsertAll, Summarises, Group, NodesOf, ArchivedKeys;
      nodes, sums := [], [];
      if !eligible {
        return Threw, [], [];
      }
      var preCount := |TaskKeys(live, task)|;
      if preCount == 0 {
        return if fault == CommitFault then Threw else NoLiveEvents, [], [];
      }
      if fault == InsertFault {
        return Threw, [], [];
      }
      var archived := InsertOrIgnore(archive, live, task, archivedAt);
      ArchiveCoversLive(archive, live, task, archivedAt);
      if |ArchivedKeys(archived, task)| < preCount {
        return Threw, [], [];
      }
      var table, written, ok := WriteSummaries(task, terminal, archivedAt, fault);
      nodes, sums := written.0, written.1;
      if !ok || fault == DeleteFault {
        return Threw, [], [];
      }
      var remaining := WithoutTask(live, task);
      PurgedCount(live, task);
      var deleted := |live| - |remaining|;
      if deleted != preCount || fault == CommitFault {
        return Threw, [], [];
      }
      NoneRemain(live, task);
      MovedIs(live, archive, task, archivedAt);
      UpsertedIs(summary, task, nodes, sums);
      live, archive, summary := remaining, archived, table;
      outcome := Compacted(preCount, |written.0|, deleted);
    }

    /** One upsert per (task, node) group, on the transaction's copy of the table. */
    method WriteSummaries(task: TaskId, terminal: string, archivedAt: int, fault: Fault)
      returns (table: Summaries, written: (seq<Node>, seq<Summary>), ok: bool)
      ensures ok ==>
                && |written.0| == |written.1| && NoDup(written.0) && Elems(written.0) == NodesOf(live, task)
                && table == UpsertAll(summary, task, written.0, written.1)
                && (forall i :: 0 <= i < |written.0| ==>
                      && Summarises(written.1[i], live, Group(live, task, written.0[i]))
                      && written.1[i].status == terminal && written.1[i].compactedAt == archivedAt)
      ensures fault == NoFault ==> ok
    {
      hide Summarises, Group;
      table, ok := summary, true;
      var todo := NodesOf(live, task);
      var nodes: seq<Node>, sums: seq<Summary> := [], [];
      written := ([], []);
      while todo != {}
        invariant |nodes| == |sums| && NoDup(nodes)
        invariant forall n :: n in nodes ==> n !in todo
        invariant forall n :: n in NodesOf(live, task) <==> n in nodes || n in todo
        invariant table == UpsertAll(summary, task, nodes, sums)
        invariant forall i :: 0 <= i < |nodes| ==>
                    && Summarises(sums[i], live, Group(live, task, nodes[i]))
                    && sums[i].status == terminal && sums[i].compactedAt == archivedAt
        decreases |todo|
      {
        if fault == SummaryFault(|nodes|) {
          return table, ([], []), false;
        }
        var n :| n in todo;
        var s := Aggregate(task, n, terminal, archivedAt);
        UpsertSnoc(summary, task, nodes, sums, n, s);
        table := table[(task, NodeText(n)) := s];
        nodes, sums, todo := nodes + [n], sums + [s], todo - {n};
      }
      written := (nodes, sums);
    }

    /** The aggregate row of one group. */
    method Aggregate(task: TaskId, node: Node, terminal: string, archivedAt: int) returns (s: Summary)
      requires node in NodesOf(live, task)
      ensures Summarises(s, live, Group(live, task, node))
      ensures s.status == terminal && s.compactedAt == archivedAt
    {
      var group := Group(live, task, node);
      ghost var some :| some in TaskKeys(live, task) && live[some].event.node == node;
      assert some in group;
      var k :| k in group;
      var todo := group - {k};
      var first, last, finalSeq := live[k].event.at, live[k].event.at, k.number;
      ghost var firstKey, lastKey, topKey := k, k, k;
      while todo != {}
        invariant todo <= group <= live.Keys && {firstKey, lastKey, topKey} <= group
        invariant live[firstKey].event.at == first && live[lastKey].event.at == last && topKey.number == finalSeq
        invariant forall j :: j in group && j !in todo ==> first <= live[j].event.at <= last && j.number <= finalSeq
        decreases |todo|
      {
        var j :| j in todo;
        if live[j].event.at < first { first, firstKey := live[j].event.at, j; }
        if live[j].event.at > last { last, lastKey := live[j].event.at, j; }
        if j.number > finalSeq { finalSeq, topKey := j.number, j; }
        todo := todo - {j};
      }
      var counts := map kind | kind in KINDS :: |OfKind(live, group, kind)|;
      s := Summary(|group|, counts, first, last, last - first, finalSeq, terminal, archivedAt);
      assert counts.Keys == Elems(KINDS);
    }
  }

  lemma UpsertSnoc(table: Summaries, task: TaskId, nodes: seq<Node>, sums: seq<Summary>, n: Node, s: Summary)
    requires |nodes| == |sums|
    ensures UpsertAll(table, task, nodes + [n], sums + [s]) == UpsertAll(table, task, nodes, sums)[(task, NodeText(n)) := s]
  {
    assert (nodes + [n])[..|nodes|] == nodes && (sums + [s])[..|sums|] == sums;
  }

  // ------------------------------------------------------------------ the bus

  datatype Action = AppendAttempted(event: Event) | Delivered(event: Event)

  /** Each task with live rows, and no other, goes on at one above the highest of them. */
  ghost predicate Continues(next: map<TaskId, nat>, live: Live) {
    && (forall k :: k in live ==> k.task in next && k.number < next[k.task])
    && (forall t :: t in next ==> next[t] >= 1 && Key(t, next[t] - 1) in live)
  }

  lemma MaxSeqsRehydrate(live: Live, maxSeqs: map<TaskId, nat>)
    requires maxSeqs.Keys == Tasks(live) && forall t :: t in maxSeqs ==> IsMax(maxSeqs[t], Seqs(live, t))
    ensures (map t | t in maxSeqs :: maxSeqs[t] + 1) == Rehydrated(live) && Continues(Rehydrated(live), live)
  {
    forall t | t in maxSeqs
      ensures maxSeqs[t] == MaxSeq(live, t) && Key(t, maxSeqs[t]) in live {
      assert IsMax(MaxSeq(live, t), Seqs(live, t));
      var k :| k in live && k.task == t && k.number == maxSeqs[t];
      assert k == Key(t, maxSeqs[t]);
    }
    forall k | k in live ensures k.task in Rehydrated(live) && k.number < Rehydrated(live)[k.task] {
      assert k.task in Tasks(live) && k.number in Seqs(live, k.task);
      assert IsMax(MaxSeq(live, k.task), Seqs(live, k.task));
    }
  }

  class EventBus {
    const store: EventDb
    var nextSeqByTask: map<TaskId, nat>
    ghost var log: seq<Action>

    /** A fresh bus continues each task's numbering from the live rows, if it can read them. */
    constructor (store: EventDb, readable: bool)
      ensures this.store == store && log == []
      ensures nextSeqByTask == if readable then Rehydrated(store.live) else map[]
      ensures if readable then Continues(nextSeqByTask, store.live) else nextSeqByTask == map[]
    {
      this.store := store;
      nextSeqByTask := map[];
      log := [];
      new;
      if readable {
        var maxSeqs := store.MaxTaskSeqPerTask();
        nextSeqByTask := map t | t in maxSeqs :: maxSeqs[t] + 1;
        MaxSeqsRehydrate(store.live, maxSeqs);
      }
    }

    /** Stamp the next number, attempt the append, then deliver; a failed append is swallowed. */
    method Emit(task: TaskId, nodeId: string, kind: string, at: int, payload: Option<string>, storeOk: bool)
      returns (e: Event)
      modifies this, store`live, store`globalSeq
      ensures e == Event(Key(task, NextSeq(old(nextSeqByTask), task)), BusNode(nodeId), kind, at, payload)
      ensures e.key.task == task && e.kind == kind && e.at == at && e.payload == payload
      ensures e.key.number == if task in old(nextSeqByTask) then old(nextSeqByTask)[task] else 0
      ensures (nodeId != "" ==> e.node == Some(nodeId)) && (nodeId == "" ==> e.node == None)
      ensures nextSeqByTask == old(nextSeqByTask)[task := e.key.number + 1]
      ensures storeOk && e.key !in old(store.live) ==>
                store.live == old(store.live)[e.key := LiveRow(e, old(store.globalSeq))]
      ensures !(storeOk && e.key !in old(store.live)) ==> store.live == old(store.live)
      ensures log == old(log) + [AppendAttempted(e), Delivered(e)]
    {
      var n := if task in nextSeqByTask then nextSeqByTask[task] else 0;
      nextSeqByTask := nextSeqByTask[task := n + 1];
      e := Event(Key(task, n), BusNode(nodeId), kind, at, payload);
      log := log + [AppendAttempted(e)];
      var _ := store.Append(e, storeOk);
      log := log + [Delivered(e)];
    }
  }

  // ------------------------------------------------------------------ day files

  /** The rows of a day file by key; the first row of a key counts. */
  function ByKey(lines: seq<ArchiveRow>): Archive {
    if lines == [] then map[] else ByKey(lines[1..])[lines[0].key := lines[0]]
  }

  lemma {:induction false} ByKeyAppend(a: seq<ArchiveRow>, b: seq<ArchiveRow>)
    ensures ByKey(a + b) == Merge(ByKey(a), ByKey(b))
  {
    if a == [] {
      assert a + b == b;
    } else {
      ByKeyAppend(a[1..], b);
      assert (a + b)[1..] == a[1..] + b;
    }
  }

  lemma {:induction false} ByKeyKeys(lines: seq<ArchiveRow>)
    ensures forall k :: k in ByKey(lines) ==> ByKey(lines)[k] in lines && ByKey(lines)[k].key == k
    ensures forall r :: r in lines ==> r.key in ByKey(lines)
  {
    if lines != [] {
      ByKeyKeys(lines[1..]);
      forall r | r in lines ensures r.key in ByKey(lines) {
        assert r == lines[0] || r in lines[1..];
      }
    }
  }

  /** Union of two row lists keyed by (task, number); a row met earlier wins, and no key repeats. */
  method MergeRows(existing: seq<ArchiveRow>, incoming: seq<ArchiveRow>) returns (merged: seq<ArchiveRow>)
    ensures ByKey(merged) == Merge(ByKey(existing), ByKey(incoming))
    ensures forall i :: FirstOfKey(existing, i) ==> existing[i] in merged
    ensures forall i :: FirstOfKey(incoming, i) && (forall r :: r in existing ==> r.key != incoming[i].key) ==> incoming[i] in merged
    ensures forall r :: r in merged ==> r in existing || r in incoming
    ensures forall i, j :: 0 <= i < j < |merged| ==> merged[i].key != merged[j].key
  {
    var all := existing + incoming;
    var byKey: Archive := map[];
    merged := [];
    for i := 0 to |all|
      invariant byKey == ByKey(merged) == ByKey(all[..i])
      invariant forall r :: r in merged ==> r.key in byKey
      invariant forall a, b :: 0 <= a < b < |merged| ==> merged[a].key != merged[b].key
    {
      assert all[..i + 1] == all[..i] + [all[i]];
      ByKeyAppend(all[..i], [all[i]]);
      ByKeyAppend(merged, [all[i]]);
      if all[i].key !in byKey {
        byKey := byKey[all[i].key := all[i]];
        merged := merged + [all[i]];
      }
    }
    assert all[..|all|] == all;
    ByKeyAppend(existing, incoming);
    hide ByKey;
    MergedIs(existing, incoming, merged);
  }

  /** No row before this one has its key. */
  predicate FirstOfKey(lines: seq<ArchiveRow>, i: int) {
    0 <= i < |lines| && forall j :: 0 <= j < i ==> lines[j].key != lines[i].key
  }

  lemma {:induction false} ByKeyFirst(lines: seq<ArchiveRow>, i: int)
    requires FirstOfKey(lines, i)
    ensures lines[i].key in ByKey(lines) && ByKey(lines)[lines[i].key] == lines[i]
  {
    if i > 0 {
      assert lines[0].key != lines[i].key;
      forall j | 0 <= j < i - 1 ensures lines[1..][j].key != lines[1..][i - 1].key { assert lines[j + 1].key != lines[i].key; }
      ByKeyFirst(lines[1..], i - 1);
    }
  }

  lemma MergedIs(existing: seq<ArchiveRow>, incoming: seq<ArchiveRow>, merged: seq<ArchiveRow>)
    requires ByKey(merged) == Merge(ByKey(existing), ByKey(incoming))
    requires forall i, j :: 0 <= i < j < |merged| ==> merged[i].key != merged[j].key
    ensures forall i :: FirstOfKey(existing, i) ==> existing[i] in merged
    ensures forall i :: FirstOfKey(incoming, i) && (forall r :: r in existing ==> r.key != incoming[i].key) ==> incoming[i] in merged
    ensures forall r :: r in merged ==> r in existing || r in incoming
  {
    hide ByKey;
    forall r | r in merged ensures r in existing || r in incoming { MergedFrom(existing, incoming, merged, r); }
    forall i | FirstOfKey(existing, i) ensures existing[i] in merged {
      ByKeyFirst(existing, i);
      InMerged(merged, existing[i]);
    }
    forall i | FirstOfKey(incoming, i) && (forall r :: r in existing ==> r.key != incoming[i].key) ensures incoming[i] in merged {
      ByKeyFirst(incoming, i);
      RowsOf(existing);
      InMerged(merged, incoming[i]);
    }
  }

  lemma InMerged(merged: seq<ArchiveRow>, r: ArchiveRow)
    requires r.key in ByKey(merged) && ByKey(merged)[r.key] == r
    ensures r in merged
  {
    RowsOf(merged);
  }

  lemma MergedFrom(existing: seq<ArchiveRow>, incoming: seq<ArchiveRow>, merged: seq<ArchiveRow>, r: ArchiveRow)
    requires ByKey(merged) == Merge(ByKey(existing), ByKey(incoming)) && r in merged
    requires forall i, j :: 0 <= i < j < |merged| ==> merged[i].key != merged[j].key
    ensures r in existing || r in incoming
  {
    DistinctByKey(merged, r);
    RowsOf(existing);
    RowsOf(incoming);
  }

  lemma RowsOf(lines: seq<ArchiveRow>)
    ensures forall k :: k in ByKey(lines) ==> ByKey(lines)[k] in lines && ByKey(lines)[k].key == k
  {
    ByKeyKeys(lines);
  }

  lemma DistinctByKey(lines: seq<ArchiveRow>, r: ArchiveRow)
    requires r in lines && forall i, j :: 0 <= i < j < |lines| ==> lines[i].key != lines[j].key
    ensures r.key in ByKey(lines) && ByKey(lines)[r.key] == r
  {
    var i :| 0 <= i < |lines| && lines[i] == r;
    ByKeyFirst(lines, i);
  }

  predicate Keyed(rows: Archive) { forall k :: k in rows ==> rows[k].key == k }

  lemma DayRowsKeyed(archive: Archive, day: Day)
    requires Keyed(archive)
    ensures Keyed(DayRows(archive, day))
  {
  }

  lemma WithoutDayKeyed(archive: Archive, day: Day)
    requires Keyed(archive)
    ensures Keyed(WithoutDay(archive, day))
  {
  }

  // ------------------------------------------------------------------ the daily cycle

  /** Archiving this day throws. */
  predicate Stops(s: State, day: Day, outcome: Day -> ArchiveOutcome) {
    Moved(s.archive, s.files, day, outcome(day)) < 0
  }

  /** The days archived in turn, up to and including the first that throws. */
  function Cycle(s: State, days: seq<Day>, outcome: Day -> ArchiveOutcome): State
    decreases |days|
  {
    if days == [] then s
    else
      var t := ArchiveDayRows(s, days[0], outcome(days[0]));
      if Stops(s, days[0], outcome) then t else Cycle(t, days[1..], outcome)
  }

  lemma {:induction false} CycleSnoc(s: State, days: seq<Day>, i: nat, outcome: Day -> ArchiveOutcome)
    requires i < |days| && forall j :: 0 <= j < i ==> !Stops(Cycle(s, days[..j], outcome), days[j], outcome)
    ensures Cycle(s, days[..i + 1], outcome) == ArchiveDayRows(Cycle(s, days[..i], outcome), days[i], outcome(days[i]))
    decreases i
  {
    hide ArchiveDayRows, Stops;
    if i == 0 {
      assert days[..0] == [] && days[..1][1..] == [];
    } else {
      assert days[..0] == [];
      assert !Stops(Cycle(s, days[..0], outcome), days[0], outcome);
      var t := ArchiveDayRows(s, days[0], outcome(days[0]));
      var rest := days[1..];
      forall j | 0 <= j < i - 1 ensures !Stops(Cycle(t, rest[..j], outcome), rest[j], outcome) {
        assert days[..j + 1][1..] == rest[..j];
        assert Cycle(s, days[..j + 1], outcome) == Cycle(t, rest[..j], outcome);
      }
      CycleSnoc(t, rest, i - 1, outcome);
      assert days[..i][1..] == rest[..i - 1] && days[..i + 1][1..] == rest[..i];
    }
  }

  /** After the first throw the rest of the days is left alone. */
  lemma {:induction false} CycleStopped(s: State, days: seq<Day>, i: nat, outcome: Day -> ArchiveOutcome)
    requires i < |days| && Stops(Cycle(s, days[..i], outcome), days[i], outcome)
    requires forall j :: 0 <= j < i ==> !Stops(Cycle(s, days[..j], outcome), days[j], outcome)
    ensures Cycle(s, days, outcome) == ArchiveDayRows(Cycle(s, days[..i], outcome), days[i], outcome(days[i]))
    decreases i
  {
    hide ArchiveDayRows, Stops;
    assert days[..0] == [];
    if i > 0 {
      assert !Stops(Cycle(s, days[..0], outcome), days[0], outcome);
      var t := ArchiveDayRows(s, days[0], outcome(days[0]));
      var rest := days[1..];
      forall j | 0 <= j <= i - 1 ensures Cycle(s, days[..j + 1], outcome) == Cycle(t, rest[..j], outcome) {
        assert days[..j + 1][1..] == rest[..j];
      }
      forall j | 0 <= j < i - 1 ensures !Stops(Cycle(t, rest[..j], outcome), rest[j], outcome) {
        assert Cycle(s, days[..j + 1], outcome) == Cycle(t, rest[..j], outcome);
      }
      CycleStopped(t, rest, i - 1, outcome);
    }
  }

  lemma MovedRows(archive: Archive, files: map<Day, DayFile>, day: Day, outcome: ArchiveOutcome)
    ensures Moved(archive, files, day, outcome) >= 0 ==>
              |ArchiveDayRows(TiersOf(archive, files), day, outcome).archive| == |archive| - Moved(archive, files, day, outcome)
  {
    assert archive.Keys == DayRows(archive, day).Keys + WithoutDay(archive, day).Keys;
    assert |archive| == |archive.Keys|;
    assert |DayRows(archive, day)| == |DayRows(archive, day).Keys|;
    assert |WithoutDay(archive, day)| == |WithoutDay(archive, day).Keys|;
  }

  /** A day is never split: each day's rows are all still in the table or all gone from it, and after a cycle
      without a throw the days it covered are gone. */
  lemma {:induction false} WholeDays(s: State, days: seq<Day>, outcome: Day -> ArchiveOutcome, day: Day)
    ensures DayRows(Cycle(s, days, outcome).archive, day) in {DayRows(s.archive, day), map[]}
    ensures (forall i :: 0 <= i < |days| ==> !Stops(Cycle(s, days[..i], outcome), days[i], outcome)) && day in days ==>
              DayRows(Cycle(s, days, outcome).archive, day) == map[]
    decreases |days|
  {
    if days != [] {
      hide Moved;
      OneDay(s, days[0], outcome(days[0]), day);
      var t := ArchiveDayRows(s, days[0], outcome(days[0]));
      if !Stops(s, days[0], outcome) {
        WholeDays(t, days[1..], outcome, day);
        hide ArchiveDayRows, Stops, DayRows;
        forall i | 0 <= i < |days[1..]| ensures Cycle(t, days[1..][..i], outcome) == Cycle(s, days[..i + 1], outcome) {
          assert days[..i + 1][1..] == days[1..][..i];
        }
        assert forall i :: 0 <= i < |days[1..]| ==> days[1..][i] == days[i + 1];
      } else {
        assert days[..0] == [];
        assert Stops(Cycle(s, days[..0], outcome), days[0], outcome);
      }
    }
  }

  lemma OneDay(s: State, archived: Day, outcome: ArchiveOutcome, day: Day)
    ensures var t := ArchiveDayRows(s, archived, outcome);
            && DayRows(t.archive, day) in {DayRows(s.archive, day), map[]}
            && (Moved(s.archive, s.files, archived, outcome) >= 0 && day == archived ==> DayRows(t.archive, day) == map[])
  {
    var w := WithoutDay(s.archive, archived);
    if day == archived {
      assert DayRows(w, day) == map[];
    } else {
      assert DayRows(w, day) == DayRows(s.archive, day);
    }
  }

  /** A table's rows as the lines of a file. */
  method Lines(rows: Archive) returns (lines: seq<ArchiveRow>)
    requires Keyed(rows)
    ensures ByKey(lines) == rows
  {
    lines := [];
    var todo := rows.Keys;
    while todo != {}
      invariant todo <= rows.Keys
      invariant ByKey(lines) == map k | k in rows && k !in todo :: rows[k]
      decreases |todo|
    {
      var k :| k in todo;
      lines := [rows[k]] + lines;
      assert lines[1..] == lines[1..] && lines[0].key == k;
      todo := todo - {k};
    }
  }

  lemma AddFirst(table: Archive, files: map<Day, DayFile>, days: seq<Day>)
    requires days != []
    ensures AddDays(table, files, days) == AddDays(Merge(table, FileRows(files, days[0])), files, days[1..])
  {
  }

  ghost function TiersOf(archive: Archive, files: map<Day, DayFile>): State {
    State(map[], archive, files, map[], 0, {}, {})
  }

  /** The number of rows moved; -1 stands for a throw. */
  function Moved(archive: Archive, files: map<Day, DayFile>, day: Day, outcome: ArchiveOutcome): int {
    if DayRows(archive, day) == map[] then 0
    else if Readable(files, day) && outcome == Archived then |DayRows(archive, day)|
    else -1
  }

  function AddRow(table: Archive, k: Key, row: ArchiveRow): (t: Archive)
    ensures |t| == |table| + (if k in table then 0 else 1)
    ensures t.Keys == table.Keys + {k}
  {
    if k in table then table else table[k := row]
  }

  function Outside(rows: Archive, todo: set<Key>): Archive { map k | k in rows && k !in todo :: rows[k] }

  lemma NoneDone(table: Archive, rows: Archive)
    ensures Merge(table, Outside(rows, rows.Keys)) == table
  {
  }

  lemma OneDone(table: Archive, rows: Archive, todo: set<Key>, k: Key)
    requires k in todo && k in rows
    ensures Merge(table, Outside(rows, todo - {k})) == AddRow(Merge(table, Outside(rows, todo)), k, rows[k])
  {
    assert Outside(rows, todo - {k}) == Outside(rows, todo)[k := rows[k]];
    assert k !in Outside(rows, todo);
    hide Outside;
    MergeOne(table, Outside(rows, todo), k, rows[k]);
  }

  lemma MergeOne(table: Archive, rows: Archive, k: Key, row: ArchiveRow)
    requires k !in rows
    ensures Merge(table, rows[k := row]) == AddRow(Merge(table, rows), k, row)
  {
    if k in table {
      assert rows[k := row] + table == rows + table;
    } else {
      assert rows[k := row] + table == (rows + table)[k := row];
    }
  }

  lemma AllDone(rows: Archive)
    ensures Outside(rows, {}) == rows
  {
  }

  /** A row of the table belongs to the day of its event time. */
  predicate OnDay(archive: Archive, day: Day, k: Key) { k in archive && archive[k].at / 86_400_000 == day }

  /** The day's file holds what it held and the day's rows, what it held winning. */
  predicate FileJoins(held: Archive, archive: Archive, day: Day, rows: Archive) {
    && rows.Keys == held.Keys + (set k | k in archive && OnDay(archive, day, k))
    && (forall k :: k in held && k in rows ==> rows[k] == held[k])
    && (forall k :: k in rows && k !in held && k in archive ==> rows[k] == archive[k])
  }

  /** What archiving a day leaves, by how far it got; only a complete pass deletes rows, exactly those of the day. */
  ghost predicate DayArchived(archive: Archive, files: map<Day, DayFile>, after: Archive, filesAfter: map<Day, DayFile>, day: Day,
                        outcome: ArchiveOutcome, moved: int) {
    var empty := forall k :: k in archive ==> !OnDay(archive, day, k);
    if empty || (day in files && !files[day].readable) || outcome == NothingWritten then
      after == archive && filesAfter == files && moved == if empty then 0 else -1
    else
      && day in filesAfter && filesAfter == files[day := filesAfter[day]]
      && FileJoins(if day in files then files[day].rows else map[], archive, day, filesAfter[day].rows)
      && (filesAfter[day].readable <==> outcome != SidecarStale)
      && if outcome == Archived then
           && (forall k :: k in after <==> k in archive && !OnDay(archive, day, k))
           && (forall k :: k in after ==> after[k] == archive[k])
           && moved == |set k | k in archive && OnDay(archive, day, k)| == |archive| - |after|
         else after == archive && moved == -1
  }

  lemma DayArchivedIs(archive: Archive, files: map<Day, DayFile>, day: Day, outcome: ArchiveOutcome)
    ensures var t := ArchiveDayRows(TiersOf(archive, files), day, outcome);
            DayArchived(archive, files, t.archive, t.files, day, outcome, Moved(archive, files, day, outcome))
  {
    hide ArchiveDayRows, DayArchived, DayRows, Moved;
    if DayRows(archive, day) == map[] || !Readable(files, day) || outcome == NothingWritten {
      DayUntouched(archive, files, day, outcome);
    } else {
      DayWritten(archive, files, day, outcome);
    }
  }

  lemma DayUntouched(archive: Archive, files: map<Day, DayFile>, day: Day, outcome: ArchiveOutcome)
    requires DayRows(archive, day) == map[] || !Readable(files, day) || outcome == NothingWritten
    ensures var t := ArchiveDayRows(TiersOf(archive, files), day, outcome);
            DayArchived(archive, files, t.archive, t.files, day, outcome, Moved(archive, files, day, outcome))
  {
    DayKeys(archive, day);
    hide DayRows, WithoutDay, FileJoins, OnDay;
  }

  lemma DayWritten(archive: Archive, files: map<Day, DayFile>, day: Day, outcome: ArchiveOutcome)
    requires DayRows(archive, day) != map[] && Readable(files, day) && outcome != NothingWritten
    ensures var t := ArchiveDayRows(TiersOf(archive, files), day, outcome);
            DayArchived(archive, files, t.archive, t.files, day, outcome, Moved(archive, files, day, outcome))
  {
    DayKeys(archive, day);
    HeldIs(files, day);
    FileJoined(archive, FileRows(files, day), day);
    MovedRows(archive, files, day, outcome);
    ArchivedFile(archive, files, day, outcome);
    hide ArchiveDayRows, DayRows, WithoutDay, Merge, FileJoins, OnDay, FileRows;
  }

  lemma HeldIs(files: map<Day, DayFile>, day: Day)
    ensures FileRows(files, day) == if day in files then files[day].rows else map[]
  {
  }

  lemma ArchivedFile(archive: Archive, files: map<Day, DayFile>, day: Day, outcome: ArchiveOutcome)
    requires DayRows(archive, day) != map[] && Readable(files, day)
    ensures var t := ArchiveDayRows(TiersOf(archive, files), day, outcome);
            var file := DayFile(Merge(FileRows(files, day), DayRows(archive, day)), outcome != SidecarStale);
            && t.files == (if outcome == NothingWritten then files else files[day := file])
            && t.archive == (if outcome == Archived then WithoutDay(archive, day) else archive)
  {
    hide DayRows, WithoutDay, Merge, FileRows;
  }

  lemma DayKeys(archive: Archive, day: Day)
    ensures DayRows(archive, day).Keys == set k | k in archive && OnDay(archive, day, k)
    ensures |DayRows(archive, day)| == |set k | k in archive && OnDay(archive, day, k)|
    ensures DayRows(archive, day) == map[] <==> forall k :: k in archive ==> !OnDay(archive, day, k)
    ensures forall k :: k in WithoutDay(archive, day) <==> k in archive && !OnDay(archive, day, k)
    ensures forall k :: k in WithoutDay(archive, day) ==> WithoutDay(archive, day)[k] == archive[k]
  {
    var rows := DayRows(archive, day);
    assert rows.Keys == set k | k in archive && OnDay(archive, day, k);
    assert |rows| == |rows.Keys|;
    if rows == map[] {
      forall k | k in archive ensures !OnDay(archive, day, k) { assert k !in rows; }
    }
    if forall k :: k in archive ==> !OnDay(archive, day, k) { assert rows.Keys == {}; }
  }

  lemma FileJoined(archive: Archive, held: Archive, day: Day)
    ensures FileJoins(held, archive, day, Merge(held, DayRows(archive, day)))
  {
    DayKeys(archive, day);
  }

  /** Every row of the table stays; a key new to it comes from the first of the files that holds it. */
  ghost predicate DaysRestored(archive: Archive, files: map<Day, DayFile>, after: Archive, days: seq<Day>) {
    && (forall k :: k in archive ==> k in after && after[k] == archive[k])
    && (forall k :: k in after && k !in archive ==> exists i :: FirstIn(files, days, k, i))
    && (forall k, i :: k !in archive && FirstIn(files, days, k, i) ==> k in after && after[k] == files[days[i]].rows[k])
  }

  predicate FirstIn(files: map<Day, DayFile>, days: seq<Day>, k: Key, i: int) {
    && 0 <= i < |days| && days[i] in files && k in files[days[i]].rows
    && forall j :: 0 <= j < i && days[j] in files ==> k !in files[days[j]].rows
  }

  lemma DaysRestoredIs(archive: Archive, files: map<Day, DayFile>, days: seq<Day>)
    ensures DaysRestored(archive, files, AddDays(archive, files, days), days)
  {
    AddedDays(archive, files, days);
  }

  lemma {:induction false} AddedDays(archive: Archive, files: map<Day, DayFile>, days: seq<Day>)
    ensures DaysRestored(archive, files, AddDays(archive, files, days), days)
    decreases |days|
  {
    if days != [] {
      var table := Merge(archive, FileRows(files, days[0]));
      AddedDays(table, files, days[1..]);
      AddedFirst(archive, files, days, AddDays(table, files, days[1..]));
    }
  }

  lemma FirstInRest(files: map<Day, DayFile>, days: seq<Day>, k: Key, i: int)
    requires days != [] && i >= 1 && k !in FileRows(files, days[0])
    ensures FirstIn(files, days, k, i) <==> FirstIn(files, days[1..], k, i - 1)
  {
    if FirstIn(files, days[1..], k, i - 1) {
      forall j | 0 <= j < i && days[j] in files ensures k !in files[days[j]].rows {
        if j > 0 { assert days[1..][j - 1] == days[j]; }
      }
    }
    if FirstIn(files, days, k, i) {
      forall j | 0 <= j < i - 1 && days[1..][j] in files ensures k !in files[days[1..][j]].rows { assert days[1..][j] == days[j + 1]; }
    }
  }

  lemma AddedFirst(archive: Archive, files: map<Day, DayFile>, days: seq<Day>, after: Archive)
    requires days != [] && DaysRestored(Merge(archive, FileRows(files, days[0])), files, after, days[1..])
    ensures DaysRestored(archive, files, after, days)
  {
    var held := FileRows(files, days[0]);
    var table := Merge(archive, held);
    forall k | k in after && k !in archive ensures exists i :: FirstIn(files, days, k, i) {
      if k in held {
        assert FirstIn(files, days, k, 0);
      } else {
        var i :| FirstIn(files, days[1..], k, i);
        FirstInRest(files, days, k, i + 1);
      }
    }
    forall k, i | k !in archive && FirstIn(files, days, k, i) ensures k in after && after[k] == files[days[i]].rows[k] {
      if i > 0 {
        assert k !in held;
        FirstInRest(files, days, k, i);
      }
    }
  }

  class ColdArchive {
    const db: EventDb
    var files: map<Day, DayFile>

    constructor (db: EventDb)
      ensures this.db == db && files == map[]
    {
      this.db := db;
      files := map[];
    }

    /** The table and the files as the machine's tiers. */
    ghost function Tiers(): State
      reads this, db
    {
      TiersOf(db.archive, files)
    }

    ghost predicate Valid()
      reads this, db
    {
      Keyed(db.archive) && forall d :: d in files ==> Keyed(files[d].rows)
    }

    /** Move a day's rows to its file: read and merge, write, verify, delete. */
    method ArchiveDay(day: Day, outcome: ArchiveOutcome) returns (moved: int)
      requires Valid()
      modifies `files, db`archive
      ensures Valid()
      ensures Tiers() == ArchiveDayRows(old(Tiers()), day, outcome)
      ensures moved == Moved(old(db.archive), old(files), day, outcome)
    {
      hide DayRows, WithoutDay, Merge, ByKey;
      var rows := DayRows(db.archive, day);
      if rows == map[] {
        return 0;
      }
      if day in files && !files[day].readable {
        return -1;
      }
      DayRowsKeyed(db.archive, day);
      var merged := MergedFile(day, rows);
      if outcome == NothingWritten {
        return -1;
      }
      files := files[day := DayFile(merged, false)];
      if outcome == SidecarStale {
        return -1;
      }
      files := files[day := DayFile(merged, true)];
      if outcome == WrittenOnly {
        return -1;
      }
      WithoutDayKeyed(db.archive, day);
      db.archive := WithoutDay(db.archive, day);
      moved := |rows|;
    }

    /** The daily cycle: archive each complete day, oldest first; a throw ends it. */
    method RunCycle(days: seq<Day>, outcome: Day -> ArchiveOutcome) returns (moved: int, thrown: bool)
      requires Valid()
      modifies `files, db`archive
      ensures Valid()
      ensures Tiers() == Cycle(old(Tiers()), days, outcome)
      ensures !thrown ==> moved == |old(db.archive)| - |db.archive|
      ensures thrown <==> exists i :: 0 <= i < |days| && Stops(Cycle(old(Tiers()), days[..i], outcome), days[i], outcome)
    {
      hide ArchiveDayRows, Moved;
      moved, thrown := 0, false;
      ghost var s := Tiers();
      for i := 0 to |days|
        invariant Valid()
        invariant Tiers() == Cycle(s, days[..i], outcome) && moved == |s.archive| - |db.archive|
        invariant forall j :: 0 <= j < i ==> !Stops(Cycle(s, days[..j], outcome), days[j], outcome)
      {
        CycleSnoc(s, days, i, outcome);
        MovedRows(db.archive, files, days[i], outcome(days[i]));
        var n := ArchiveDay(days[i], outcome(days[i]));
        if n < 0 {
          CycleStopped(s, days, i, outcome);
          return moved, true;
        }
        moved := moved + n;
      }
      assert days[..|days|] == days;
    }

    method MergedFile(day: Day, rows: Archive) returns (merged: Archive)
      requires Valid() && Keyed(rows)
      ensures merged == Merge(FileRows(files, day), rows) && Keyed(merged)
    {
      hide Merge, ByKey;
      var held := FileRows(files, day);
      var existing := Lines(held);
      var incoming := Lines(rows);
      var lines := MergeRows(existing, incoming);
      ByKeyKeys(lines);
      merged := ByKey(lines);
    }

    /** Load the day files of `days` back into the table; all or nothing. */
    method RestoreDays(days: seq<Day>) returns (inserted: int)
      modifies db`archive
      ensures Tiers() == Restore(old(Tiers()), days)
      ensures if forall d :: d in days && d in files ==> files[d].readable then DaysRestored(old(db.archive), files, db.archive, days)
              else db.archive == old(db.archive) && inserted == -1
      ensures (forall d :: d in days ==> Readable(files, d)) ==> inserted == |db.archive| - |old(db.archive)|
    {
      DaysRestoredIs(db.archive, files, days);
      hide Merge, DaysRestored;
      var table := db.archive;
      inserted := 0;
      for i := 0 to |days|
        invariant forall j :: 0 <= j < i ==> Readable(files, days[j])
        invariant AddDays(table, files, days[i..]) == AddDays(db.archive, files, days)
        invariant inserted == |table| - |db.archive| && db.archive == old(db.archive)
      {
        if days[i] in files && !files[days[i]].readable {
          assert !Readable(old(Tiers()).files, days[i]) && days[i] in days;
          return -1;
        }
        AddFirst(table, files, days[i..]);
        assert days[i..][1..] == days[i + 1..] && days[i..][0] == days[i];
        var count;
        table, count := InsertRows(table, FileRows(files, days[i]));
        inserted := inserted + count;
      }
      assert days[|days|..] == [];
      assert forall d :: d in days ==> Readable(files, d);
      db.archive := table;
    }

    /** INSERT OR IGNORE row by row. */
    method InsertRows(table: Archive, rows: Archive) returns (merged: Archive, count: nat)
      ensures merged == Merge(table, rows) && count == |merged| - |table|
    {
      hide Merge, Outside;
      merged, count := table, 0;
      var todo := rows.Keys;
      NoneDone(table, rows);
      while todo != {}
        invariant todo <= rows.Keys && count == |merged| - |table|
        invariant merged == Merge(table, Outside(rows, todo))
        decreases |todo|
      {
        var k :| k in todo;
        OneDone(table, rows, todo, k);
        merged, count, todo := AddRow(merged, k, rows[k]), count + (if k in merged then 0 else 1), todo - {k};
      }
      AllDone(rows);
    }

    /** Delete the day files before the cutoff, oldest first, stopping at the first one that is kept. */
    method PurgeExpired(days: seq<Day>, cutoff: Day) returns (purged: nat)
      requires Elems(days) == files.Keys
      requires forall i, j :: 0 <= i < j < |days| ==> days[i] < days[j]
      modifies `files
      ensures files == map d | d in old(files) && d >= cutoff :: old(files)[d]
      ensures purged == |set d | d in old(files) && d < cutoff|
    {
      hide Without, Elems;
      purged := 0;
      var i := 0;
      NoneWithout(files);
      while i < |days| && days[i] < cutoff
        invariant 0 <= purged == i <= |days|
        invariant forall j :: 0 <= j < i ==> days[j] < cutoff
        invariant files == Without(old(files), days[..i])
      {
        OneWithout(old(files), days, i);
        files := files - {days[i]};
        purged := purged + 1;
        i := i + 1;
      }
      Before(days, i, cutoff);
      KeptFiles(old(files), days, i, cutoff);
    }
  }

  /** The files of other days. */
  function Without(files: map<Day, DayFile>, days: seq<Day>): map<Day, DayFile> {
    map d | d in files && d !in days :: files[d]
  }

  lemma NoneWithout(files: map<Day, DayFile>)
    ensures Without(files, []) == files
  {
  }

  lemma OneWithout(files: map<Day, DayFile>, days: seq<Day>, i: nat)
    requires i < |days|
    ensures Without(files, days[..i + 1]) == Without(files, days[..i]) - {days[i]}
  {
    assert days[..i + 1] == days[..i] + [days[i]];
  }

  lemma KeptFiles(files: map<Day, DayFile>, days: seq<Day>, i: nat, cutoff: Day)
    requires i <= |days| && Elems(days) == files.Keys
    requires forall d :: d in days ==> (d in days[..i] <==> d < cutoff)
    requires |Elems(days[..i])| == i
    ensures Without(files, days[..i]) == map d | d in files && d >= cutoff :: files[d]
    ensures i == |set d | d in files && d < cutoff|
  {
    forall d ensures d in files <==> d in days { assert d in Elems(days) <==> d in files; }
    assert forall d :: d in days[..i] ==> d in days;
    assert Elems(days[..i]) == set d | d in files && d < cutoff;
  }

  /** The days before the cutoff are the first ones of an ascending list. */
  lemma Before(days: seq<Day>, i: nat, cutoff: Day)
    requires i <= |days| && forall a, b :: 0 <= a < b < |days| ==> days[a] < days[b]
    requires forall j :: 0 <= j < i ==> days[j] < cutoff
    requires i < |days| ==> days[i] >= cutoff
    ensures forall d :: d in days ==> (d in days[..i] <==> d < cutoff)
    ensures |Elems(days[..i])| == i
    ensures forall d :: d in Elems(days[..i]) <==> d in days && d < cutoff
  {
    forall d | d in days ensures d in days[..i] <==> d < cutoff {
      var j :| 0 <= j < |days| && days[j] == d;
      assert j < i ==> days[..i][j] == d;
      assert j >= i ==> days[j] >= days[i];
    }
    NoDupCardinality(days[..i]);
  }
}
