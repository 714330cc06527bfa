/** The materialised summary a compaction writes: one row per (task, node), and what its counts add up to. */
module EventSummary {
  import opened Common
  import opened EventModel

  type Node = Option<string>

  const KINDS := ["TaskCreated", "NodeStarted", "NodeCompleted", "NodeFailed",
                  "PaymentLocked", "PaymentReleased", "TaskCompleted", "TaskFailed"]

  datatype Summary = Summary(
    count: nat, counts: map<string, nat>, first: int, last: int, duration: nat, finalSeq: nat,
    status: string, compactedAt: int)

  type Summaries = map<(TaskId, string), Summary>

  function NodesOf(live: Live, task: TaskId): set<Node> { set k | k in TaskKeys(live, task) :: live[k].event.node }

  /** The rows one GROUP BY node_id group aggregates. */
  function Group(live: Live, task: TaskId, node: Node): set<Key> {
    set k | k in live && k.task == task && live[k].event.node == node
  }

  function OfKind(live: Live, keys: set<Key>, kind: string): set<Key> {
    set k | k in keys && k in live && live[k].event.kind == kind
  }

  predicate Summarises(s: Summary, live: Live, group: set<Key>) {
    && s.count == |group| && s.counts.Keys == Elems(KINDS)
    && (forall kind :: kind in s.counts ==> s.counts[kind] == |OfKind(live, group, kind)|)
    && (forall k :: k in group && k in live ==> s.first <= live[k].event.at <= s.last && k.number <= s.finalSeq)
    && (exists k :: k in group && k in live && live[k].event.at == s.first)
    && (exists k :: k in group && k in live && live[k].event.at == s.last)
    && (exists k :: k in group && k.number == s.finalSeq)
    && s.duration == s.last - s.first
  }

  /** One upsert per group, in the order the groups are returned. */
  function UpsertAll(table: Summaries, task: TaskId, nodes: seq<Node>, sums: seq<Summary>): Summaries
    requires |nodes| == |sums|
  {
    if nodes == [] then table
    else UpsertAll(table, task, nodes[..|nodes| - 1], sums[..|sums| - 1])
           [(task, NodeText(nodes[|nodes| - 1])) := sums[|sums| - 1]]
  }

  // ------------------------------------------------------------------ per-type counters

  function KindSum(live: Live, keys: set<Key>, kinds: seq<string>): nat {
    if kinds == [] then 0 else |OfKind(live, keys, kinds[0])| + KindSum(live, keys, kinds[1..])
  }

  lemma {:induction false} KindSumCounts(live: Live, keys: set<Key>, kinds: seq<string>)
    requires NoDup(kinds)
    ensures KindSum(live, keys, kinds) == |set k | k in keys && k in live && live[k].event.kind in kinds|
  {
    var all := set k | k in keys && k in live && live[k].event.kind in kinds;
    if kinds == [] {
      assert all == {};
    } else {
      KindSumCounts(live, keys, kinds[1..]);
      var rest := set k | k in keys && k in live && live[k].event.kind in kinds[1..];
      assert all == OfKind(live, keys, kinds[0]) + rest;
      assert OfKind(live, keys, kinds[0]) !! rest;
    }
  }

  /** A row's type counters add up to at most its count, with equality exactly when every event has a counted type. */
  lemma CountersBound(live: Live, group: set<Key>)
    requires group <= live.Keys
    ensures KindSum(live, group, KINDS) <= |group|
    ensures KindSum(live, group, KINDS) == |group| <==> forall k :: k in group ==> live[k].event.kind in KINDS
  {
    KindsDistinct();
    KindSumCounts(live, group, KINDS);
    var counted := set k | k in group && k in live && live[k].event.kind in KINDS;
    hide *;
    SubsetCardinality(counted, group);
    if counted != group {
      var k :| k in group && k !in counted;
      SubsetCardinality(counted, group - {k});
    }
  }

  lemma KindsDistinct()
    ensures NoDup(KINDS)
  {
    assert KINDS[0][0] == KINDS[6][0] == KINDS[7][0] == 'T';
    assert KINDS[0][4] == 'C' && KINDS[6][4] == 'C' && KINDS[7][4] == 'F';
    assert KINDS[0][5] == 'r' && KINDS[6][5] == 'o';
    assert KINDS[1][4] == 'S' && KINDS[2][4] == 'C' && KINDS[3][4] == 'F';
    assert KINDS[4][7] == 'L' && KINDS[5][7] == 'R';
    assert KINDS[1][0] == KINDS[2][0] == KINDS[3][0] == 'N' && KINDS[4][0] == KINDS[5][0] == 'P';
  }

  // ------------------------------------------------------------------ event counts

  ghost function Total(table: Summaries, task: TaskId, names: set<string>): nat {
    if names == {} then 0
    else
      var n :| n in names;
      (if (task, n) in table then table[(task, n)].count else 0) + Total(table, task, names - {n})
  }

  lemma {:induction false} TotalPick(table: Summaries, task: TaskId, names: set<string>, n: string)
    requires n in names
    ensures Total(table, task, names)
            == (if (task, n) in table then table[(task, n)].count else 0) + Total(table, task, names - {n})
  {
    var m :| m in names && Total(table, task, names) ==
             (if (task, m) in table then table[(task, m)].count else 0) + Total(table, task, names - {m});
    if m != n {
      TotalPick(table, task, names - {m}, n);
      TotalPick(table, task, names - {n}, m);
      assert names - {m} - {n} == names - {n} - {m};
    }
  }

  lemma {:induction false} TotalFrame(t: Summaries, u: Summaries, task: TaskId, names: set<string>)
    requires forall n :: n in names ==>
      ((task, n) in t <==> (task, n) in u) && ((task, n) in t ==> t[(task, n)] == u[(task, n)])
    ensures Total(t, task, names) == Total(u, task, names)
  {
    if names != {} {
      var n :| n in names;
      TotalPick(t, task, names, n);
      TotalPick(u, task, names, n);
      TotalFrame(t, u, task, names - {n});
    }
  }

  function Names(nodes: seq<Node>): set<string> { set n | n in nodes :: NodeText(n) }

  function SumGroups(live: Live, task: TaskId, nodes: seq<Node>): nat {
    if nodes == [] then 0
    else SumGroups(live, task, nodes[..|nodes| - 1]) + |Group(live, task, nodes[|nodes| - 1])|
  }

  function InNodes(live: Live, task: TaskId, nodes: seq<Node>): set<Key> {
    set k | k in live && k.task == task && live[k].event.node in nodes
  }

  lemma InNodesSnoc(live: Live, task: TaskId, nodes: seq<Node>, n: Node)
    requires n !in nodes
    ensures |InNodes(live, task, nodes + [n])| == |InNodes(live, task, nodes)| + |Group(live, task, n)|
  {
    assert InNodes(live, task, nodes + [n]) == InNodes(live, task, nodes) + Group(live, task, n);
    assert InNodes(live, task, nodes) !! Group(live, task, n);
  }

  lemma {:induction false} GroupsPartition(live: Live, task: TaskId, nodes: seq<Node>)
    requires NoDup(nodes)
    ensures SumGroups(live, task, nodes) == |InNodes(live, task, nodes)|
  {
    if nodes == [] {
      assert InNodes(live, task, nodes) == {};
    } else {
      hide InNodes, Group;
      var front := nodes[..|nodes| - 1];
      GroupsPartition(live, task, front);
      InNodesSnoc(live, task, front, nodes[|nodes| - 1]);
      assert nodes == front + [nodes[|nodes| - 1]];
    }
  }

  /** Both a null and an empty node_id among the groups: they share one summary row. */
  predicate Clash(nodes: seq<Node>) { None in nodes && Some("") in nodes }

  /** One more group: its row is added, or overwrites the row of the group it clashes with. */
  lemma UpsertTotal(table: Summaries, task: TaskId, names: set<string>, name: string, s: Summary)
    requires name in names ==> (task, name) in table && table[(task, name)].count >= 1
    ensures var after := Total(table[(task, name) := s], task, names + {name});
            if name in names then after < Total(table, task, names) + s.count
            else after == Total(table, task, names) + s.count
  {
    var t := table[(task, name) := s];
    TotalPick(t, task, names + {name}, name);
    TotalFrame(t, table, task, names - {name});
    assert names + {name} - {name} == names - {name};
    if name in names {
      TotalPick(table, task, names, name);
    } else {
      assert names - {name} == names;
    }
  }

  lemma NameClash(front: seq<Node>, n: Node)
    requires n !in front
    ensures NodeText(n) in Names(front) <==> (n == None && Some("") in front) || (n == Some("") && None in front)
    ensures Names(front + [n]) == Names(front) + {NodeText(n)}
    ensures Clash(front + [n]) <==> Clash(front) || NodeText(n) in Names(front)
  {
    if NodeText(n) in Names(front) {
      var m :| m in front && NodeText(m) == NodeText(n);
    }
    assert NodeText(None) == NodeText(Some(""));
  }

  /** Every named row is there, with at least one event. */
  ghost predicate AllWritten(t: Summaries, task: TaskId, names: set<string>) {
    forall n :: n in names ==> (task, n) in t && t[(task, n)].count >= 1
  }

  lemma AllWrittenSnoc(t: Summaries, task: TaskId, names: set<string>, name: string, s: Summary)
    requires AllWritten(t, task, names) && s.count >= 1
    ensures AllWritten(t[(task, name) := s], task, names + {name})
  {
  }

  /** The table of upserted rows accounts for its groups, up to a clash. */
  ghost predicate Accounts(t: Summaries, task: TaskId, nodes: seq<Node>, groups: nat) {
    && AllWritten(t, task, Names(nodes))
    && Total(t, task, Names(nodes)) <= groups
    && (Total(t, task, Names(nodes)) == groups <==> !Clash(nodes))
  }

  lemma AccountsSnoc(t: Summaries, task: TaskId, front: seq<Node>, groups: nat, n: Node, s: Summary)
    requires Accounts(t, task, front, groups) && n !in front && s.count >= 1
    ensures Accounts(t[(task, NodeText(n)) := s], task, front + [n], groups + s.count)
  {
    hide Total, Names, Clash, NodeText;
    NameClash(front, n);
    AllWrittenSnoc(t, task, Names(front), NodeText(n), s);
    UpsertTotal(t, task, Names(front), NodeText(n), s);
  }

  lemma AccountsNone(t: Summaries, task: TaskId)
    ensures Accounts(t, task, [], 0)
  {
    assert Names([]) == {};
  }

  lemma FrontDistinct(nodes: seq<Node>)
    requires NoDup(nodes) && nodes != []
    ensures NoDup(nodes[..|nodes| - 1]) && nodes[|nodes| - 1] !in nodes[..|nodes| - 1]
    ensures nodes == nodes[..|nodes| - 1] + [nodes[|nodes| - 1]]
  {
  }

  lemma {:induction false} WrittenTotal(table: Summaries, live: Live, task: TaskId, nodes: seq<Node>, sums: seq<Summary>)
    requires |nodes| == |sums| && NoDup(nodes)
    requires forall i :: 0 <= i < |nodes| ==> sums[i].count == |Group(live, task, nodes[i])| >= 1
    ensures Accounts(UpsertAll(table, task, nodes, sums), task, nodes, SumGroups(live, task, nodes))
  {
    hide Group, Accounts, NoDup, NodeText;
    if nodes == [] {
      AccountsNone(table, task);
    } else {
      FrontDistinct(nodes);
      var i := |nodes| - 1;
      var front, fsums := nodes[..i], sums[..i];
      assert forall j :: 0 <= j < |front| ==> front[j] == nodes[j] && fsums[j] == sums[j];
      WrittenTotal(table, live, task, front, fsums);
      AccountsSnoc(UpsertAll(table, task, front, fsums), task, front, SumGroups(live, task, front), nodes[i], sums[i]);
    }
  }

  /** The written rows' counts sum to the number of rows purged exactly when the task has no rows with
      both a null and an empty node id; otherwise they fall short. */
  lemma SummaryCountsSum(table: Summaries, live: Live, task: TaskId, nodes: seq<Node>, sums: seq<Summary>)
    requires |nodes| == |sums| && NoDup(nodes) && Elems(nodes) == NodesOf(live, task)
    requires forall i :: 0 <= i < |nodes| ==> Summarises(sums[i], live, Group(live, task, nodes[i]))
    ensures Total(UpsertAll(table, task, nodes, sums), task, Names(nodes)) <= |TaskKeys(live, task)|
    ensures Total(UpsertAll(table, task, nodes, sums), task, Names(nodes)) == |TaskKeys(live, task)|
            <==> !(None in nodes && Some("") in nodes)
  {
    hide Total, UpsertAll, Names, Summarises, Clash, KINDS;
    forall i | 0 <= i < |nodes| ensures sums[i].count == |Group(live, task, nodes[i])| >= 1 {
      assert nodes[i] in NodesOf(live, task);
      NonEmptyGroup(sums[i], live, task, nodes[i]);
    }
    WrittenTotal(table, live, task, nodes, sums);
    GroupsPartition(live, task, nodes);
    InNodesAll(live, task, nodes);
    ClashIs(nodes);
  }

  lemma ClashIs(nodes: seq<Node>)
    ensures Clash(nodes) <==> None in nodes && Some("") in nodes
  {
  }

  lemma InNodesAll(live: Live, task: TaskId, nodes: seq<Node>)
    requires Elems(nodes) == NodesOf(live, task)
    ensures InNodes(live, task, nodes) == TaskKeys(live, task)
  {
    forall k | k in TaskKeys(live, task) ensures live[k].event.node in nodes {
      assert live[k].event.node in NodesOf(live, task);
    }
  }

  lemma NonEmptyGroup(s: Summary, live: Live, task: TaskId, node: Node)
    requires node in NodesOf(live, task) && Summarises(s, live, Group(live, task, node))
    ensures s.count == |Group(live, task, node)| && s.count >= 1
  {
    var k :| k in TaskKeys(live, task) && live[k].event.node == node;
    assert k in Group(live, task, node);
  }

  /** Events that came through the bus never carry an empty node id, so their counts always add up. */
  lemma BusCountsSum(table: Summaries, live: Live, task: TaskId, nodes: seq<Node>, sums: seq<Summary>)
    requires |nodes| == |sums| && NoDup(nodes) && Elems(nodes) == NodesOf(live, task)
    requires forall i :: 0 <= i < |nodes| ==> Summarises(sums[i], live, Group(live, task, nodes[i]))
    requires forall k :: k in live ==> exists id :: live[k].event.node == BusNode(id)
    ensures Total(UpsertAll(table, task, nodes, sums), task, Names(nodes)) == |TaskKeys(live, task)|
  {
    SummaryCountsSum(table, live, task, nodes, sums);
    forall n | n in nodes ensures n != Some("") {
      assert n in NodesOf(live, task);
      var k :| k in TaskKeys(live, task) && live[k].event.node == n;
      var id :| live[k].event.node == BusNode(id);
    }
  }
}
