/** Keyset pagination: walking a table page by page, with or without changes between the pages. */
module Keyset {
  import opened Common
  import Lex

  /** The sort key of a row: its timestamp column, then its id. */
  datatype Key = Key(ts: string, id: string)

  datatype Page = Page(items: seq<Key>, next: Option<Key>)

  predicate Less(a: Key, b: Key) { Lex.Lt(a.ts, b.ts) || (a.ts == b.ts && Lex.Lt(a.id, b.id)) }

  /** `a` comes before `b` in the listing. */
  predicate Before(desc: bool, a: Key, b: Key) { if desc then Less(b, a) else Less(a, b) }

  lemma BeforeTotal(desc: bool, a: Key, b: Key)
    ensures Before(desc, a, b) || Before(desc, b, a) || a == b
    ensures !(Before(desc, a, b) && Before(desc, b, a)) && !Before(desc, a, a)
  {
    Lex.LeTotal(a.ts, b.ts);
    Lex.LeTotal(a.id, b.id);
    if Lex.Le(a.ts, b.ts) && Lex.Le(b.ts, a.ts) { Lex.LeAntisymmetric(a.ts, b.ts); }
    if Lex.Le(a.id, b.id) && Lex.Le(b.id, a.id) { Lex.LeAntisymmetric(a.id, b.id); }
  }

  lemma LessTransitive(a: Key, b: Key, c: Key)
    requires Less(a, b) && Less(b, c)
    ensures Less(a, c)
  {
    if Lex.Le(a.ts, b.ts) && Lex.Lt(b.ts, c.ts) { Lex.LtTransitive(a.ts, b.ts, c.ts); }
    if Lex.Le(a.id, b.id) && Lex.Lt(b.id, c.id) { Lex.LtTransitive(a.id, b.id, c.id); }
  }

  lemma BeforeTransitive(desc: bool, a: Key, b: Key, c: Key)
    requires Before(desc, a, b) && Before(desc, b, c)
    ensures Before(desc, a, c)
  {
    if desc { LessTransitive(c, b, a); } else { LessTransitive(a, b, c); }
  }

  /** A cursor with an empty part is ignored. */
  predicate Usable(cursor: Option<Key>) { cursor.Some? && cursor.value.ts != "" && cursor.value.id != "" }

  predicate Past(desc: bool, cursor: Option<Key>, k: Key) { Usable(cursor) ==> Before(desc, cursor.value, k) }

  ghost predicate Ascending(desc: bool, s: seq<Key>) {
    forall i, j :: 0 <= i < j < |s| ==> Before(desc, s[i], s[j])
  }

  /** What one query returns over the matching keys: the first `limit` past the cursor, in order, and a
      cursor exactly when more remain. */
  ghost predicate IsPage(desc: bool, keys: set<Key>, cursor: Option<Key>, limit: nat, p: Page) {
    && Ascending(desc, p.items) && |p.items| <= limit
    && (forall k :: k in p.items ==> k in keys && Past(desc, cursor, k))
    && match p.next {
         case Some(c) =>
           && p.items != [] && c == p.items[|p.items| - 1] && |p.items| == limit
           && (exists k :: k in keys && Past(desc, cursor, k) && k !in p.items)
           && (forall k :: k in keys && Past(desc, cursor, k) && k !in p.items ==> Before(desc, c, k))
         case None => forall k :: k in keys && Past(desc, cursor, k) ==> k in p.items
       }
  }

  const DEFAULT_LIMIT := 20
  const MAX_LIMIT := 100

  /** The task listing clamps the requested limit. */
  function Clamp(limit: Option<int>): (n: nat)
    ensures 1 <= n <= MAX_LIMIT
    ensures limit.Some? && 1 <= limit.value <= MAX_LIMIT ==> n == limit.value
  {
    var l := if limit.Some? then limit.value else DEFAULT_LIMIT;
    if l < 1 then 1 else if l > MAX_LIMIT then MAX_LIMIT else l
  }

  lemma {:induction false} FirstExists(desc: bool, keys: set<Key>) returns (first: Key)
    requires keys != {}
    ensures first in keys && forall k :: k in keys && k != first ==> Before(desc, first, k)
  {
    var x :| x in keys;
    if keys == {x} {
      first := x;
    } else {
      var y := FirstExists(desc, keys - {x});
      BeforeTotal(desc, x, y);
      first := if Before(desc, x, y) then x else y;
      forall k | k in keys && k != first ensures Before(desc, first, k) {
        if k != x && k != y {
          assert k in keys - {x};
          if first == x { BeforeTransitive(desc, x, y, k); }
        }
      }
    }
  }

  /** Every row of `rows` comes before every key of `left`. */
  ghost predicate Ahead(desc: bool, rows: seq<Key>, left: set<Key>) {
    forall r, k :: r in rows && k in left ==> Before(desc, r, k)
  }

  lemma TakeNone(desc: bool, keys: set<Key>)
    ensures Ascending(desc, []) && Ahead(desc, [], keys)
  {
  }

  lemma TakeStep(desc: bool, rows: seq<Key>, left: set<Key>, first: Key)
    requires Ascending(desc, rows) && Ahead(desc, rows, left)
    requires first in left && forall k :: k in left && k != first ==> Before(desc, first, k)
    ensures Ascending(desc, rows + [first]) && Ahead(desc, rows + [first], left - {first})
  {
    hide Before;
    assert forall i :: 0 <= i < |rows| ==> rows[i] in rows;
  }

  lemma TakeDone(desc: bool, keys: set<Key>, rows: seq<Key>, left: set<Key>)
    requires Ahead(desc, rows, left) && forall k :: k in keys <==> k in rows || k in left
    ensures Elems(rows) <= keys && (left == {} ==> Elems(rows) == keys)
    ensures forall r, k :: r in rows && k in keys && k !in rows ==> Before(desc, r, k)
  {
    hide Before;
    forall r, k | r in rows && k in keys && k !in rows ensures Before(desc, r, k) { assert k in left; }
  }

  /** The first `n` of a set of keys, in order. */
  method Take(desc: bool, keys: set<Key>, n: nat) returns (rows: seq<Key>)
    ensures Ascending(desc, rows) && |rows| <= n && Elems(rows) <= keys
    ensures |rows| < n ==> Elems(rows) == keys
    ensures forall r, k :: r in rows && k in keys && k !in rows ==> Before(desc, r, k)
  {
    hide Before, Ascending, Ahead;
    rows := [];
    var left := keys;
    TakeNone(desc, keys);
    while |rows| < n && left != {}
      invariant Ascending(desc, rows) && |rows| <= n && Ahead(desc, rows, left)
      invariant forall k :: k in keys <==> k in rows || k in left
      decreases |left|
    {
      ghost var lowest := FirstExists(desc, left);
      var first :| first in left && forall k :: k in left && k != first ==> Before(desc, first, k);
      TakeStep(desc, rows, left, first);
      rows, left := rows + [first], left - {first};
    }
    TakeDone(desc, keys, rows, left);
  }

  /** Row `n` shows that another page follows. */
  lemma FullPage(desc: bool, keys: set<Key>, past: set<Key>, cursor: Option<Key>, limit: nat, rows: seq<Key>)
    requires past == set k | k in keys && Past(desc, cursor, k)
    requires limit >= 1 && |rows| == limit + 1 && Ascending(desc, rows) && Elems(rows) <= past
    requires forall r, k :: r in rows && k in past && k !in rows ==> Before(desc, r, k)
    ensures IsPage(desc, keys, cursor, limit, Page(rows[..limit], Some(rows[limit - 1])))
  {
    hide Before, Past;
    var items, last := rows[..limit], rows[limit - 1];
    assert rows == items + [rows[limit]];
    assert forall k :: k in rows ==> k in Elems(rows);
    assert forall k :: k in items ==> k in rows;
    assert rows[limit] in rows && rows[limit] in past;
    forall i | 0 <= i < limit ensures items[i] != rows[limit] {
      assert Before(desc, rows[i], rows[limit]);
      BeforeTotal(desc, rows[i], rows[limit]);
    }
    forall k | k in keys && Past(desc, cursor, k) && k !in items ensures Before(desc, last, k) {
      assert k in past;
      if k == rows[limit] {
        assert Before(desc, rows[limit - 1], rows[limit]);
      } else {
        assert k !in rows && last in rows;
      }
    }
  }

  lemma ShortPage(desc: bool, keys: set<Key>, past: set<Key>, cursor: Option<Key>, limit: nat, rows: seq<Key>)
    requires past == set k | k in keys && Past(desc, cursor, k)
    requires |rows| <= limit && Ascending(desc, rows) && Elems(rows) == past
    ensures IsPage(desc, keys, cursor, limit, Page(rows, None))
  {
    hide Before, Past;
    assert forall k :: k in rows <==> k in Elems(rows);
  }

  /** One page: fetch one row more than asked for to see whether another page follows. */
  method ListCursor(desc: bool, keys: set<Key>, cursor: Option<Key>, limit: nat) returns (p: Page)
    requires limit >= 1
    ensures IsPage(desc, keys, cursor, limit, p)
  {
    hide Before, Past, IsPage, Ascending;
    var past := set k | k in keys && Past(desc, cursor, k);
    var rows := Take(desc, past, limit + 1);
    if |rows| > limit {
      FullPage(desc, keys, past, cursor, limit, rows);
      p := Page(rows[..limit], Some(rows[limit - 1]));
    } else {
      ShortPage(desc, keys, past, cursor, limit, rows);
      p := Page(rows, None);
    }
  }

  // ------------------------------------------------------------------ walks

  datatype Visit = Visit(keys: set<Key>, limit: nat, page: Page)

  /** A client follows the cursors; `keys` is the table's matching set at each request. */
  ghost predicate IsWalk(desc: bool, cursor: Option<Key>, visits: seq<Visit>)
    decreases |visits|
  {
    visits == [] ||
    (&& visits[0].limit >= 1 && IsPage(desc, visits[0].keys, cursor, visits[0].limit, visits[0].page)
     && (|visits| > 1 ==> visits[0].page.next.Some? && IsWalk(desc, visits[0].page.next, visits[1..])))
  }

  predicate Finished(visits: seq<Visit>) { visits != [] && visits[|visits| - 1].page.next.None? }

  function Seen(visits: seq<Visit>): seq<Key> {
    if visits == [] then [] else visits[0].page.items + Seen(visits[1..])
  }

  /** Keys the table holds have no empty part. */
  predicate Proper(visits: seq<Visit>) {
    forall i, k :: 0 <= i < |visits| && k in visits[i].keys ==> k.ts != "" && k.id != ""
  }

  ghost predicate Throughout(visits: seq<Visit>, k: Key) { forall i :: 0 <= i < |visits| ==> k in visits[i].keys }

  lemma {:induction false} WalkFacts(desc: bool, cursor: Option<Key>, visits: seq<Visit>)
    requires IsWalk(desc, cursor, visits) && Proper(visits)
    ensures Ascending(desc, Seen(visits)) && forall k :: k in Seen(visits) ==> Past(desc, cursor, k)
    ensures Finished(visits) ==> forall k :: Throughout(visits, k) && Past(desc, cursor, k) ==> k in Seen(visits)
    decreases |visits|
  {
    if visits != [] {
      var v, rest := visits[0], visits[1..];
      forall i, k | 0 <= i < |rest| && k in rest[i].keys ensures k.ts != "" && k.id != "" {
        assert k in visits[i + 1].keys;
      }
      if |visits| == 1 {
        assert Seen(visits) == v.page.items;
        LastVisit(desc, cursor, visits);
      } else {
        WalkFacts(desc, v.page.next, rest);
        var c := v.page.next.value;
        assert c in v.page.items;
        NextVisit(desc, cursor, v, rest);
        assert Finished(visits) ==> Finished(rest);
        forall k | Finished(visits) && Throughout(visits, k) && Past(desc, cursor, k) ensures k in Seen(visits) {
          if k !in v.page.items {
            assert k in visits[0].keys;
            assert Throughout(rest, k) by {
              forall i | 0 <= i < |rest| ensures k in rest[i].keys { assert k in visits[i + 1].keys; }
            }
          }
        }
      }
    }
  }

  lemma LastVisit(desc: bool, cursor: Option<Key>, visits: seq<Visit>)
    requires |visits| == 1 && IsWalk(desc, cursor, visits)
    ensures Finished(visits) ==>
              forall k :: Throughout(visits, k) && Past(desc, cursor, k) ==> k in visits[0].page.items
  {
    forall k | Finished(visits) && Throughout(visits, k) && Past(desc, cursor, k) ensures k in visits[0].page.items {
      assert k in visits[0].keys;
    }
  }

  /** A page and what was seen from its cursor on, together. */
  lemma NextVisit(desc: bool, cursor: Option<Key>, v: Visit, rest: seq<Visit>)
    requires IsPage(desc, v.keys, cursor, v.limit, v.page) && v.page.next.Some? && Usable(v.page.next)
    requires Ascending(desc, Seen(rest)) && forall k :: k in Seen(rest) ==> Past(desc, v.page.next, k)
    ensures Ascending(desc, v.page.items + Seen(rest))
    ensures forall k :: k in v.page.items + Seen(rest) ==> Past(desc, cursor, k)
  {
    var items, more := v.page.items, Seen(rest);
    var c := v.page.next.value;
    forall k | k in more ensures Before(desc, c, k) && Past(desc, cursor, k) {
      assert Past(desc, v.page.next, k);
      assert c in items;
      if Usable(cursor) { BeforeTransitive(desc, cursor.value, c, k); }
    }
    hide Before;
    var all := items + more;
    forall i, j | 0 <= i < j < |all| ensures Before(desc, all[i], all[j]) {
      if i < |items| <= j {
        assert all[j] in more;
        if i < |items| - 1 {
          assert Before(desc, items[i], c);
          BeforeTransitive(desc, items[i], c, all[j]);
        }
      }
    }
  }

  /** With any changes between the pages: no row is seen twice, rows come in key order, and a finished
      walk has seen every row that matched throughout. */
  lemma WalkUnderChanges(desc: bool, visits: seq<Visit>, k: Key)
    requires IsWalk(desc, None, visits) && Proper(visits)
    ensures NoDup(Seen(visits)) && Ascending(desc, Seen(visits))
    ensures Finished(visits) && Throughout(visits, k) ==> k in Seen(visits)
  {
    WalkFacts(desc, None, visits);
    var s := Seen(visits);
    forall i, j | 0 <= i < j < |s| ensures s[i] != s[j] {
      assert Before(desc, s[i], s[j]);
      BeforeTotal(desc, s[i], s[j]);
    }
  }

  lemma {:induction false} SeenInTables(desc: bool, cursor: Option<Key>, visits: seq<Visit>, keys: set<Key>)
    requires IsWalk(desc, cursor, visits) && forall i :: 0 <= i < |visits| ==> visits[i].keys == keys
    ensures Elems(Seen(visits)) <= keys
    decreases |visits|
  {
    if visits != [] {
      assert visits[0].keys == keys;
      if |visits| > 1 {
        forall i | 0 <= i < |visits[1..]| ensures visits[1..][i].keys == keys { assert visits[i + 1].keys == keys; }
        SeenInTables(desc, visits[0].page.next, visits[1..], keys);
      } else {
        assert Seen(visits) == visits[0].page.items;
      }
    }
  }

  /** Over an unchanging table a finished walk lists exactly the matching rows, in order, each once,
      whatever the page limits. */
  lemma WalkOfStaticTable(desc: bool, visits: seq<Visit>, keys: set<Key>)
    requires IsWalk(desc, None, visits) && Finished(visits)
    requires forall i :: 0 <= i < |visits| ==> visits[i].keys == keys
    requires forall k :: k in keys ==> k.ts != "" && k.id != ""
    ensures Elems(Seen(visits)) == keys && NoDup(Seen(visits)) && Ascending(desc, Seen(visits))
  {
    forall i, k | 0 <= i < |visits| && k in visits[i].keys ensures k.ts != "" && k.id != "" { assert visits[i].keys == keys; }
    SeenInTables(desc, None, visits, keys);
    forall k | k in keys ensures k in Seen(visits) {
      assert Throughout(visits, k);
      WalkUnderChanges(desc, visits, k);
    }
    var any: Key :| true;
    WalkUnderChanges(desc, visits, any);
  }

  /** A page that ends on a key with an empty part hands out a cursor that starts over: the next page of an
      unchanged table is the same page again, and only then. */
  lemma EmptyPartStartsOver(desc: bool, keys: set<Key>, limit: nat, p: Page, q: Page)
    requires limit >= 1 && IsPage(desc, keys, None, limit, p) && p.next.Some?
    requires IsPage(desc, keys, p.next, limit, q)
    ensures (exists k :: k in q.items && k in p.items) <==> !Usable(p.next)
  {
    var c := p.next.value;
    if Usable(p.next) {
      forall k | k in q.items ensures k !in p.items {
        assert Past(desc, p.next, k);
        if k in p.items {
          var i :| 0 <= i < |p.items| && p.items[i] == k;
          assert i < |p.items| - 1 ==> Before(desc, k, c);
          BeforeTotal(desc, k, c);
        }
      }
    } else {
      var first := p.items[0];
      StartsOver(desc, keys, limit, p, q);
    }
  }

  lemma StartsOver(desc: bool, keys: set<Key>, limit: nat, p: Page, q: Page)
    requires limit >= 1 && IsPage(desc, keys, None, limit, p) && p.next.Some? && !Usable(p.next)
    requires IsPage(desc, keys, p.next, limit, q)
    ensures exists k :: k in q.items && k in p.items
  {
    var first := p.items[0];
    assert first in p.items;
    if first !in q.items {
      assert q.next.Some?;
      var c := q.next.value;
      assert Before(desc, c, first);
      assert c in q.items;
      assert c in keys;
      if c !in p.items {
        assert Before(desc, p.next.value, c);
        if |p.items| > 1 { BeforeTransitive(desc, first, p.next.value, c); }
        BeforeTotal(desc, first, c);
      }
    }
  }

  // ------------------------------------------------------------------ the two listings

  /** `a` stands before `b`: by timestamp, then by id, both downwards or both upwards. */
  predicate Precedes(desc: bool, a: Key, b: Key) {
    if desc then Lex.Lt(b.ts, a.ts) || (a.ts == b.ts && Lex.Lt(b.id, a.id))
    else Lex.Lt(a.ts, b.ts) || (a.ts == b.ts && Lex.Lt(a.id, b.id))
  }

  /** What a page lists: the first keys, in order, all past a cursor with two parts, and what it leaves out comes after it. */
  ghost predicate FirstPast(desc: bool, keys: set<Key>, cursor: Option<Key>, limit: nat, p: Page) {
    var past := set k | k in keys && (cursor.Some? && cursor.value.ts != "" && cursor.value.id != "" ==> Precedes(desc, cursor.value, k));
    && Elems(p.items) <= past && |p.items| <= limit
    && (forall i, j :: 0 <= i < j < |p.items| ==> Precedes(desc, p.items[i], p.items[j]))
    && (forall r, k :: r in p.items && k in past && k !in p.items ==> Precedes(desc, r, k))
    && (p.next.None? <==> Elems(p.items) == past)
    && (p.next.Some? ==> |p.items| == limit && limit > 0 && p.next.value == p.items[limit - 1])
  }

  lemma PageIsFirst(desc: bool, keys: set<Key>, cursor: Option<Key>, limit: nat, p: Page)
    requires IsPage(desc, keys, cursor, limit, p)
    ensures FirstPast(desc, keys, cursor, limit, p)
  {
    forall a, b ensures Before(desc, a, b) <==> Precedes(desc, a, b) { }
    forall k ensures Past(desc, cursor, k) <==>
        (cursor.Some? && cursor.value.ts != "" && cursor.value.id != "" ==> Precedes(desc, cursor.value, k)) { }
    var past := set k | k in keys && Past(desc, cursor, k);
    hide Before, Past, Precedes;
    assert forall k :: k in p.items <==> k in Elems(p.items);
    if p.next.Some? {
      var k :| k in keys && Past(desc, cursor, k) && k !in p.items;
      assert k in past && k !in Elems(p.items);
      forall r, m | r in p.items && m in past && m !in p.items ensures Before(desc, r, m) {
        var i :| 0 <= i < |p.items| && p.items[i] == r;
        if i < |p.items| - 1 { BeforeTransitive(desc, r, p.next.value, m); }
      }
    } else {
      assert Elems(p.items) == past;
    }
  }

  /** The task listing clamps the limit and ignores a cursor it cannot use. */
  method ListTasks(desc: bool, keys: set<Key>, cursor: Option<Key>, limit: Option<int>) returns (p: Page)
    ensures IsPage(desc, keys, cursor, Clamp(limit), p)
    ensures var l := if limit.Some? then limit.value else 20;
            FirstPast(desc, keys, cursor, if l < 1 then 1 else if l > 100 then 100 else l, p)
  {
    p := ListCursor(desc, keys, cursor, Clamp(limit));
    PageIsFirst(desc, keys, cursor, Clamp(limit), p);
  }

  datatype Listing = Listed(page: Page) | Refused

  /** The agent listing refuses a limit out of range and a cursor it cannot use. */
  method ListAgents(keys: set<Key>, cursor: Option<Key>, limit: Option<int>) returns (r: Listing)
    ensures r.Refused? <==>
              || (limit.Some? && !(1 <= limit.value <= 100))
              || (cursor.Some? && (cursor.value.ts == "" || cursor.value.id == ""))
    ensures r.Listed? ==>
              var n := if limit.Some? then limit.value else 20;
              1 <= n <= 100 && IsPage(true, keys, cursor, n, r.page) && FirstPast(true, keys, cursor, n, r.page)
  {
    var n := if limit.Some? then limit.value else DEFAULT_LIMIT;
    if n < 1 || n > MAX_LIMIT {
      return Refused;
    }
    if cursor.Some? && !Usable(cursor) {
      return Refused;
    }
    var page := ListCursor(true, keys, cursor, n);
    PageIsFirst(true, keys, cursor, n, page);
    return Listed(page);
  }

  /** A key's place among the keys in listing order, counted from one. */
  function Rank(desc: bool, keys: set<Key>, k: Key): nat { |set j | j in keys && (j == k || Before(desc, j, k))| }

  /** A page ends on this key, more follow, and its cursor has an empty part. */
  predicate Stuck(keys: set<Key>, limit: nat, k: Key)
    requires limit >= 1
  {
    k in keys && !Usable(Some(k)) && Rank(true, keys, k) % limit == 0 && Rank(true, keys, k) < |keys|
  }

  /** The first keys in order, with no stuck key before the last. */
  ghost predicate Scanned(keys: set<Key>, limit: nat, rows: seq<Key>)
    requires limit >= 1
  {
    && Ascending(true, rows) && Elems(rows) <= keys
    && (forall r, k :: r in rows && k in keys && k !in rows ==> Before(true, r, k))
    && (forall i :: 0 <= i < |rows| - 1 ==> !Stuck(keys, limit, rows[i]))
  }

  lemma RankAt(keys: set<Key>, rows: seq<Key>, i: nat)
    requires Ascending(true, rows) && Elems(rows) <= keys && i < |rows|
    requires forall r, k :: r in rows && k in keys && k !in rows ==> Before(true, r, k)
    ensures Rank(true, keys, rows[i]) == i + 1
  {
    var below := set j | j in keys && (j == rows[i] || Before(true, j, rows[i]));
    var first := rows[..i + 1];
    forall j | j in first ensures j in below {
      var x :| 0 <= x <= i && rows[x] == j;
      assert j in Elems(rows);
    }
    forall j | j in below ensures j in first {
      BeforeTotal(true, rows[i], j);
      assert rows[i] in rows && j in rows;
      var x :| 0 <= x < |rows| && rows[x] == j;
      if x <= i { assert first[x] == j; }
    }
    assert below == Elems(first);
    AscendingDistinct(true, first);
    NoDupCardinality(first);
  }

  lemma AscendingDistinct(desc: bool, rows: seq<Key>)
    requires Ascending(desc, rows)
    ensures NoDup(rows)
  {
    forall i, j | 0 <= i < j < |rows| ensures rows[i] != rows[j] {
      assert Before(desc, rows[i], rows[j]);
      BeforeTotal(desc, rows[i], rows[j]);
    }
  }

  ghost predicate CursorAt(rows: seq<Key>, cursor: Option<Key>) {
    if rows == [] then cursor.None? else cursor == Some(rows[|rows| - 1])
  }

  /** The keys past a usable cursor are those not listed yet. */
  lemma PastIsRest(keys: set<Key>, limit: nat, rows: seq<Key>, cursor: Option<Key>, k: Key)
    requires limit >= 1 && Scanned(keys, limit, rows) && CursorAt(rows, cursor) && (cursor.Some? ==> Usable(cursor))
    requires k in keys
    ensures Past(true, cursor, k) <==> k !in rows
  {
    if rows != [] {
      var last := rows[|rows| - 1];
      assert last in rows;
      if k in rows {
        var i :| 0 <= i < |rows| && rows[i] == k;
        if i < |rows| - 1 { assert Before(true, rows[i], last); }
        BeforeTotal(true, k, last);
      }
    }
  }

  lemma NextPage(keys: set<Key>, limit: nat, rows: seq<Key>, cursor: Option<Key>, p: Page)
    requires limit >= 1 && Scanned(keys, limit, rows) && CursorAt(rows, cursor) && (cursor.Some? ==> Usable(cursor))
    requires IsPage(true, keys, cursor, limit, p) && |rows| % limit == 0
    ensures Scanned(keys, limit, rows + p.items)
    ensures p.next.Some? ==> CursorAt(rows + p.items, p.next) && |rows| < |rows + p.items| < |keys| && |rows + p.items| % limit == 0
    ensures p.next.None? ==> Elems(rows + p.items) == keys && forall k :: !Stuck(keys, limit, k)
  {
    var all := rows + p.items;
    hide Ascending, Before, Rank, Stuck, Past;
    PastIsAllRest(keys, limit, rows, cursor);
    PageFollows(keys, limit, rows, cursor, p);
    ListedSize(keys, rows, cursor, p);
    RankAll(keys, all);
    assert |p.items| <= limit && rows == all[..|rows|];
    hide IsPage, Rest;
    StuckNowhere(keys, limit, rows, all);
    if p.next.Some? {
      NextMultiple(|rows|, limit);
    } else {
      NoneStuck(keys, limit, all);
    }
  }

  lemma PastIsAllRest(keys: set<Key>, limit: nat, rows: seq<Key>, cursor: Option<Key>)
    requires limit >= 1 && Scanned(keys, limit, rows) && CursorAt(rows, cursor) && (cursor.Some? ==> Usable(cursor))
    ensures Rest(keys, rows, cursor)
  {
    forall k | k in keys ensures Past(true, cursor, k) <==> k !in rows { PastIsRest(keys, limit, rows, cursor, k); }
  }

  lemma RankAll(keys: set<Key>, rows: seq<Key>)
    requires Ascending(true, rows) && Elems(rows) <= keys
    requires forall r, k :: r in rows && k in keys && k !in rows ==> Before(true, r, k)
    ensures forall i :: 0 <= i < |rows| ==> Rank(true, keys, rows[i]) == i + 1
  {
    forall i | 0 <= i < |rows| ensures Rank(true, keys, rows[i]) == i + 1 { RankAt(keys, rows, i); }
  }

  lemma NoneStuck(keys: set<Key>, limit: nat, all: seq<Key>)
    requires limit >= 1 && Elems(all) == keys && forall i :: 0 <= i < |all| ==> !Stuck(keys, limit, all[i])
    ensures forall k :: !Stuck(keys, limit, k)
  {
    forall k ensures !Stuck(keys, limit, k) {
      if k in keys {
        assert k in Elems(all);
        var i :| 0 <= i < |all| && all[i] == k;
      }
    }
  }

  ghost predicate Rest(keys: set<Key>, rows: seq<Key>, cursor: Option<Key>) {
    forall k :: k in keys ==> (Past(true, cursor, k) <==> k !in rows)
  }

  lemma ListedSize(keys: set<Key>, rows: seq<Key>, cursor: Option<Key>, p: Page)
    requires Rest(keys, rows, cursor) && Ascending(true, rows + p.items) && Elems(rows + p.items) <= keys
    requires p.next.Some? ==> exists k :: k in keys && Past(true, cursor, k) && k !in p.items
    requires p.next.None? ==> Elems(rows + p.items) == keys
    ensures if p.next.Some? then |rows + p.items| < |keys| else |rows + p.items| == |keys|
  {
    var all := rows + p.items;
    AscendingDistinct(true, all);
    NoDupCardinality(all);
    if p.next.Some? {
      var k :| k in keys && Past(true, cursor, k) && k !in p.items;
      assert k !in all;
      SubsetCardinality(Elems(all), keys - {k});
    }
  }

  /** A page after the rows listed so far continues them in order. */
  lemma PageFollows(keys: set<Key>, limit: nat, rows: seq<Key>, cursor: Option<Key>, p: Page)
    requires limit >= 1 && Scanned(keys, limit, rows) && IsPage(true, keys, cursor, limit, p)
    requires Rest(keys, rows, cursor)
    ensures var all := rows + p.items;
            && Ascending(true, all) && Elems(all) <= keys
            && (forall r, k :: r in all && k in keys && k !in all ==> Before(true, r, k))
            && (p.next.None? ==> Elems(all) == keys)
  {
    hide Before, Past, Stuck;
    var items := p.items;
    var all := rows + items;
    forall i, j | 0 <= i < j < |all| ensures Before(true, all[i], all[j]) {
      if i < |rows| <= j {
        assert all[i] in rows && all[j] in items && all[j] in keys && all[j] !in rows;
      }
    }
    forall r, k | r in all && k in keys && k !in all ensures Before(true, r, k) {
      if r !in rows {
        var c := p.next.value;
        var i :| 0 <= i < |items| && items[i] == r;
        assert Before(true, c, k);
        if i < |items| - 1 { BeforeTransitive(true, r, c, k); }
      }
    }
  }

  lemma StuckNowhere(keys: set<Key>, limit: nat, rows: seq<Key>, all: seq<Key>)
    requires limit >= 1 && |rows| % limit == 0 && |rows| <= |all| <= |rows| + limit && |all| <= |keys|
    requires forall i :: 0 <= i < |all| ==> Rank(true, keys, all[i]) == i + 1
    requires rows == all[..|rows|] && forall i :: 0 <= i < |rows| - 1 ==> !Stuck(keys, limit, rows[i])
    requires rows != [] ==> Usable(Some(rows[|rows| - 1]))
    ensures forall i :: 0 <= i < |all| - 1 ==> !Stuck(keys, limit, all[i])
    ensures |all| == |keys| ==> forall i :: 0 <= i < |all| ==> !Stuck(keys, limit, all[i])
  {
    forall i | 0 <= i < |all| && (i < |all| - 1 || |all| == |keys|) ensures !Stuck(keys, limit, all[i]) {
      if i < |rows| {
        assert all[i] == rows[i];
      } else if i < |all| - 1 {
        NotMultiple(|rows|, limit, i + 1);
      }
    }
  }

  lemma NotMultiple(m: nat, limit: nat, n: nat)
    requires limit >= 1 && m % limit == 0 && m < n < m + limit
    ensures n % limit != 0
  {
    var q, r := m / limit, n / limit;
    assert m == q * limit && n == r * limit + n % limit;
    if q < r {
      MultipleGap(q, r, limit);
    } else if r < q {
      MultipleGap(r, q, limit);
    }
  }

  lemma MultipleGap(q: nat, r: nat, limit: nat)
    requires q < r
    ensures r * limit >= q * limit + limit
    decreases r
  {
    assert r * limit == (r - 1) * limit + limit;
    if q < r - 1 { MultipleGap(q, r - 1, limit); }
  }

  lemma NextMultiple(m: nat, limit: nat)
    requires limit >= 1 && m % limit == 0
    ensures (m + limit) % limit == 0
  {
    var q := m / limit;
    assert m == q * limit;
    assert m + limit == (q + 1) * limit;
    MultipleMod(m + limit, q + 1, limit);
  }

  lemma MultipleMod(n: nat, k: nat, limit: nat)
    requires limit >= 1 && n == k * limit
    ensures n % limit == 0
  {
    var d := n / limit;
    assert n == d * limit + n % limit;
    if d < k {
      MultipleGap(d, k, limit);
    } else if k < d {
      MultipleGap(k, d, limit);
    }
  }

  /** The watchdog's scan drains every page of an unchanging table. It fails exactly when a page that is not the
      last ends on a key with an empty part, whose cursor the listing refuses. */
  method ListAll(keys: set<Key>, limit: nat) returns (all: Option<seq<Key>>)
    requires 1 <= limit <= MAX_LIMIT
    ensures all.None? <==> exists k :: Stuck(keys, limit, k)
    ensures all.Some? ==> Elems(all.value) == keys && NoDup(all.value) && Ascending(true, all.value)
  {
    hide Scanned, IsPage, Stuck, Rank, Before, Ascending, Elems;
    var rows: seq<Key> := [];
    var cursor: Option<Key> := None;
    NothingScanned(keys, limit);
    while true
      invariant Scanned(keys, limit, rows) && CursorAt(rows, cursor)
      invariant |rows| % limit == 0 && |rows| <= |keys| && (cursor.Some? ==> |rows| < |keys|)
      decreases |keys| - |rows|
    {
      var r := ListAgents(keys, cursor, Some(limit));
      if r.Refused? {
        LastIsStuck(keys, limit, rows);
        return None;
      }
      NextPage(keys, limit, rows, cursor, r.page);
      rows := rows + r.page.items;
      if r.page.next.None? {
        ScannedDistinct(keys, limit, rows);
        return Some(rows);
      }
      cursor := r.page.next;
    }
  }

  lemma NothingScanned(keys: set<Key>, limit: nat)
    requires limit >= 1
    ensures Scanned(keys, limit, []) && 0 % limit == 0
  {
  }

  lemma LastIsStuck(keys: set<Key>, limit: nat, rows: seq<Key>)
    requires limit >= 1 && Scanned(keys, limit, rows) && rows != [] && |rows| % limit == 0 && |rows| < |keys|
    requires !Usable(Some(rows[|rows| - 1]))
    ensures Stuck(keys, limit, rows[|rows| - 1])
  {
    RankAt(keys, rows, |rows| - 1);
    assert rows[|rows| - 1] in Elems(rows);
  }

  lemma ScannedDistinct(keys: set<Key>, limit: nat, rows: seq<Key>)
    requires limit >= 1 && Scanned(keys, limit, rows)
    ensures NoDup(rows) && Ascending(true, rows)
  {
    AscendingDistinct(true, rows);
  }
}
