/**
 * The hash-chained audit log. The hash of an entry is a function of its fields and the
 * previous hash; the theorems need it injective.
 */
module AuditChain {
  import opened Common

  datatype Fields = Fields(
    id: int, at: string, actor: string, action: string, target: Option<string>, statusCode: int,
    requestId: Option<string>, details: Option<string>)

  type Digest = string
  type HashFn = (Fields, Digest) -> Digest

  /** Rows written before chaining have no hash. */
  datatype Row = Row(fields: Fields, prevHash: Option<Digest>, hash: Option<Digest>)

  datatype Verification = Verification(firstBroken: Option<int>, checked: int, legacyRows: int) {
    predicate Valid() { firstBroken.None? }
  }

  const GENESIS: Digest := seq(64, i => '0')

  ghost predicate Injective(h: HashFn) {
    forall a: Fields, b: Fields, p: Digest, q: Digest :: h(a, p) == h(b, q) ==> a == b && p == q
  }

  /** Rows in id order; ids are a primary key. */
  predicate Ordered(log: seq<Row>) {
    forall i, j :: 0 <= i < j < |log| ==> log[i].fields.id < log[j].fields.id
  }

  /** What row `i` must satisfy, given the row before it. */
  predicate Good(h: HashFn, log: seq<Row>, i: nat)
    requires i < |log|
  {
    if log[i].hash.None? then i > 0 ==> log[i - 1].hash.None?
    else
      && log[i].prevHash.Some?
      && (i > 0 && log[i - 1].hash.Some? ==> log[i].prevHash == log[i - 1].hash)
      && h(log[i].fields, log[i].prevHash.value) == log[i].hash.value
  }

  ghost predicate ValidChain(h: HashFn, log: seq<Row>) { forall i :: 0 <= i < |log| ==> Good(h, log, i) }

  function Chained(log: seq<Row>): nat {
    if log == [] then 0
    else Chained(log[..|log| - 1]) + (if log[|log| - 1].hash.Some? then 1 else 0)
  }

  /** The verdict when `good` is the number of leading rows that verify. */
  function Verdict(log: seq<Row>, good: nat): Verification
    requires good <= |log|
  {
    Verification(if good < |log| then Some(log[good].fields.id) else None,
                 Chained(log[..good]), good - Chained(log[..good]))
  }

  /** Exactly the first `good` rows verify, up to the first that does not. */
  ghost predicate FirstBad(h: HashFn, log: seq<Row>, good: nat) {
    && good <= |log| && (forall i :: 0 <= i < good ==> Good(h, log, i)) && (good < |log| ==> !Good(h, log, good))
  }

  /** There is only one number of leading good rows. */
  lemma FirstBadUnique(h: HashFn, log: seq<Row>, a: nat, b: nat)
    requires FirstBad(h, log, a) && FirstBad(h, log, b)
    ensures a == b
  {
  }

  /** The verdict names the row after the good ones, if there is one, and counts the chained and the other good ones. */
  predicate Reports(log: seq<Row>, good: nat, v: Verification)
    requires good <= |log|
  {
    && v.firstBroken == (if good < |log| then Some(log[good].fields.id) else None)
    && v.checked == |set i | 0 <= i < good && log[i].hash.Some?| && v.legacyRows == good - v.checked
  }

  lemma {:induction false} ChainedCounts(log: seq<Row>, n: nat)
    requires n <= |log|
    ensures Chained(log[..n]) == |set i | 0 <= i < n && log[i].hash.Some?|
  {
    var all := set i | 0 <= i < n && log[i].hash.Some?;
    if n == 0 {
      assert all == {};
    } else {
      ChainedCounts(log, n - 1);
      assert log[..n][..n - 1] == log[..n - 1];
      var front := set i | 0 <= i < n - 1 && log[i].hash.Some?;
      assert all == front + if log[n - 1].hash.Some? then {n - 1} else {};
    }
  }

  lemma OnlyVerdict(h: HashFn, log: seq<Row>, good: nat)
    requires FirstBad(h, log, good)
    ensures forall other: nat :: FirstBad(h, log, other) ==>
              Verdict(log, other) == Verdict(log, good) && Reports(log, other, Verdict(log, good))
  {
    ChainedCounts(log, good);
    forall other: nat | FirstBad(h, log, other) ensures other == good { FirstBadUnique(h, log, other, good); }
  }

  function Appended(h: HashFn, log: seq<Row>, input: Fields): Row {
    var fields := input.(id := if log == [] then 1 else log[|log| - 1].fields.id + 1);
    var prev := if log != [] && log[|log| - 1].hash.Some? then log[|log| - 1].hash.value else GENESIS;
    Row(fields, Some(prev), Some(h(fields, prev)))
  }

  class AuditLog {
    const hash: HashFn
    var rows: seq<Row>

    constructor (hash: HashFn, rows: seq<Row>)
      ensures this.hash == hash && this.rows == rows
    {
      this.hash, this.rows := hash, rows;
    }

    method Append(input: Fields) returns (row: Row)
      modifies this
      ensures rows == old(rows) + [row] && row == Appended(hash, old(rows), input)
      ensures var linked := old(rows) != [] && old(rows)[|old(rows)| - 1].hash.Some?;
              && row.fields == input.(id := if old(rows) == [] then 1 else old(rows)[|old(rows)| - 1].fields.id + 1)
              && row.prevHash == (if linked then old(rows)[|old(rows)| - 1].hash else Some(seq(64, i => '0')))
              && row.hash == Some(hash(row.fields, row.prevHash.value))
    {
      var id, prevHash := 1, GENESIS;
      if rows != [] {
        var head := rows[|rows| - 1];
        id := head.fields.id + 1;
        if head.hash.Some? { prevHash := head.hash.value; }
      }
      var fields := input.(id := id);
      row := Row(fields, Some(prevHash), Some(hash(fields, prevHash)));
      rows := rows + [row];
    }

    /** Walk the chain oldest first; stop at the first row that fails. */
    method Verify() returns (v: Verification)
      ensures v.Valid() <==> ValidChain(hash, rows)
      ensures exists good: nat :: FirstBad(hash, rows, good)
      ensures forall good: nat :: FirstBad(hash, rows, good) ==> v == Verdict(rows, good) && Reports(rows, good, v)
    {
      var previousHash: Option<Digest> := None;
      var checked, legacyRows := 0, 0;
      var i := 0;
      while i < |rows|
        invariant 0 <= i <= |rows| && forall j :: 0 <= j < i ==> Good(hash, rows, j)
        invariant previousHash == if i > 0 then rows[i - 1].hash else None
        invariant checked == Chained(rows[..i]) && legacyRows + checked == i
      {
        var row := rows[i];
        assert rows[..i + 1][..i] == rows[..i];
        if row.hash.None? {
          if previousHash.Some? {
            assert FirstBad(hash, rows, i);
            OnlyVerdict(hash, rows, i);
            return Verification(Some(row.fields.id), checked, legacyRows);
          }
          legacyRows := legacyRows + 1;
        } else {
          var broken := row.prevHash.None? || (previousHash.Some? && row.prevHash != previousHash)
                        || hash(row.fields, row.prevHash.value) != row.hash.value;
          if broken {
            assert FirstBad(hash, rows, i);
            OnlyVerdict(hash, rows, i);
            return Verification(Some(row.fields.id), checked, legacyRows);
          }
          previousHash := row.hash;
          checked := checked + 1;
        }
        i := i + 1;
      }
      v := Verification(None, checked, legacyRows);
      assert FirstBad(hash, rows, |rows|);
      OnlyVerdict(hash, rows, |rows|);
    }

    /** Newest-first batches of at most EXPORT_BATCH_SIZE rows, `maxRows` in all. */
    method IterateRows(maxRows: int) returns (batches: seq<seq<Row>>)
      requires Ordered(rows) && forall r :: r in rows ==> r.fields.id < MAX_SAFE_INTEGER
      ensures Flat(batches) == Newest(rows, maxRows)
      ensures |Flat(batches)| == if maxRows <= 0 then 0 else if maxRows < |rows| then maxRows else |rows|
      ensures forall i :: 0 <= i < |Flat(batches)| && i < |rows| ==> Flat(batches)[i] == rows[|rows| - 1 - i]
      ensures forall b :: b in batches ==> 1 <= |b| <= EXPORT_BATCH_SIZE
    {
      NewestIs(rows, maxRows);
      hide Flat, Newest, Ordered;
      batches := [];
      var remaining := if maxRows > 0 then maxRows else 0;
      var beforeId := MAX_SAFE_INTEGER;
      ghost var done := 0;
      NothingYet(rows, MAX_SAFE_INTEGER);
      while remaining > 0
        invariant 0 <= remaining && 0 <= done <= |rows| && done + remaining == if maxRows > 0 then maxRows else 0
        invariant Below(rows, beforeId, |rows| - done)
        invariant Flat(batches) == Newest(rows, done)
        invariant forall b :: b in batches ==> 1 <= |b| <= EXPORT_BATCH_SIZE
        decreases remaining
      {
        var limit := if EXPORT_BATCH_SIZE < remaining then EXPORT_BATCH_SIZE else remaining;
        var batch := Query(beforeId, limit, |rows| - done);
        NewestSize(rows[..|rows| - done], limit);
        if batch == [] {
          NewestCapped(rows, maxRows, done);
          return;
        }
        FlatSnoc(batches, batch);
        NewestMore(rows, done, |batch|);
        NewestLimit(rows[..|rows| - done], limit, |batch|);
        batches := batches + [batch];
        done := done + |batch|;
        remaining := remaining - |batch|;
        NewestLast(rows, batch, done);
        beforeId := batch[|batch| - 1].fields.id;
        BelowAt(rows, |rows| - done);
      }
      NewestCapped(rows, maxRows, done);
    }

    /** The page of at most `limit` rows with smaller ids, newest first. */
    method Query(beforeId: int, limit: int, ghost left: nat) returns (page: seq<Row>)
      requires left <= |rows| && limit > 0 && Below(rows, beforeId, left)
      ensures page == Newest(rows[..left], limit)
    {
      page := [];
      var i := |rows|;
      while i > 0 && |page| < limit
        invariant 0 <= i <= |rows| && |page| <= limit
        invariant i >= left ==> page == []
        invariant i < left ==> |page| == left - i && forall k :: 0 <= k < |page| ==> page[k] == rows[left - 1 - k]
      {
        i := i - 1;
        if rows[i].fields.id < beforeId {
          page := page + [rows[i]];
        }
      }
    }
  }

  const EXPORT_BATCH_SIZE := 500
  const MAX_SAFE_INTEGER := 0x1F_FFFF_FFFF_FFFF

  /** The last `n` rows, newest first. */
  function Newest(rows: seq<Row>, n: int): (r: seq<Row>) {
    var k := if n < 0 then 0 else if n < |rows| then n else |rows|;
    seq(k, i requires 0 <= i < k => rows[|rows| - 1 - i])
  }

  lemma NewestIs(rows: seq<Row>, n: int)
    ensures |Newest(rows, n)| == if n <= 0 then 0 else if n < |rows| then n else |rows|
    ensures forall i :: 0 <= i < |Newest(rows, n)| && i < |rows| ==> Newest(rows, n)[i] == rows[|rows| - 1 - i]
  {
  }

  function Flat(batches: seq<seq<Row>>): seq<Row> {
    if batches == [] then [] else Flat(batches[..|batches| - 1]) + batches[|batches| - 1]
  }

  lemma FlatSnoc(batches: seq<seq<Row>>, b: seq<Row>)
    ensures Flat(batches + [b]) == Flat(batches) + b
  {
    assert (batches + [b])[..|batches|] == batches;
  }

  /** Exactly the first `left` rows have an id below `beforeId`. */
  ghost predicate Below(rows: seq<Row>, beforeId: int, left: int) {
    forall i :: 0 <= i < |rows| ==> (rows[i].fields.id < beforeId <==> i < left)
  }

  lemma NothingYet(rows: seq<Row>, beforeId: int)
    requires forall r :: r in rows ==> r.fields.id < beforeId
    ensures Below(rows, beforeId, |rows|) && Flat([]) == Newest(rows, 0)
  {
  }

  lemma BelowAt(rows: seq<Row>, k: nat)
    requires Ordered(rows) && k < |rows|
    ensures Below(rows, rows[k].fields.id, k)
  {
  }

  lemma NewestSize(rows: seq<Row>, n: int)
    requires n > 0
    ensures |Newest(rows, n)| <= n && (Newest(rows, n) == [] <==> rows == [])
  {
  }

  lemma NewestLimit(rows: seq<Row>, n: int, k: int)
    requires k == |Newest(rows, n)|
    ensures Newest(rows, n) == Newest(rows, k) && k <= |rows|
  {
  }

  lemma NewestMore(rows: seq<Row>, done: nat, more: nat)
    requires done <= |rows|
    ensures done + more <= |rows| ==>
              Newest(rows, done) + Newest(rows[..|rows| - done], more) == Newest(rows, done + more)
  {
  }

  /** The last row of a batch that brings the total to `done`. */
  lemma NewestLast(rows: seq<Row>, batch: seq<Row>, done: nat)
    requires |batch| > 0 && |batch| <= done <= |rows|
    requires batch == Newest(rows[..|rows| - (done - |batch|)], |batch|)
    ensures batch[|batch| - 1] == rows[|rows| - done]
  {
  }

  lemma NewestCapped(rows: seq<Row>, maxRows: int, n: nat)
    requires n == (if maxRows > 0 then maxRows else 0) || (n == |rows| <= maxRows)
    ensures Newest(rows, n) == Newest(rows, maxRows)
  {
  }

  // ------------------------------------------------------------------ what verification means

  /** Appending to a valid log keeps it valid, adds one chained row, and keeps the ids in order. */
  lemma AppendKeepsValid(h: HashFn, log: seq<Row>, input: Fields)
    requires ValidChain(h, log) && Ordered(log)
    ensures var after := log + [Appended(h, log, input)];
            ValidChain(h, after) && Ordered(after) && Chained(after) == Chained(log) + 1
  {
    var after := log + [Appended(h, log, input)];
    forall i | 0 <= i < |after| ensures Good(h, after, i) {
      if i < |log| { assert Good(h, log, i); }
    }
    assert after[..|after| - 1] == log;
  }

  ghost predicate AllChained(log: seq<Row>) { forall i :: 0 <= i < |log| ==> log[i].hash.Some? }

  /** Commitment: two valid chained logs of one length with the same last hash are the same log. */
  lemma {:induction false} LastHashCommits(h: HashFn, a: seq<Row>, b: seq<Row>)
    requires Injective(h) && ValidChain(h, a) && ValidChain(h, b) && AllChained(a) && AllChained(b)
    requires |a| == |b| > 0 && a[|a| - 1].hash == b[|b| - 1].hash
    ensures a == b
  {
    var n := |a| - 1;
    assert Good(h, a, n) && Good(h, b, n);
    assert a[n] == b[n];
    if n > 0 {
      ValidPrefix(h, a, n);
      ValidPrefix(h, b, n);
      LastHashCommits(h, a[..n], b[..n]);
      assert a == a[..n] + [a[n]] && b == b[..n] + [b[n]];
    }
  }

  /** From genesis, the last hash commits to the whole history, its length included. */
  lemma {:induction false} GenesisCommits(h: HashFn, a: seq<Row>, b: seq<Row>)
    requires Injective(h) && forall f, p :: h(f, p) != GENESIS
    requires ValidChain(h, a) && ValidChain(h, b) && AllChained(a) && AllChained(b)
    requires |a| > 0 && |b| > 0 && a[0].prevHash == b[0].prevHash == Some(GENESIS)
    requires a[|a| - 1].hash == b[|b| - 1].hash
    ensures a == b
  {
    var n, m := |a| - 1, |b| - 1;
    assert Good(h, a, n) && Good(h, b, m);
    assert a[n] == b[m];
    if n > 0 { assert Good(h, a, n - 1); }
    if m > 0 { assert Good(h, b, m - 1); }
    if n > 0 && m > 0 {
      ValidPrefix(h, a, n);
      ValidPrefix(h, b, m);
      GenesisCommits(h, a[..n], b[..m]);
    }
    assert a == a[..n] + [a[n]] && b == b[..m] + [b[m]];
  }

  lemma ValidPrefix(h: HashFn, log: seq<Row>, n: nat)
    requires ValidChain(h, log) && n <= |log|
    ensures ValidChain(h, log[..n])
  {
    forall i | 0 <= i < n ensures Good(h, log[..n], i) { assert Good(h, log, i); }
  }

  /** Pruning the oldest rows keeps a valid log valid. */
  lemma PrefixDeletion(h: HashFn, log: seq<Row>, k: nat)
    requires ValidChain(h, log) && k <= |log|
    ensures ValidChain(h, log[k..])
  {
    forall i | 0 <= i < |log| - k ensures Good(h, log[k..], i) { assert Good(h, log, k + i); }
  }

  /** Cutting rows `i` to `j` out of a valid log goes unnoticed exactly at the ends and within or right
      after the unchained part; anywhere else verification fails at the first row after the gap. */
  lemma DeletionDetectedIff(h: HashFn, log: seq<Row>, i: nat, j: nat)
    requires Injective(h) && ValidChain(h, log) && Ordered(log) && i < j <= |log|
    ensures var cut := log[..i] + log[j..];
            && (ValidChain(h, cut) <==> i == 0 || j == |log| || log[i - 1].hash.None?)
            && (i > 0 && j < |log| && log[i - 1].hash.Some? ==>
                  !Good(h, cut, i) && cut[i] == log[j] && forall k :: 0 <= k < i ==> Good(h, cut, k))
  {
    var cut := log[..i] + log[j..];
    forall k | 0 <= k < |cut| && k != i ensures Good(h, cut, k) {
      if k < i { assert Good(h, log, k); } else { assert Good(h, log, k - i + j); }
    }
    if j < |log| {
      assert Good(h, log, j) && cut[i] == log[j];
      if i > 0 && log[i - 1].hash.Some? {
        ChainedFrom(h, log, i - 1, j);
        assert Good(h, log, j - 1) && Good(h, log, i - 1);
        assert log[i - 1].fields.id < log[j - 1].fields.id;
        assert log[j - 1].hash != log[i - 1].hash;
        assert !Good(h, cut, i);
      } else {
        assert Good(h, cut, i);
      }
    }
  }

  /** After a chained row every row is chained. */
  lemma {:induction false} ChainedFrom(h: HashFn, log: seq<Row>, i: nat, j: nat)
    requires ValidChain(h, log) && i <= j < |log| && log[i].hash.Some?
    ensures forall k :: i <= k <= j ==> log[k].hash.Some?
    decreases j - i
  {
    if i < j {
      assert Good(h, log, i + 1);
      ChainedFrom(h, log, i + 1, j);
    }
  }

  function Rehashed(h: HashFn, row: Row, fields: Fields): Row {
    row.(fields := fields, hash := Some(h(fields, if row.prevHash.Some? then row.prevHash.value else GENESIS)))
  }

  /** Changing the fields of a chained row in place fails at that row; also rewriting its hash fails at the next. */
  lemma TamperDetected(h: HashFn, log: seq<Row>, i: nat, fields: Fields)
    requires Injective(h) && ValidChain(h, log) && i < |log| && log[i].hash.Some? && fields != log[i].fields
    ensures var edited := log[i := log[i].(fields := fields)];
            !Good(h, edited, i) && forall k :: 0 <= k < i ==> Good(h, edited, k)
    ensures var rehashed := log[i := Rehashed(h, log[i], fields)];
            i + 1 < |log| ==> !Good(h, rehashed, i + 1) && forall k :: 0 <= k <= i ==> Good(h, rehashed, k)
  {
    assert Good(h, log, i);
    var edited := log[i := log[i].(fields := fields)];
    var rehashed := log[i := Rehashed(h, log[i], fields)];
    forall k | 0 <= k < i ensures Good(h, edited, k) && Good(h, rehashed, k) { assert Good(h, log, k); }
    if i + 1 < |log| {
      assert Good(h, log, i + 1);
      assert Good(h, rehashed, i);
    }
  }
}
