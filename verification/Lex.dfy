/** The order of strings, and sorting key-value pairs by key. */
module Lex {
  import opened Common

  predicate Le(a: string, b: string) {
    a == [] || (b != [] && (a[0] < b[0] || (a[0] == b[0] && Le(a[1..], b[1..]))))
  }

  predicate Lt(a: string, b: string) { Le(a, b) && a != b }

  lemma {:induction false} LeTotal(a: string, b: string)
    ensures Le(a, b) || Le(b, a)
  {
    if a != [] && b != [] && a[0] == b[0] { LeTotal(a[1..], b[1..]); }
  }

  lemma {:induction false} LeAntisymmetric(a: string, b: string)
    requires Le(a, b) && Le(b, a)
    ensures a == b
  {
    if a != [] && b != [] {
      LeAntisymmetric(a[1..], b[1..]);
      assert a == [a[0]] + a[1..] && b == [b[0]] + b[1..];
    }
  }

  lemma {:induction false} LeTransitive(a: string, b: string, c: string)
    requires Le(a, b) && Le(b, c)
    ensures Le(a, c)
  {
    if a != [] && a[0] == b[0] && b[0] == c[0] { LeTransitive(a[1..], b[1..], c[1..]); }
  }

  lemma LtTransitive(a: string, b: string, c: string)
    requires Le(a, b) && Lt(b, c)
    ensures Lt(a, c)
  {
    LeTransitive(a, b, c);
    if a == c { LeAntisymmetric(a, b); }
  }

  /** The first difference of the two strings is at `k`, and there the first one is smaller. */
  predicate SmallerAt(a: string, b: string, k: int) { 0 <= k < |a| && k < |b| && a[..k] == b[..k] && a[k] < b[k] }

  lemma SmallerTail(a: string, b: string, k: int)
    requires a != [] && b != [] && a[0] == b[0]
    ensures SmallerAt(a, b, k + 1) <==> SmallerAt(a[1..], b[1..], k)
    ensures !SmallerAt(a, b, 0) && (a <= b <==> a[1..] <= b[1..])
  {
    assert a == [a[0]] + a[1..] && b == [b[0]] + b[1..];
    if 0 <= k < |a| - 1 && k < |b| - 1 {
      assert a[..k + 1] == [a[0]] + a[1..][..k] && b[..k + 1] == [b[0]] + b[1..][..k];
      assert a[1..][..k] == a[..k + 1][1..] && b[1..][..k] == b[..k + 1][1..];
    }
  }

  /** One string precedes another if it is a prefix of it, or smaller at the first character where they differ. */
  lemma {:induction false} LeIs(a: string, b: string)
    ensures Le(a, b) <==> a <= b || exists k :: SmallerAt(a, b, k)
  {
    if a != [] && b != [] {
      if a[0] == b[0] {
        LeIs(a[1..], b[1..]);
        forall k ensures SmallerAt(a, b, k + 1) <==> SmallerAt(a[1..], b[1..], k) { SmallerTail(a, b, k); }
        SmallerTail(a, b, 0);
        hide SmallerAt;
        if k :| SmallerAt(a, b, k) {
          assert SmallerAt(a, b, (k - 1) + 1);
          assert SmallerAt(a[1..], b[1..], k - 1);
        }
        if k :| SmallerAt(a[1..], b[1..], k) { assert SmallerAt(a, b, k + 1); }
      } else if a[0] < b[0] {
        assert SmallerAt(a, b, 0);
      } else {
        forall k ensures !SmallerAt(a, b, k) {
          if 0 < k < |a| && k < |b| { assert a[..k][0] != b[..k][0]; }
        }
      }
    }
  }

  datatype Pair<T> = Pair(key: string, value: T)

  predicate SortedByKey<T>(s: seq<Pair<T>>) { forall i, j :: 0 <= i < j < |s| ==> Lt(s[i].key, s[j].key) }

  predicate DistinctKeys<T>(s: seq<Pair<T>>) { forall i, j :: 0 <= i < j < |s| ==> s[i].key != s[j].key }

  function Insert<T>(p: Pair<T>, s: seq<Pair<T>>): seq<Pair<T>> {
    if s == [] then [p]
    else if Le(p.key, s[0].key) then [p] + s
    else [s[0]] + Insert(p, s[1..])
  }

  function Sort<T>(s: seq<Pair<T>>): seq<Pair<T>> {
    if s == [] then [] else Insert(s[0], Sort(s[1..]))
  }

  lemma {:induction false} InsertElems<T(!new)>(p: Pair<T>, s: seq<Pair<T>>)
    ensures forall q :: q in Insert(p, s) <==> q == p || q in s
    ensures |Insert(p, s)| == |s| + 1
  {
    if s != [] {
      assert forall q :: q in s <==> q == s[0] || q in s[1..];
      InsertElems(p, s[1..]);
      assert forall q :: q in Insert(p, s) && !Le(p.key, s[0].key) ==> q == s[0] || q in Insert(p, s[1..]);
    }
  }

  lemma TailLater<T>(s: seq<Pair<T>>, q: Pair<T>)
    requires SortedByKey(s) && s != [] && q in s[1..]
    ensures Lt(s[0].key, q.key)
  {
  }

  lemma TailDiffers<T>(s: seq<Pair<T>>, q: Pair<T>)
    requires DistinctKeys(s) && s != [] && q in s[1..]
    ensures q.key != s[0].key
  {
  }

  lemma {:induction false} InsertSorted<T(!new)>(p: Pair<T>, s: seq<Pair<T>>)
    requires SortedByKey(s) && forall q :: q in s ==> q.key != p.key
    ensures SortedByKey(Insert(p, s))
  {
    if s != [] {
      LeTotal(p.key, s[0].key);
      if Le(p.key, s[0].key) {
        forall j | 0 <= j < |s| ensures Lt(p.key, s[j].key) {
          assert s[j] in s;
          if j > 0 { LeTransitive(p.key, s[0].key, s[j].key); }
        }
      } else {
        InsertSorted(p, s[1..]);
        InsertElems(p, s[1..]);
        var t := Insert(p, s[1..]);
        assert s[0] in s;
        forall j | 0 <= j < |t| ensures Lt(s[0].key, t[j].key) {
          assert t[j] in t;
          if t[j] != p {
            assert t[j] in Insert(p, s[1..]);
            TailLater(s, t[j]);
          }
        }
      }
    }
  }

  ghost predicate SameElems<T(!new)>(a: seq<Pair<T>>, b: seq<Pair<T>>) { forall q :: q in a <==> q in b }

  /** Sorting rearranges, and puts distinct keys in strict order. */
  lemma {:induction false} SortSorts<T(!new)>(s: seq<Pair<T>>)
    requires DistinctKeys(s)
    ensures SortedByKey(Sort(s)) && |Sort(s)| == |s| && SameElems(Sort(s), s)
  {
    if s != [] {
      var rest := Sort(s[1..]);
      SortSorts(s[1..]);
      assert SameElems(rest, s[1..]);
      InsertElems(s[0], rest);
      assert forall q :: q in s <==> q == s[0] || q in s[1..];
      forall q | q in rest ensures q.key != s[0].key {
        TailDiffers(s, q);
      }
      InsertSorted(s[0], rest);
    }
  }

  /** A list in strict key order is determined by its elements. */
  lemma {:induction false} SortedUnique<T(!new)>(a: seq<Pair<T>>, b: seq<Pair<T>>)
    requires SortedByKey(a) && SortedByKey(b) && SameElems(a, b)
    ensures a == b
  {
    assert a == [] <==> b == [] by {
      assert a != [] ==> a[0] in b;
      assert b != [] ==> b[0] in a;
    }
    if a != [] {
      assert a[0] in a && b[0] in b;
      var i :| 0 <= i < |b| && b[i] == a[0];
      var j :| 0 <= j < |a| && a[j] == b[0];
      if i > 0 && j > 0 { LeAntisymmetric(a[0].key, b[0].key); }
      assert a[0] == b[0];
      TailElems(a);
      TailElems(b);
      SortedUnique(a[1..], b[1..]);
    }
  }

  lemma TailElems<T(!new)>(a: seq<Pair<T>>)
    requires SortedByKey(a) && a != []
    ensures forall q :: q in a[1..] <==> q in a && q != a[0]
  {
  }

  /** With distinct keys, a pair of the list is known by its key. */
  lemma DistinctByKey<T>(s: seq<Pair<T>>, p: Pair<T>, q: Pair<T>)
    requires DistinctKeys(s) && p in s && q in s && p.key == q.key
    ensures p == q
  {
  }
}
