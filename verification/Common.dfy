/** Shared vocabulary: optional values and facts about duplicate-free sequences. */
module Common {
  datatype Option<+T> = None | Some(value: T)

  predicate NoDup<T(==)>(s: seq<T>) {
    forall i, j :: 0 <= i < j < |s| ==> s[i] != s[j]
  }

  function Elems<T>(s: seq<T>): set<T> {
    set x | x in s
  }

  lemma {:induction false} NoDupCardinality<T>(s: seq<T>)
    requires NoDup(s)
    ensures |Elems(s)| == |s|
  {
    if s == [] {
    } else {
      NoDupCardinality(s[1..]);
      assert Elems(s) == Elems(s[1..]) + {s[0]};
    }
  }

  lemma NoDupSnoc<T>(s: seq<T>, x: T)
    requires NoDup(s) && x !in s
    ensures NoDup(s + [x])
  {
  }

  lemma SetCardinalitySum<T>(a: set<T>, b: set<T>, u: set<T>)
    requires a !! b && a <= u && b <= u
    ensures |a| + |b| == |u| <==> a + b == u
  {
    assert |a + b| == |a| + |b|;
    if |a| + |b| == |u| && a + b != u {
      var x :| x in u && x !in a + b;
      SubsetCardinality(a + b, u - {x});
    }
  }

  lemma {:induction false} SubsetCardinality<T>(a: set<T>, b: set<T>)
    requires a <= b
    ensures |a| <= |b|
  {
    if a == {} {
    } else {
      var x :| x in a;
      SubsetCardinality(a - {x}, b - {x});
    }
  }
}
