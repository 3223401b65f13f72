/** Strictly sorted sequences: each element set has only one. */
module SortedSeqs {
  ghost predicate StrictOrder<T(!new)>(less: (T, T) -> bool) {
    && (forall x :: !less(x, x))
    && (forall x, y, z :: less(x, y) && less(y, z) ==> less(x, z))
  }

  ghost predicate Sorted<T>(s: seq<T>, less: (T, T) -> bool) {
    forall i, j :: 0 <= i < j < |s| ==> less(s[i], s[j])
  }

  lemma {:induction false} SortedIsUnique<T(!new)>(a: seq<T>, b: seq<T>, less: (T, T) -> bool)
    requires StrictOrder(less) && Sorted(a, less) && Sorted(b, less)
    requires forall x :: x in a <==> x in b
    ensures a == b
  {
    assert |a| > 0 ==> a[0] in b;
    assert |b| > 0 ==> b[0] in a;
    if |a| > 0 {
      SameHead(a, b, less);
      forall x ensures x in a[1..] <==> x in b[1..] {
        TailMembers(a, less, x);
        TailMembers(b, less, x);
      }
      SortedIsUnique(a[1..], b[1..], less);
      assert a == [a[0]] + a[1..] && b == [b[0]] + b[1..];
    }
  }

  lemma SameHead<T(!new)>(a: seq<T>, b: seq<T>, less: (T, T) -> bool)
    requires StrictOrder(less) && Sorted(a, less) && Sorted(b, less) && |a| > 0 && |b| > 0
    requires forall x :: x in a <==> x in b
    ensures a[0] == b[0]
  {
    assert a[0] in b && b[0] in a;
    HeadIsLeast(a, less, b[0]);
    HeadIsLeast(b, less, a[0]);
  }

  lemma HeadIsLeast<T(!new)>(s: seq<T>, less: (T, T) -> bool, x: T)
    requires Sorted(s, less) && x in s
    ensures x == s[0] || less(s[0], x)
  {
    var i :| 0 <= i < |s| && s[i] == x;
  }

  lemma TailMembers<T(!new)>(s: seq<T>, less: (T, T) -> bool, x: T)
    requires StrictOrder(less) && Sorted(s, less) && |s| > 0
    ensures x in s[1..] <==> x in s && x != s[0]
  {
    if x in s[1..] {
      var i :| 0 <= i < |s[1..]| && s[1..][i] == x;
      assert less(s[0], s[i + 1]);
    }
    if x in s && x != s[0] {
      var i :| 0 <= i < |s| && s[i] == x;
      assert s[1..][i - 1] == x;
    }
  }
}
