/**
 * sort.Strings: Go orders strings byte-wise, which for UTF-8 is the order of the
 * code points, i.e. the lexicographic order of Dafny's characters.
 */
module Sorting {

  /** a <= b in Go's string order. */
  predicate Below(a: string, b: string)
    decreases |a|
  {
    |a| == 0 || (|b| > 0 && (a[0] < b[0] || (a[0] == b[0] && Below(a[1..], b[1..]))))
  }

  lemma {:induction false} BelowTotal(a: string, b: string)
    ensures Below(a, b) || Below(b, a)
    decreases |a|
  {
    if |a| > 0 && |b| > 0 && a[0] == b[0] {
      BelowTotal(a[1..], b[1..]);
    }
  }

  lemma {:induction false} BelowTransitive(a: string, b: string, c: string)
    requires Below(a, b) && Below(b, c)
    ensures Below(a, c)
    decreases |a|
  {
    if |a| > 0 && a[0] == b[0] && b[0] == c[0] {
      BelowTransitive(a[1..], b[1..], c[1..]);
    }
  }

  lemma {:induction false} BelowAntisymmetric(a: string, b: string)
    requires Below(a, b) && Below(b, a)
    ensures a == b
    decreases |a|
  {
    if |a| > 0 {
      BelowAntisymmetric(a[1..], b[1..]);
      assert a == [a[0]] + a[1..] && b == [b[0]] + b[1..];
    }
  }

  /** Every element is Below every later one. */
  predicate Sorted(s: seq<string>)
  {
    forall i, j :: 0 <= i < j < |s| ==> Below(s[i], s[j])
  }

  /** x inserted into a sorted sequence before the first element it is Below. */
  function Insert(x: string, s: seq<string>): (r: seq<string>)
    requires Sorted(s)
    ensures Sorted(r) && multiset(r) == multiset(s) + multiset{x}
  {
    if |s| == 0 then [x]
    else if Below(x, s[0]) then
      BelowAllOfSorted(x, s);
      FirstIsLeast(x, s);
      [x] + s
    else
      BelowTotal(x, s[0]);
      var rest := Insert(x, s[1..]);
      assert s == [s[0]] + s[1..];
      FirstIsLeast(s[0], rest);
      [s[0]] + rest
  }

  /** A sorted sequence stays sorted with an element in front that is Below all of it. */
  lemma FirstIsLeast(x: string, s: seq<string>)
    requires Sorted(s)
    requires forall y :: y in multiset(s) ==> Below(x, y)
    ensures Sorted([x] + s)
  {
    forall i, j | 0 <= i < j < |[x] + s| ensures Below(([x] + s)[i], ([x] + s)[j]) {
      if i == 0 {
        assert s[j - 1] in multiset(s);
      }
    }
  }

  /** Being Below the first element of a sorted sequence means being Below all of it. */
  lemma BelowAllOfSorted(x: string, s: seq<string>)
    requires Sorted(s) && |s| > 0 && Below(x, s[0])
    ensures forall y :: y in multiset(s) ==> Below(x, y)
  {
    forall y | y in multiset(s) ensures Below(x, y) {
      var k :| 0 <= k < |s| && s[k] == y;
      if k > 0 {
        BelowTransitive(x, s[0], y);
      }
    }
  }

  /** sort.Strings: the sorted permutation of s (insertion sort; every sort yields the same result). */
  method SortStrings(s: seq<string>) returns (r: seq<string>)
    ensures Sorted(r) && multiset(r) == multiset(s)
  {
    r := [];
    var i := 0;
    while i < |s|
      invariant 0 <= i <= |s|
      invariant Sorted(r) && multiset(r) == multiset(s[..i])
    {
      assert s[..i + 1] == s[..i] + [s[i]];
      r := Insert(s[i], r);
      i := i + 1;
    }
    assert s[..i] == s;
  }

  /** Sorting has one outcome: two sorted permutations of the same strings are equal. */
  lemma {:induction false} SortedUnique(a: seq<string>, b: seq<string>)
    requires Sorted(a) && Sorted(b) && multiset(a) == multiset(b)
    ensures a == b
  {
    if |a| > 0 {
      assert |b| == |multiset(b)| == |multiset(a)| == |a|;
      SameHead(a, b);
      DropHead(a);
      DropHead(b);
      assert Sorted(a[1..]) && Sorted(b[1..]);
      SortedUnique(a[1..], b[1..]);
      assert a == [a[0]] + a[1..] && b == [b[0]] + b[1..];
    }
  }

  /** The first element of a sorted sequence is its least. */
  lemma SameHead(a: seq<string>, b: seq<string>)
    requires Sorted(a) && Sorted(b) && multiset(a) == multiset(b) && |a| > 0 && |b| > 0
    ensures a[0] == b[0]
  {
    assert a[0] in multiset(b);
    var i :| 0 <= i < |b| && b[i] == a[0];
    assert b[0] in multiset(a);
    var j :| 0 <= j < |a| && a[j] == b[0];
    if i == 0 {
      return;
    }
    assert Below(b[0], a[0]);
    if j == 0 {
      return;
    }
    assert Below(a[0], b[0]);
    BelowAntisymmetric(a[0], b[0]);
  }

  lemma DropHead(a: seq<string>)
    requires |a| > 0
    ensures multiset(a[1..]) == multiset(a) - multiset{a[0]}
  {
    assert a == [a[0]] + a[1..];
  }
}
