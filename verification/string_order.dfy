/**
 * The ordering Rust uses for `String` (`Ord for str`): lexicographic order on
 * the UTF-8 bytes, which coincides with lexicographic order on code points, a
 * proper prefix sorting first.  `Vec<String>::sort` is modelled by an insertion
 * sort over that order, and the sorted result is shown to be unique.
 */
module StringOrder {

  /** `a <= b` in Rust's string order. */
  predicate Le(a: string, b: string)
    decreases |a|
  {
    |a| == 0 || (|b| > 0 && (a[0] < b[0] || (a[0] == b[0] && Le(a[1..], b[1..]))))
  }

  lemma {:induction false} LeReflexive(a: string)
    ensures Le(a, a)
    decreases |a|
  {
    if |a| > 0 {
      LeReflexive(a[1..]);
    }
  }

  lemma {:induction false} LeTotal(a: string, b: string)
    ensures Le(a, b) || Le(b, a)
    decreases |a|
  {
    if |a| > 0 && |b| > 0 && a[0] == b[0] {
      LeTotal(a[1..], b[1..]);
    }
  }

  lemma {:induction false} LeAntisymmetric(a: string, b: string)
    requires Le(a, b) && Le(b, a)
    ensures a == b
    decreases |a|
  {
    if |a| > 0 {
      LeAntisymmetric(a[1..], b[1..]);
      assert a == [a[0]] + a[1..];
      assert b == [b[0]] + b[1..];
    }
  }

  lemma {:induction false} LeTransitive(a: string, b: string, c: string)
    requires Le(a, b) && Le(b, c)
    ensures Le(a, c)
    decreases |a|
  {
    if |a| > 0 && a[0] == b[0] && b[0] == c[0] {
      LeTransitive(a[1..], b[1..], c[1..]);
    }
  }

  /** Non-decreasing in string order. */
  predicate Sorted(s: seq<string>) {
    forall i, j :: 0 <= i < j < |s| ==> Le(s[i], s[j])
  }

  /** No string occurs twice. */
  predicate Distinct(s: seq<string>) {
    forall i, j :: 0 <= i < j < |s| ==> s[i] != s[j]
  }

  /** Strictly increasing: the canonical listing of a finite set of strings. */
  predicate StrictlySorted(s: seq<string>) {
    Sorted(s) && Distinct(s)
  }

  /** The set of strings listed in `s`. */
  function Elements(s: seq<string>): set<string> {
    set x | x in s
  }

  lemma SortedHeadIsLeast(s: seq<string>, x: string)
    requires Sorted(s) && x in s
    ensures Le(s[0], x)
  {
    var k :| 0 <= k < |s| && s[k] == x;
    if k == 0 {
      LeReflexive(x);
    }
  }

  /** Putting a lower bound of a sorted sequence in front keeps it sorted. */
  lemma PrependLowerBound(h: string, t: seq<string>)
    requires Sorted(t)
    requires forall y :: y in t ==> Le(h, y)
    ensures Sorted([h] + t)
  {
    var s := [h] + t;
    forall i, j | 0 <= i < j < |s|
      ensures Le(s[i], s[j])
    {
      if i > 0 {
        assert s[i] == t[i - 1] && s[j] == t[j - 1];
      } else {
        assert s[j] == t[j - 1];
      }
    }
  }

  lemma PrependBelowHead(x: string, s: seq<string>)
    requires Sorted(s) && |s| > 0 && Le(x, s[0])
    ensures Sorted([x] + s)
  {
    forall y | y in s
      ensures Le(x, y)
    {
      SortedHeadIsLeast(s, y);
      LeTransitive(x, s[0], y);
    }
    PrependLowerBound(x, s);
  }

  lemma SortedTail(s: seq<string>)
    requires Sorted(s) && |s| > 0
    ensures Sorted(s[1..])
  {
    forall i, j | 0 <= i < j < |s| - 1
      ensures Le(s[1..][i], s[1..][j])
    {
      assert s[1..][i] == s[i + 1] && s[1..][j] == s[j + 1];
    }
  }

  /** Inserts `x` into the sorted sequence `s` in front of the first element it does not exceed. */
  function Insert(x: string, s: seq<string>): (r: seq<string>)
    requires Sorted(s)
    ensures Sorted(r)
    ensures multiset(r) == multiset(s) + multiset{x}
    decreases |s|
  {
    if |s| == 0 then
      [x]
    else if Le(x, s[0]) then
      PrependBelowHead(x, s);
      [x] + s
    else
      SortedTail(s);
      var rest := Insert(x, s[1..]);
      InsertStep(x, s, rest);
      [s[0]] + rest
  }

  lemma InsertStep(x: string, s: seq<string>, rest: seq<string>)
    requires Sorted(s) && |s| > 0 && !Le(x, s[0])
    requires Sorted(rest) && multiset(rest) == multiset(s[1..]) + multiset{x}
    ensures Sorted([s[0]] + rest)
    ensures multiset([s[0]] + rest) == multiset(s) + multiset{x}
  {
    assert s == [s[0]] + s[1..];
    LeTotal(x, s[0]);
    forall y | y in rest
      ensures Le(s[0], y)
    {
      assert y in multiset(rest);
      if y != x {
        assert y in s[1..];
        SortedHeadIsLeast(s, y);
      }
    }
    PrependLowerBound(s[0], rest);
  }

  /** `Vec<String>::sort`: the sorted permutation of `s`. */
  function Sort(s: seq<string>): (r: seq<string>)
    ensures Sorted(r)
    ensures multiset(r) == multiset(s)
    decreases |s|
  {
    if |s| == 0 then
      []
    else
      assert s == [s[0]] + s[1..];
      Insert(s[0], Sort(s[1..]))
  }

  /** Two sorted sequences holding the same strings, counted with multiplicity, are equal. */
  lemma {:induction false} SortedUnique(a: seq<string>, b: seq<string>)
    requires Sorted(a) && Sorted(b)
    requires multiset(a) == multiset(b)
    ensures a == b
    decreases |a|
  {
    if |a| == 0 {
      assert |multiset(b)| == 0;
    } else {
      assert |b| == |multiset(b)| == |multiset(a)| == |a|;
      assert a[0] in multiset(b) && b[0] in multiset(a);
      SortedHeadIsLeast(b, a[0]);
      SortedHeadIsLeast(a, b[0]);
      LeAntisymmetric(a[0], b[0]);
      assert a == [a[0]] + a[1..];
      assert b == [b[0]] + b[1..];
      assert multiset(a) == multiset{a[0]} + multiset(a[1..]);
      assert multiset(b) == multiset{b[0]} + multiset(b[1..]);
      assert multiset(a[1..]) == multiset(b[1..]) by {
        forall y
          ensures multiset(a[1..])[y] == multiset(b[1..])[y]
        {
          assert multiset(a)[y] == multiset{a[0]}[y] + multiset(a[1..])[y];
          assert multiset(b)[y] == multiset{b[0]}[y] + multiset(b[1..])[y];
        }
      }
      SortedTail(a);
      SortedTail(b);
      SortedUnique(a[1..], b[1..]);
    }
  }

  /** Sorting forgets the input order: only the multiset of the input matters. */
  lemma SortDependsOnlyOnMultiset(a: seq<string>, b: seq<string>)
    requires multiset(a) == multiset(b)
    ensures Sort(a) == Sort(b)
  {
    SortedUnique(Sort(a), Sort(b));
  }

  /** Sorting a sequence that is already sorted changes nothing. */
  lemma SortOfSorted(s: seq<string>)
    requires Sorted(s)
    ensures Sort(s) == s
  {
    SortedUnique(Sort(s), s);
  }

  lemma {:induction false} DistinctCounts(s: seq<string>, y: string)
    requires Distinct(s)
    ensures multiset(s)[y] <= 1
    decreases |s|
  {
    if |s| > 0 {
      assert s == [s[0]] + s[1..];
      assert Distinct(s[1..]) by {
        forall i, j | 0 <= i < j < |s| - 1
          ensures s[1..][i] != s[1..][j]
        {
          assert s[1..][i] == s[i + 1] && s[1..][j] == s[j + 1];
        }
      }
      DistinctCounts(s[1..], y);
      if y == s[0] {
        assert y !in s[1..];
      }
    }
  }

  lemma CountsDistinct(s: seq<string>)
    requires forall y :: multiset(s)[y] <= 1
    ensures Distinct(s)
  {
    forall i, j | 0 <= i < j < |s|
      ensures s[i] != s[j]
    {
      var y := s[i];
      assert s == s[..j] + [s[j]] + s[j + 1..];
      assert multiset(s) == multiset(s[..j]) + multiset{s[j]} + multiset(s[j + 1..]);
      assert y in s[..j];
      assert multiset(s[..j])[y] >= 1;
      assert multiset(s)[y] <= 1;
      assert multiset(s)[y] == multiset(s[..j])[y] + multiset{s[j]}[y] + multiset(s[j + 1..])[y];
      assert multiset{s[j]}[y] == 0;
    }
  }

  /** Inserting a new string into a strictly sorted listing yields the listing of the larger set. */
  lemma InsertNew(x: string, s: seq<string>)
    requires StrictlySorted(s) && x !in s
    ensures StrictlySorted(Insert(x, s))
    ensures Elements(Insert(x, s)) == Elements(s) + {x}
  {
    var r := Insert(x, s);
    forall y
      ensures multiset(r)[y] <= 1
    {
      DistinctCounts(s, y);
      if y == x {
        assert x !in multiset(s);
      }
    }
    CountsDistinct(r);
    forall y
      ensures y in r <==> y in s || y == x
    {
      assert y in r <==> y in multiset(r);
      assert y in s <==> y in multiset(s);
    }
  }

  /** A finite set of strings has exactly one strictly sorted listing. */
  lemma {:induction false} StrictlySortedUnique(a: seq<string>, b: seq<string>)
    requires StrictlySorted(a) && StrictlySorted(b)
    requires Elements(a) == Elements(b)
    ensures a == b
    decreases |a|
  {
    if |a| > 0 {
      assert a[0] in Elements(b);
      assert |b| > 0;
      assert b[0] in Elements(a);
      SortedHeadIsLeast(b, a[0]);
      SortedHeadIsLeast(a, b[0]);
      LeAntisymmetric(a[0], b[0]);
      StrictlySortedTail(a);
      StrictlySortedTail(b);
      assert Elements(a[1..]) == Elements(b[1..]) by {
        forall y
          ensures y in a[1..] <==> y in b[1..]
        {
          assert y in a <==> y in b by {
            assert y in a <==> y in Elements(a);
            assert y in b <==> y in Elements(b);
          }
          assert y in a[1..] <==> y in a && y != a[0] by {
            HeadNotInTail(a, y);
          }
          assert y in b[1..] <==> y in b && y != b[0] by {
            HeadNotInTail(b, y);
          }
        }
      }
      StrictlySortedUnique(a[1..], b[1..]);
      assert a == [a[0]] + a[1..];
      assert b == [b[0]] + b[1..];
    } else {
      NoElements(a);
      NoElements(b);
    }
  }

  lemma NoElements(s: seq<string>)
    ensures Elements(s) == {} <==> |s| == 0
  {
    if |s| > 0 {
      assert s[0] in Elements(s);
    }
  }

  lemma HeadNotInTail(s: seq<string>, y: string)
    requires Distinct(s) && |s| > 0
    ensures y in s[1..] <==> y in s && y != s[0]
  {
    assert s == [s[0]] + s[1..];
    if y in s[1..] {
      var k :| 0 <= k < |s| - 1 && s[1..][k] == y;
      assert s[k + 1] == y;
    }
  }

  lemma StrictlySortedTail(s: seq<string>)
    requires StrictlySorted(s) && |s| > 0
    ensures StrictlySorted(s[1..])
  {
    SortedTail(s);
    forall i, j | 0 <= i < j < |s| - 1
      ensures s[1..][i] != s[1..][j]
    {
      assert s[1..][i] == s[i + 1] && s[1..][j] == s[j + 1];
    }
  }
}
