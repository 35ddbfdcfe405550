/** Ordered enumeration of finite sets and stable sorting: the iteration orders
    that ordered maps and `sort_by` give the stages. */
module Ordering {

  ghost predicate IsLeast(s: set<nat>, m: nat) {
    m in s && forall x :: x in s ==> m <= x
  }

  lemma {:induction false} LeastExists(s: set<nat>)
    requires s != {}
    ensures exists m :: IsLeast(s, m)
  {
    var y :| y in s;
    if s == {y} {
      assert IsLeast(s, y);
    } else {
      var rest := s - {y};
      LeastExists(rest);
      var m :| IsLeast(rest, m);
      assert forall x :: x in s ==> x == y || x in rest;
      assert IsLeast(s, if y <= m then y else m);
    }
  }

  predicate Ascending(s: seq<nat>) {
    forall i, j :: 0 <= i < j < |s| ==> s[i] < s[j]
  }

  function Least(s: set<nat>): (m: nat)
    requires s != {}
    ensures m in s && forall x :: x in s ==> m <= x
  {
    assert exists m :: m in s && forall x :: x in s ==> m <= x by {
      LeastExists(s);
      var m :| IsLeast(s, m);
    }
    var m :| m in s && forall x :: x in s ==> m <= x;
    m
  }

  lemma PrependLeast(m: nat, rest: seq<nat>)
    requires Ascending(rest) && forall x :: x in rest ==> m < x
    ensures Ascending([m] + rest)
  {
    var s := [m] + rest;
    forall i, j | 0 <= i < j < |s|
      ensures s[i] < s[j]
    {
      assert s[j] == rest[j - 1] && rest[j - 1] in rest;
      if i > 0 {
        assert s[i] == rest[i - 1];
      }
    }
  }

  /** The keys of an ordered map, in its iteration order. */
  function SortedKeys(s: set<nat>): (r: seq<nat>)
    ensures Ascending(r)
    ensures forall x :: x in r <==> x in s
  {
    if s == {} then [] else
      var m := Least(s);
      var rest := SortedKeys(s - {m});
      PrependLeast(m, rest);
      [m] + rest
  }

  // Stable insertion sort, the order `sort_by` produces.

  function InsertBy<T>(le: (T, T) -> bool, s: seq<T>, x: T): seq<T> {
    if s == [] then [x]
    else if le(s[|s| - 1], x) then s + [x]
    else InsertBy(le, s[..|s| - 1], x) + [s[|s| - 1]]
  }

  function SortBy<T>(le: (T, T) -> bool, s: seq<T>): seq<T> {
    if s == [] then [] else InsertBy(le, SortBy(le, s[..|s| - 1]), s[|s| - 1])
  }

  lemma {:induction false} InsertPermutes<T>(le: (T, T) -> bool, s: seq<T>, x: T)
    ensures multiset(InsertBy(le, s, x)) == multiset(s) + multiset{x}
  {
    if s != [] && !le(s[|s| - 1], x) {
      assert s == s[..|s| - 1] + [s[|s| - 1]];
      InsertPermutes(le, s[..|s| - 1], x);
    }
  }

  lemma {:induction false} SortPermutes<T>(le: (T, T) -> bool, s: seq<T>)
    ensures multiset(SortBy(le, s)) == multiset(s)
    ensures |SortBy(le, s)| == |s|
    ensures forall x :: x in SortBy(le, s) <==> x in s
  {
    if s != [] {
      assert s == s[..|s| - 1] + [s[|s| - 1]];
      SortPermutes(le, s[..|s| - 1]);
      InsertPermutes(le, SortBy(le, s[..|s| - 1]), s[|s| - 1]);
    }
    SameMembers(SortBy(le, s), s);
  }

  ghost predicate TotalPreorderOn<T(!new)>(le: (T, T) -> bool, s: seq<T>) {
    && (forall x, y :: x in s && y in s ==> le(x, y) || le(y, x))
    && (forall x, y, z :: x in s && y in s && z in s && le(x, y) && le(y, z) ==> le(x, z))
  }

  ghost predicate TotalOrderOn<T(!new)>(le: (T, T) -> bool, s: seq<T>) {
    && TotalPreorderOn(le, s)
    && (forall x, y :: x in s && y in s && le(x, y) && le(y, x) ==> x == y)
  }

  ghost predicate SortedBy<T>(le: (T, T) -> bool, s: seq<T>) {
    forall i, j :: 0 <= i < j < |s| ==> le(s[i], s[j])
  }

  lemma PreorderOnSubset<T(!new)>(le: (T, T) -> bool, s: seq<T>, t: seq<T>)
    requires TotalPreorderOn(le, s)
    requires forall x :: x in t ==> x in s
    ensures TotalPreorderOn(le, t)
  {
  }

  lemma OrderOnSubset<T(!new)>(le: (T, T) -> bool, s: seq<T>, t: seq<T>)
    requires TotalOrderOn(le, s)
    requires forall x :: x in t ==> x in s
    ensures TotalOrderOn(le, t)
  {
  }

  /** Everything is below the last element of a sorted sequence. */
  lemma LastIsGreatest<T(!new)>(le: (T, T) -> bool, s: seq<T>, x: T)
    requires s != [] && SortedBy(le, s) && TotalPreorderOn(le, s) && x in s
    ensures le(x, s[|s| - 1])
  {
    var i :| 0 <= i < |s| && s[i] == x;
  }

  lemma {:induction false} InsertSorted<T(!new)>(le: (T, T) -> bool, s: seq<T>, x: T)
    requires SortedBy(le, s)
    requires TotalPreorderOn(le, s + [x])
    ensures SortedBy(le, InsertBy(le, s, x))
  {
    if s != [] {
      var last := s[|s| - 1];
      assert last in s + [x] && x in s + [x];
      PreorderOnSubset(le, s + [x], s);
      if le(last, x) {
        forall y | y in s
          ensures le(y, x)
        {
          LastIsGreatest(le, s, y);
          assert y in s + [x];
        }
      } else {
        var front := s[..|s| - 1];
        PreorderOnSubset(le, s + [x], front + [x]);
        InsertSorted(le, front, x);
        InsertMembers(le, front, x);
        var r := InsertBy(le, front, x);
        forall y | y in r
          ensures le(y, last)
        {
          if y != x {
            LastIsGreatest(le, s, y);
          }
        }
      }
    }
  }

  lemma InsertMembers<T>(le: (T, T) -> bool, s: seq<T>, x: T)
    ensures forall y :: y in InsertBy(le, s, x) <==> y in s || y == x
  {
    InsertPermutes(le, s, x);
    forall y
      ensures y in InsertBy(le, s, x) <==> y in s || y == x
    {
      assert y in InsertBy(le, s, x) <==> y in multiset(InsertBy(le, s, x));
      assert y in s <==> y in multiset(s);
    }
  }

  lemma {:induction false} SortSorts<T(!new)>(le: (T, T) -> bool, s: seq<T>)
    requires TotalPreorderOn(le, s)
    ensures SortedBy(le, SortBy(le, s))
  {
    if s != [] {
      var front, last := s[..|s| - 1], s[|s| - 1];
      SortPermutes(le, front);
      PreorderOnSubset(le, s, front);
      SortSorts(le, front);
      PreorderOnSubset(le, s, SortBy(le, front) + [last]);
      InsertSorted(le, SortBy(le, front), last);
    }
  }

  lemma SameLast<T(!new)>(le: (T, T) -> bool, a: seq<T>, b: seq<T>)
    requires |a| == |b| > 0 && forall x :: x in a <==> x in b
    requires SortedBy(le, a) && SortedBy(le, b)
    requires TotalOrderOn(le, a)
    ensures a[|a| - 1] == b[|b| - 1]
  {
    OrderOnSubset(le, a, b);
    LastIsGreatest(le, a, b[|b| - 1]);
    LastIsGreatest(le, b, a[|a| - 1]);
  }

  lemma SortedFront<T>(le: (T, T) -> bool, a: seq<T>)
    requires a != [] && SortedBy(le, a)
    ensures SortedBy(le, a[..|a| - 1])
  {
  }

  lemma {:induction false} SortedUnique<T(!new)>(le: (T, T) -> bool, a: seq<T>, b: seq<T>)
    requires multiset(a) == multiset(b)
    requires SortedBy(le, a) && SortedBy(le, b)
    requires TotalOrderOn(le, a)
    ensures a == b
  {
    SameMembers(a, b);
    if a != [] {
      SameLast(le, a, b);
      var fa, fb := a[..|a| - 1], b[..|b| - 1];
      assert multiset(fa) == multiset(fb) by {
        FrontMultiset(a);
        FrontMultiset(b);
      }
      assert SortedBy(le, fa) && SortedBy(le, fb) by {
        SortedFront(le, a);
        SortedFront(le, b);
      }
      assert TotalOrderOn(le, fa) by {
        OrderOnSubset(le, a, fa);
      }
      SortedUnique(le, fa, fb);
      assert a == fa + [a[|a| - 1]] && b == fb + [b[|b| - 1]];
    }
  }

  lemma FrontMultiset<T>(a: seq<T>)
    requires a != []
    ensures multiset(a[..|a| - 1]) == multiset(a) - multiset{a[|a| - 1]}
  {
    assert a == a[..|a| - 1] + [a[|a| - 1]];
  }

  lemma SameMembers<T>(a: seq<T>, b: seq<T>)
    requires multiset(a) == multiset(b)
    ensures |a| == |b|
    ensures forall x :: x in a <==> x in b
  {
    assert |multiset(a)| == |a| && |multiset(b)| == |b|;
    forall x
      ensures x in a <==> x in b
    {
      assert x in a <==> x in multiset(a);
      assert x in b <==> x in multiset(b);
    }
  }

  /** Sorting by a total order forgets the order of the input. */
  lemma SortForgetsOrder<T(!new)>(le: (T, T) -> bool, a: seq<T>, b: seq<T>)
    requires multiset(a) == multiset(b)
    requires TotalOrderOn(le, a)
    ensures SortBy(le, a) == SortBy(le, b)
  {
    SortPermutes(le, a);
    SortPermutes(le, b);
    SameMembers(a, b);
    OrderOnSubset(le, a, b);
    SortSorts(le, a);
    SortSorts(le, b);
    OrderOnSubset(le, a, SortBy(le, a));
    SortedUnique(le, SortBy(le, a), SortBy(le, b));
  }

  /** A stable sort by a key puts first the earliest element with the least key. */
  lemma {:induction false} SortHead<T(!new)>(le: (T, T) -> bool, s: seq<T>, k: nat)
    requires k < |s| && TotalPreorderOn(le, s)
    requires forall i | 0 <= i < |s| :: le(s[k], s[i])
    requires forall i | 0 <= i < k :: !le(s[i], s[k])
    ensures SortBy(le, s) != [] && SortBy(le, s)[0] == s[k]
  {
    var front, last := s[..|s| - 1], s[|s| - 1];
    var sorted := SortBy(le, front);
    SortPermutes(le, front);
    PreorderOnSubset(le, s, front);
    SortSorts(le, front);
    PreorderOnSubset(le, s, sorted + [last]);
    if k < |front| {
      assert front[k] == s[k];
      forall i | 0 <= i < |front|
        ensures le(front[k], front[i])
      {
        assert front[i] == s[i];
      }
      SortHead(le, front, k);
      InsertKeepsHead(le, sorted, last);
    } else {
      forall y | y in sorted
        ensures !le(y, last)
      {
        assert y in front;
        var i :| 0 <= i < |front| && front[i] == y;
        assert !le(s[i], s[k]);
      }
      InsertBeforeAll(le, sorted, last);
    }
  }

  lemma {:induction false} InsertKeepsHead<T>(le: (T, T) -> bool, s: seq<T>, x: T)
    requires s != [] && le(s[0], x)
    ensures InsertBy(le, s, x) != [] && InsertBy(le, s, x)[0] == s[0]
  {
    if !le(s[|s| - 1], x) {
      InsertKeepsHead(le, s[..|s| - 1], x);
    }
  }

  lemma {:induction false} InsertBeforeAll<T(!new)>(le: (T, T) -> bool, s: seq<T>, x: T)
    requires forall y | y in s :: !le(y, x)
    ensures InsertBy(le, s, x) == [x] + s
  {
    if s != [] {
      InsertBeforeAll(le, s[..|s| - 1], x);
      assert s == s[..|s| - 1] + [s[|s| - 1]];
    }
  }
}
