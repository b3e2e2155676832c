/** Sorting a list by a comparator, as `Array.prototype.sort` does with a
    consistent comparator: the result is ordered and is a permutation of the
    input. The comparator is given as "sorts at or before". */
module Sorting {

  /** `le` is total and transitive, which a comparator built from a number
      difference and a string comparison is. */
  ghost predicate TotalPreorder<T(!new)>(le: (T, T) -> bool)
  {
    && (forall a, b :: TotalAt(le, a, b))
    && (forall a, b, c :: TransitiveAt(le, a, b, c))
  }

  /** The two facts, one instance at a time: a proof names the instance it
      needs, which keeps the solver from chaining transitivity forever. */
  ghost predicate TotalAt<T>(le: (T, T) -> bool, a: T, b: T)
  {
    le(a, b) || le(b, a)
  }

  ghost predicate TransitiveAt<T>(le: (T, T) -> bool, a: T, b: T, c: T)
  {
    le(a, b) && le(b, c) ==> le(a, c)
  }

  predicate SortedBy<T>(s: seq<T>, le: (T, T) -> bool)
  {
    forall i, j :: 0 <= i < j < |s| ==> le(s[i], s[j])
  }

  /** Puts `x` after every element that sorts at or before it, so that equal
      elements keep their order. */
  function Insert<T>(s: seq<T>, x: T, le: (T, T) -> bool): seq<T>
  {
    if |s| == 0 then [x]
    else if le(s[0], x) then [s[0]] + Insert(s[1..], x, le)
    else [x] + s
  }

  lemma {:induction false} InsertPermutes<T>(s: seq<T>, x: T, le: (T, T) -> bool)
    ensures multiset(Insert(s, x, le)) == multiset(s) + multiset{x}
  {
    if |s| > 0 {
      assert s == [s[0]] + s[1..];
      if le(s[0], x) {
        InsertPermutes(s[1..], x, le);
      }
    }
  }

  /** Every element of `Insert(s, x, le)` is `x` or an element of `s`. */
  lemma InsertMember<T>(s: seq<T>, x: T, le: (T, T) -> bool, j: int)
    requires 0 <= j < |Insert(s, x, le)|
    ensures Insert(s, x, le)[j] == x || exists k :: 0 <= k < |s| && s[k] == Insert(s, x, le)[j]
  {
    var t := Insert(s, x, le);
    InsertPermutes(s, x, le);
    assert t[j] in multiset(t);
    if t[j] != x {
      assert t[j] in multiset(s);
    }
  }

  lemma {:induction false} InsertSorted<T(!new)>(s: seq<T>, x: T, le: (T, T) -> bool)
    requires TotalPreorder(le)
    requires SortedBy(s, le)
    ensures SortedBy(Insert(s, x, le), le)
  {
    if |s| > 0 {
      if le(s[0], x) {
        var tail := s[1..];
        assert SortedBy(tail, le) by {
          forall i, j | 0 <= i < j < |tail| ensures le(tail[i], tail[j]) {
            assert tail[i] == s[i + 1] && tail[j] == s[j + 1];
          }
        }
        InsertSorted(tail, x, le);
        var t := Insert(tail, x, le);
        forall j | 0 <= j < |t| ensures le(s[0], t[j]) {
          InsertMember(tail, x, le, j);
          if t[j] != x {
            var k :| 0 <= k < |tail| && tail[k] == t[j];
            assert s[k + 1] == t[j];
          }
        }
        assert Insert(s, x, le) == [s[0]] + t;
      } else {
        assert TotalAt(le, s[0], x);
        forall j | 0 <= j < |s| ensures le(x, s[j]) {
          if j > 0 {
            assert TransitiveAt(le, x, s[0], s[j]);
          }
        }
        assert Insert(s, x, le) == [x] + s;
      }
    }
  }

  /** The list `SortBy` produces: each element inserted in turn. */
  function Sorted<T>(s: seq<T>, le: (T, T) -> bool): seq<T>
  {
    if |s| == 0 then [] else Insert(Sorted(s[..|s| - 1], le), s[|s| - 1], le)
  }

  /** `Sorted` orders by `le` and keeps every element, as often as it occurs. */
  lemma {:induction false} SortedSortsAndPermutes<T(!new)>(s: seq<T>, le: (T, T) -> bool)
    requires TotalPreorder(le)
    ensures SortedBy(Sorted(s, le), le)
    ensures multiset(Sorted(s, le)) == multiset(s)
  {
    if |s| > 0 {
      var init := s[..|s| - 1];
      SortedSortsAndPermutes(init, le);
      InsertSorted(Sorted(init, le), s[|s| - 1], le);
      InsertPermutes(Sorted(init, le), s[|s| - 1], le);
      assert s == init + [s[|s| - 1]];
    }
  }

  /** Insertion sort: ordered by `le`, and a permutation of `s`. */
  method SortBy<T(!new)>(s: seq<T>, le: (T, T) -> bool) returns (r: seq<T>)
    requires TotalPreorder(le)
    ensures r == Sorted(s, le)
    ensures SortedBy(r, le)
    ensures multiset(r) == multiset(s)
  {
    r := [];
    var i := 0;
    while i < |s|
      invariant 0 <= i <= |s|
      invariant r == Sorted(s[..i], le)
    {
      r := Insert(r, s[i], le);
      assert s[..i + 1][..i] == s[..i];
      i := i + 1;
    }
    assert s[..|s|] == s;
    SortedSortsAndPermutes(s, le);
  }
}
