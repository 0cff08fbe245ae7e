/**
 * Sorting as the SQL `ORDER BY` and pandas `sort_values` calls use it: a
 * permutation of the input that is ordered by a total preorder. Neither engine
 * fixes the order of ties; the insertion sort below is one admissible choice
 * (it happens to be stable), and every property the model states about a
 * sorted table follows from `Sort`'s contract and `SortSorted`, not from
 * which of the tied rows comes first.
 */
module Sorting {

  /** `le` lets any two values compare, consistently. */
  ghost predicate TotalPreorder<T(!new)>(le: (T, T) -> bool)
  {
    && (forall a, b :: le(a, b) || le(b, a))
    && (forall a, b, c :: le(a, b) && le(b, c) ==> le(a, c))
  }

  /** Every earlier element comes `le` every later one. */
  ghost predicate SortedBy<T>(s: seq<T>, le: (T, T) -> bool)
  {
    forall i, j :: 0 <= i < j < |s| ==> le(s[i], s[j])
  }

  /** Inserts x in front of the first element it comes `le`. */
  function Insert<T>(x: T, s: seq<T>, le: (T, T) -> bool): (r: seq<T>)
    ensures |r| == |s| + 1
    ensures multiset(r) == multiset(s) + multiset{x}
  {
    if s == [] || le(x, s[0]) then
      [x] + s
    else
      assert s == [s[0]] + s[1..];
      [s[0]] + Insert(x, s[1..], le)
  }

  /** Insertion sort. */
  function Sort<T>(s: seq<T>, le: (T, T) -> bool): (r: seq<T>)
    ensures |r| == |s|
    ensures multiset(r) == multiset(s)
  {
    if s == [] then
      []
    else
      assert s == [s[0]] + s[1..];
      Insert(s[0], Sort(s[1..], le), le)
  }

  lemma {:induction false} InsertSorted<T(!new)>(x: T, s: seq<T>, le: (T, T) -> bool)
    requires TotalPreorder(le) && SortedBy(s, le)
    ensures SortedBy(Insert(x, s, le), le)
  {
    if s != [] && !le(x, s[0]) {
      var rest := Insert(x, s[1..], le);
      InsertSorted(x, s[1..], le);
      assert le(s[0], x);
      forall y | y in rest ensures le(s[0], y) {
        InsertedFrom(x, s[1..], le, y);
        if y != x {
          var j :| 0 <= j < |s[1..]| && s[1..][j] == y;
          assert s[j + 1] == y;
        }
      }
      ConsSorted(s[0], rest, le);
    } else if s != [] {
      forall y | y in s ensures le(x, y) {
        var j :| 0 <= j < |s| && s[j] == y;
        assert j > 0 ==> le(s[0], s[j]);
      }
      ConsSorted(x, s, le);
    }
  }

  /** What an insertion returns comes from the element or the sequence. */
  lemma InsertedFrom<T>(x: T, s: seq<T>, le: (T, T) -> bool, y: T)
    requires y in Insert(x, s, le)
    ensures y == x || y in s
  {
    assert y in multiset(Insert(x, s, le));
  }

  /** A sorted sequence stays sorted behind an element that comes `le` all of it. */
  lemma ConsSorted<T>(h: T, s: seq<T>, le: (T, T) -> bool)
    requires SortedBy(s, le) && forall y :: y in s ==> le(h, y)
    ensures SortedBy([h] + s, le)
  {
    var r := [h] + s;
    forall i, j | 0 <= i < j < |r| ensures le(r[i], r[j]) {
      assert r[j] == s[j - 1];
      if i > 0 {
        assert r[i] == s[i - 1];
      }
    }
  }

  /** Under a total preorder, `Sort` orders its output. */
  lemma {:induction false} SortSorted<T(!new)>(s: seq<T>, le: (T, T) -> bool)
    requires TotalPreorder(le)
    ensures SortedBy(Sort(s, le), le)
  {
    if s != [] {
      SortSorted(s[1..], le);
      InsertSorted(s[0], Sort(s[1..], le), le);
    }
  }

  /** Applies f to every element, keeping the order (a per-row pandas/SQL projection). */
  function Map<A, B>(s: seq<A>, f: A -> B): (r: seq<B>)
    ensures |r| == |s|
    ensures forall i :: 0 <= i < |s| ==> r[i] == f(s[i])
  {
    if s == [] then [] else [f(s[0])] + Map(s[1..], f)
  }

  /** Inserting commutes with a map that transports the order. */
  lemma {:induction false} InsertMap<A, B>(x: A, s: seq<A>, f: A -> B, le: (A, A) -> bool, le': (B, B) -> bool)
    requires forall b :: b in s ==> (le'(f(x), f(b)) <==> le(x, b))
    ensures Insert(f(x), Map(s, f), le') == Map(Insert(x, s, le), f)
  {
    if s != [] {
      assert s[0] in s;
      assert Map(s, f)[0] == f(s[0]);
      assert Map(s, f)[1..] == Map(s[1..], f);
      if !le(x, s[0]) {
        InsertMap(x, s[1..], f, le, le');
      }
    }
  }

  /**
   * Sorting commutes with a map that transports the order: sorting the images
   * by `le'` is the image of sorting by `le`.
   */
  lemma {:induction false} SortMap<A, B>(s: seq<A>, f: A -> B, le: (A, A) -> bool, le': (B, B) -> bool)
    requires forall a, b :: a in s && b in s ==> (le'(f(a), f(b)) <==> le(a, b))
    ensures Sort(Map(s, f), le') == Map(Sort(s, le), f)
  {
    if s != [] {
      var m := Map(s, f);
      assert m[0] == f(s[0]);
      assert m[1..] == Map(s[1..], f);
      assert forall a :: a in s[1..] ==> a in s;
      SortMap(s[1..], f, le, le');
      var sorted := Sort(s[1..], le);
      forall b | b in sorted ensures b in s {
        SortedFrom(s[1..], le, b);
      }
      InsertMap(s[0], sorted, f, le, le');
      calc {
        Sort(m, le');
        Insert(f(s[0]), Sort(Map(s[1..], f), le'), le');
        Insert(f(s[0]), Map(sorted, f), le');
        Map(Sort(s, le), f);
      }
    }
  }

  /** What a sort returns comes from its input. */
  lemma SortedFrom<T>(s: seq<T>, le: (T, T) -> bool, y: T)
    requires y in Sort(s, le)
    ensures y in s
  {
    assert y in multiset(Sort(s, le));
  }

  /** Two sorted permutations, with no ties between different elements, start alike. */
  lemma SortedHeads<T(!new)>(s: seq<T>, r: seq<T>, le: (T, T) -> bool)
    requires s != [] && multiset(s) == multiset(r)
    requires SortedBy(s, le) && SortedBy(r, le)
    requires forall a, b :: a in s && b in s && le(a, b) && le(b, a) ==> a == b
    ensures r != [] && s[0] == r[0]
  {
    assert s[0] in multiset(r) && r[0] in multiset(s);
    var k :| 0 <= k < |r| && r[k] == s[0];
    var j :| 0 <= j < |s| && s[j] == r[0];
    assert j > 0 ==> le(s[0], r[0]);
    assert k > 0 ==> le(r[0], s[0]);
  }

  /** Removing equal heads from two permutations leaves permutations. */
  lemma TailsPermutation<T>(s: seq<T>, r: seq<T>)
    requires s != [] && r != [] && s[0] == r[0] && multiset(s) == multiset(r)
    ensures multiset(s[1..]) == multiset(r[1..])
  {
    assert s == [s[0]] + s[1..] && r == [r[0]] + r[1..];
    assert multiset(s[1..]) == multiset(s) - multiset{s[0]};
    assert multiset(r[1..]) == multiset(r) - multiset{r[0]};
  }

  /**
   * When `le` never ties two different elements of s, the sorted order is unique:
   * any two sorted permutations of s are equal.
   */
  lemma {:induction false} SortedUnique<T(!new)>(s: seq<T>, r: seq<T>, le: (T, T) -> bool)
    requires multiset(s) == multiset(r)
    requires SortedBy(s, le) && SortedBy(r, le)
    requires forall a, b :: a in s && b in s && le(a, b) && le(b, a) ==> a == b
    ensures s == r
    decreases |s|
  {
    if s == [] {
      assert |r| == |multiset(r)| == 0;
    } else {
      SortedHeads(s, r, le);
      TailsPermutation(s, r);
      forall a, b | a in s[1..] && b in s[1..] && le(a, b) && le(b, a) ensures a == b {
        assert a in s && b in s;
      }
      SortedUnique(s[1..], r[1..], le);
      assert s == [s[0]] + s[1..] && r == [r[0]] + r[1..];
    }
  }
}
