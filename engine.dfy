/**
 * The metric engine shared by the three KPI implementations: the sales row,
 * per-row derived values, sums that skip missing SALES, GROUP BY with SUM and
 * COUNT, the descending revenue ranking, TOP n, and the yearly customer sets.
 */
module Engine {
  import opened Wrappers
  import opened Sorting

  /**
   * One line of the sales table as the KPI code reads it. The grouping columns
   * are never null; SALES may be missing (NULL in SQL, NaN after
   * `pd.to_numeric(..., errors="coerce")`), and so may ORDERNUMBER.
   */
  datatype Row = Row(
    productLine: string,
    country: string,
    customer: string,
    year: int,
    month: int,
    orderNumber: Option<int>,
    sales: Option<real>)

  /** The fixed assumed margin: profit is 45% of sales everywhere. */
  const ProfitShare: real := 0.45

  /** What a row adds to a sum of SALES: SQL SUM and pandas `sum` both skip a missing value. */
  function Amount(r: Row): real
  {
    r.sales.GetOr(0.0)
  }

  /** The derived per-row profit `SALES * 0.45`; missing when SALES is. */
  function Profit(r: Row): Option<real>
  {
    match r.sales
    case None => None
    case Some(v) => Some(ProfitShare * v)
  }

  /** `SUM(SALES)` / `df["SALES"].sum()` over the rows (missing values skipped). */
  function Revenue(rows: seq<Row>): real
  {
    if rows == [] then 0.0 else Revenue(rows[..|rows| - 1]) + Amount(rows[|rows| - 1])
  }

  /** `SUM(SALES * 0.45)` / `df["PROFIT"].sum()` over the rows (missing values skipped). */
  function ProfitTotal(rows: seq<Row>): real
  {
    if rows == [] then 0.0 else ProfitTotal(rows[..|rows| - 1]) + Profit(rows[|rows| - 1]).GetOr(0.0)
  }

  /** `COUNT(ORDERNUMBER)`: the rows whose order number is present. */
  function OrderCount(rows: seq<Row>): nat
  {
    if rows == [] then 0
    else OrderCount(rows[..|rows| - 1]) + (if rows[|rows| - 1].orderNumber.Some? then 1 else 0)
  }

  /** Total profit is exactly 45% of total revenue. */
  lemma {:induction false} ProfitIsShare(rows: seq<Row>)
    ensures ProfitTotal(rows) == ProfitShare * Revenue(rows)
  {
    if rows != [] {
      ProfitIsShare(rows[..|rows| - 1]);
    }
  }

  /** Revenue is additive over concatenation. */
  lemma {:induction false} RevenueAppend(a: seq<Row>, b: seq<Row>)
    ensures Revenue(a + b) == Revenue(a) + Revenue(b)
  {
    if b == [] {
      assert a + b == a;
    } else {
      assert (a + b)[..|a + b| - 1] == a + b[..|b| - 1];
      RevenueAppend(a, b[..|b| - 1]);
    }
  }

  /** A row whose SALES is missing does not change the revenue. */
  lemma RevenueSkipsMissing(rows: seq<Row>, i: nat)
    requires i < |rows| && rows[i].sales.None?
    ensures Revenue(rows) == Revenue(rows[..i] + rows[i + 1..])
  {
    assert rows == rows[..i] + [rows[i]] + rows[i + 1..];
    RevenueAppend(rows[..i] + [rows[i]], rows[i + 1..]);
    RevenueAppend(rows[..i], [rows[i]]);
    RevenueAppend(rows[..i], rows[i + 1..]);
    assert Revenue([rows[i]]) == Revenue([]) + Amount(rows[i]);
  }

  // ---------------------------------------------------------------- GROUP BY

  /** One output line of `GROUP BY key` with `SUM(SALES)`, `SUM(SALES * 0.45)` and `COUNT(ORDERNUMBER)`. */
  datatype Group<K> = Group(key: K, revenue: real, profit: real, orders: nat)

  function ProductKey(r: Row): string { r.productLine }
  function CountryKey(r: Row): string { r.country }
  function CustomerKey(r: Row): string { r.customer }
  function PeriodKey(r: Row): (int, int) { (r.year, r.month) }

  /** The rows of one group, in table order. */
  function Matching<K(==,!new)>(rows: seq<Row>, key: Row -> K, k: K): (m: seq<Row>)
    ensures |m| <= |rows|
    ensures forall r :: r in m <==> r in rows && key(r) == k
  {
    if rows == [] then []
    else
      var init := rows[..|rows| - 1];
      var last := rows[|rows| - 1];
      assert rows == init + [last];
      var m := Matching(init, key, k);
      if key(last) == k then m + [last] else m
  }

  /** The aggregate line of the group with key k. */
  function GroupOf<K(==,!new)>(rows: seq<Row>, key: Row -> K, k: K): Group<K>
  {
    var m := Matching(rows, key, k);
    Group(k, Revenue(m), ProfitTotal(m), OrderCount(m))
  }

  /** The keys that occur in the table. */
  function Keys<K(==,!new)>(rows: seq<Row>, key: Row -> K): set<K>
  {
    set r | r in rows :: key(r)
  }

  predicate Distinct<T(==)>(s: seq<T>)
  {
    forall i, j :: 0 <= i < j < |s| ==> s[i] != s[j]
  }

  /** Each key that occurs, once, in order of first appearance. */
  function DistinctKeys<K(==,!new)>(rows: seq<Row>, key: Row -> K): (ks: seq<K>)
    ensures Distinct(ks)
    ensures forall k :: k in ks <==> k in Keys(rows, key)
  {
    if rows == [] then []
    else
      var init := rows[..|rows| - 1];
      var last := rows[|rows| - 1];
      assert rows == init + [last];
      var ks := DistinctKeys(init, key);
      if key(last) in ks then ks else ks + [key(last)]
  }

  function GroupsFor<K(==,!new)>(rows: seq<Row>, key: Row -> K, ks: seq<K>): (gs: seq<Group<K>>)
    ensures |gs| == |ks|
    ensures forall i :: 0 <= i < |ks| ==> gs[i] == GroupOf(rows, key, ks[i])
  {
    if ks == [] then [] else [GroupOf(rows, key, ks[0])] + GroupsFor(rows, key, ks[1..])
  }

  /** `GROUP BY key`: one aggregate line per distinct key (in order of first appearance). */
  function Aggregate<K(==,!new)>(rows: seq<Row>, key: Row -> K): seq<Group<K>>
  {
    GroupsFor(rows, key, DistinctKeys(rows, key))
  }

  function KeysOf<K>(t: seq<Group<K>>): (ks: seq<K>)
    ensures |ks| == |t| && forall i :: 0 <= i < |t| ==> ks[i] == t[i].key
  {
    if t == [] then [] else [t[0].key] + KeysOf(t[1..])
  }

  /**
   * What any correct `GROUP BY key` result is, in whatever order: exactly one
   * line per key that occurs, each holding that key's sums and count.
   */
  ghost predicate IsGrouping<K(!new)>(t: seq<Group<K>>, rows: seq<Row>, key: Row -> K)
  {
    && Distinct(KeysOf(t))
    && (forall k :: k in KeysOf(t) <==> k in Keys(rows, key))
    && (forall i :: 0 <= i < |t| ==> t[i] == GroupOf(rows, key, t[i].key))
  }

  /** Revenue never increases down the table. */
  predicate NonIncreasing<K>(t: seq<Group<K>>)
  {
    forall i, j :: 0 <= i < j < |t| ==> t[i].revenue >= t[j].revenue
  }

  /** What any correct `GROUP BY key ORDER BY revenue DESC` result is. */
  ghost predicate IsRanking<K(!new)>(t: seq<Group<K>>, rows: seq<Row>, key: Row -> K)
  {
    IsGrouping(t, rows, key) && NonIncreasing(t)
  }

  /** The order of `ORDER BY revenue DESC` / `sort_values("revenue", ascending=False)`. */
  function ByRevenue<K>(a: Group<K>, b: Group<K>): bool
  {
    a.revenue >= b.revenue
  }

  /** `GROUP BY key ORDER BY revenue DESC`, with one admissible order of ties. */
  function Ranked<K(==,!new)>(rows: seq<Row>, key: Row -> K): seq<Group<K>>
  {
    Sort(Aggregate(rows, key), ByRevenue)
  }

  /** `TOP n` / `.head(n)`. */
  function Top<K>(t: seq<Group<K>>, n: nat): (r: seq<Group<K>>)
    ensures |r| == if |t| < n then |t| else n
    ensures r == t[..|r|]
  {
    if |t| <= n then t else t[..n]
  }

  /** `.max()` of the per-group sums: None for an empty table (pandas gives NaN). */
  function MaxRevenue<K>(t: seq<Group<K>>): (m: Option<real>)
    ensures m.None? <==> t == []
    ensures m.Some? ==> exists i :: 0 <= i < |t| && t[i].revenue == m.value
    ensures m.Some? ==> forall i :: 0 <= i < |t| ==> t[i].revenue <= m.value
  {
    if t == [] then None
    else
      match MaxRevenue(t[1..])
      case None => Some(t[0].revenue)
      case Some(v) =>
        assert forall i :: 1 <= i < |t| ==> t[i] == t[1..][i - 1];
        Some(if t[0].revenue >= v then t[0].revenue else v)
  }

  function SumRevenue<K>(t: seq<Group<K>>): real
  {
    if t == [] then 0.0 else t[0].revenue + SumRevenue(t[1..])
  }

  function SumProfit<K>(t: seq<Group<K>>): real
  {
    if t == [] then 0.0 else t[0].profit + SumProfit(t[1..])
  }

  // ---------------------------------------------------------------- customers

  /** `SELECT DISTINCT CUSTOMERNAME ... WHERE YEAR_ID = y` / `set(df[df["YEAR_ID"] == y]["CUSTOMERNAME"])`. */
  function CustomersIn(rows: seq<Row>, y: int): set<string>
  {
    set r | r in rows && r.year == y :: r.customer
  }

  /** `COUNT(DISTINCT CUSTOMERNAME)` / `df["CUSTOMERNAME"].nunique()`. */
  function CustomerCount(rows: seq<Row>): nat
  {
    |Keys(rows, CustomerKey)|
  }

  // ---------------------------------------------------------------- lemmas: grouping

  lemma GroupsForKeys<K(!new)>(rows: seq<Row>, key: Row -> K, ks: seq<K>)
    ensures KeysOf(GroupsFor(rows, key, ks)) == ks
  {
  }

  /** The GROUP BY function meets the grouping specification. */
  lemma AggregateIsGrouping<K(!new)>(rows: seq<Row>, key: Row -> K)
    ensures IsGrouping(Aggregate(rows, key), rows, key)
  {
    GroupsForKeys(rows, key, DistinctKeys(rows, key));
  }

  /** In a table with distinct keys the lines themselves are distinct. */
  lemma DistinctLines<K(!new)>(t: seq<Group<K>>)
    requires Distinct(KeysOf(t))
    ensures Distinct(t)
  {
    forall i, j | 0 <= i < j < |t| ensures t[i] != t[j] {
      assert KeysOf(t)[i] != KeysOf(t)[j];
    }
  }

  /** A value that occurs at two positions occurs twice in the multiset. */
  lemma RepeatCount<T>(s: seq<T>, i: nat, j: nat)
    requires i < j < |s|
    ensures s[i] == s[j] ==> multiset(s)[s[i]] >= 2
  {
    assert s == s[..j] + s[j..];
    assert s[i] in s[..j] && s[j] == s[j..][0];
    assert multiset(s) == multiset(s[..j]) + multiset(s[j..]);
  }

  /** A sequence without repeats holds each of its values once. */
  lemma {:induction false} CountOfDistinct<T>(s: seq<T>)
    requires Distinct(s)
    ensures forall x :: multiset(s)[x] == if x in s then 1 else 0
  {
    if s != [] {
      CountOfDistinct(s[1..]);
      assert s == [s[0]] + s[1..];
      assert s[0] !in s[1..];
    }
  }

  /** A sequence whose multiset holds each value at most once has no repeats. */
  lemma DistinctOfCount<T>(s: seq<T>)
    requires forall x :: multiset(s)[x] <= 1
    ensures Distinct(s)
  {
    forall i, j | 0 <= i < j < |s| ensures s[i] != s[j] {
      RepeatCount(s, i, j);
    }
  }

  /** Reordering a correct GROUP BY result gives a correct GROUP BY result. */
  lemma PermutedGrouping<K(!new)>(t: seq<Group<K>>, u: seq<Group<K>>, rows: seq<Row>, key: Row -> K)
    requires IsGrouping(t, rows, key)
    requires multiset(u) == multiset(t)
    ensures IsGrouping(u, rows, key)
  {
    DistinctLines(t);
    CountOfDistinct(t);
    DistinctOfCount(u);
    forall i | 0 <= i < |u| ensures u[i] in t {
      assert u[i] in multiset(u);
    }
    forall k ensures k in KeysOf(u) <==> k in KeysOf(t) {
      if k in KeysOf(u) {
        var i :| 0 <= i < |u| && KeysOf(u)[i] == k;
        var j :| 0 <= j < |t| && t[j] == u[i];
        assert KeysOf(t)[j] == k;
      }
      if k in KeysOf(t) {
        var j :| 0 <= j < |t| && KeysOf(t)[j] == k;
        assert t[j] in multiset(u);
        var i :| 0 <= i < |u| && u[i] == t[j];
        assert KeysOf(u)[i] == k;
      }
    }
    forall i, j | 0 <= i < j < |u| ensures KeysOf(u)[i] != KeysOf(u)[j] {
      assert u[i] != u[j];
    }
  }

  /** A line of one correct GROUP BY result is a line of any other. */
  lemma SharedLine<K(!new)>(t: seq<Group<K>>, u: seq<Group<K>>, rows: seq<Row>, key: Row -> K, g: Group<K>)
    requires IsGrouping(t, rows, key) && IsGrouping(u, rows, key)
    requires g in t
    ensures g in u
  {
    var i :| 0 <= i < |t| && t[i] == g;
    assert KeysOf(t)[i] == g.key;
    assert g.key in Keys(rows, key);
    var j :| 0 <= j < |u| && KeysOf(u)[j] == g.key;
    assert u[j] == g;
  }

  /** Two sequences without repeats and with the same elements are permutations of each other. */
  lemma SameElements<T>(s: seq<T>, r: seq<T>)
    requires Distinct(s) && Distinct(r)
    requires forall x :: x in s <==> x in r
    ensures multiset(s) == multiset(r)
  {
    CountOfDistinct(s);
    CountOfDistinct(r);
    assert forall x :: multiset(s)[x] == multiset(r)[x];
  }

  /** Any two correct GROUP BY results hold the same lines: they differ only in order. */
  lemma GroupingsArePermutations<K(!new)>(t: seq<Group<K>>, rows: seq<Row>, key: Row -> K)
    requires IsGrouping(t, rows, key)
    ensures multiset(t) == multiset(Aggregate(rows, key))
  {
    var a := Aggregate(rows, key);
    AggregateIsGrouping(rows, key);
    DistinctLines(t);
    DistinctLines(a);
    forall g ensures g in t <==> g in a {
      if g in t {
        SharedLine(t, a, rows, key, g);
      }
      if g in a {
        SharedLine(a, t, rows, key, g);
      }
    }
    SameElements(t, a);
  }

  lemma ByRevenueIsTotalPreorder<K(!new)>()
    ensures TotalPreorder(ByRevenue<K>)
  {
  }

  /** The ranking function meets the ranking specification. */
  lemma RankedIsRanking<K(!new)>(rows: seq<Row>, key: Row -> K)
    ensures IsRanking(Ranked(rows, key), rows, key)
  {
    var a := Aggregate(rows, key);
    AggregateIsGrouping(rows, key);
    PermutedGrouping(a, Ranked(rows, key), rows, key);
    ByRevenueIsTotalPreorder<K>();
    SortSorted(a, ByRevenue);
  }

  // ---------------------------------------------------------------- lemmas: sums

  lemma {:induction false} SumRevenueAppend<K>(a: seq<Group<K>>, b: seq<Group<K>>)
    ensures SumRevenue(a + b) == SumRevenue(a) + SumRevenue(b)
  {
    if a == [] {
      assert a + b == b;
    } else {
      assert (a + b)[1..] == a[1..] + b;
      SumRevenueAppend(a[1..], b);
    }
  }

  /** Reordering lines does not change the sum of their revenues. */
  lemma {:induction false} SumRevenuePermutation<K>(a: seq<Group<K>>, b: seq<Group<K>>)
    requires multiset(a) == multiset(b)
    ensures SumRevenue(a) == SumRevenue(b)
    decreases |a|
  {
    if a != [] {
      assert a[0] in multiset(b);
      var j :| 0 <= j < |b| && b[j] == a[0];
      var b' := b[..j] + b[j + 1..];
      RemoveMatching(a, b, j);
      SumRevenuePermutation(a[1..], b');
      SumRevenueRemove(b, j);
    }
  }

  /** Taking the same element out of two permutations leaves two permutations. */
  lemma RemoveMatching<T>(a: seq<T>, b: seq<T>, j: nat)
    requires multiset(a) == multiset(b) && a != [] && j < |b| && b[j] == a[0]
    ensures multiset(a[1..]) == multiset(b[..j] + b[j + 1..])
  {
    assert a == [a[0]] + a[1..];
    assert multiset(a[1..]) == multiset(a) - multiset{a[0]};
    var p, q := b[..j], b[j + 1..];
    assert b == p + [b[j]] + q;
    assert multiset(b) == multiset(p) + multiset{b[j]} + multiset(q);
    assert multiset(p + q) == multiset(p) + multiset(q);
  }

  /** The revenue sum splits into one line and the rest. */
  lemma SumRevenueRemove<K>(b: seq<Group<K>>, j: nat)
    requires j < |b|
    ensures SumRevenue(b) == SumRevenue(b[..j] + b[j + 1..]) + b[j].revenue
  {
    var p, q := b[..j], b[j + 1..];
    var r := [b[j]] + q;
    assert b == p + r;
    assert r[1..] == q;
    SumRevenueAppend(p, r);
    SumRevenueAppend(p, q);
  }

  lemma GroupsForAppend<K(!new)>(rows: seq<Row>, key: Row -> K, ks: seq<K>, k: K)
    ensures GroupsFor(rows, key, ks + [k]) == GroupsFor(rows, key, ks) + [GroupOf(rows, key, k)]
  {
    var l := GroupsFor(rows, key, ks + [k]);
    var r := GroupsFor(rows, key, ks) + [GroupOf(rows, key, k)];
    assert forall i :: 0 <= i < |l| ==> l[i] == r[i];
  }

  /** Adding a row adds its amount to its own group and leaves the other groups alone. */
  lemma GroupOfSnoc<K(!new)>(rows: seq<Row>, last: Row, key: Row -> K, k: K)
    ensures GroupOf(rows + [last], key, k).revenue
         == GroupOf(rows, key, k).revenue + (if key(last) == k then Amount(last) else 0.0)
  {
    var rs := rows + [last];
    assert rs[..|rs| - 1] == rows;
    var m := Matching(rows, key, k);
    assert (m + [last])[..|m|] == m;
  }

  lemma {:induction false} SnocGroups<K(!new)>(rows: seq<Row>, last: Row, key: Row -> K, ks: seq<K>)
    requires Distinct(ks)
    ensures SumRevenue(GroupsFor(rows + [last], key, ks))
         == SumRevenue(GroupsFor(rows, key, ks)) + (if key(last) in ks then Amount(last) else 0.0)
  {
    if ks != [] {
      GroupOfSnoc(rows, last, key, ks[0]);
      SnocGroups(rows, last, key, ks[1..]);
      assert key(last) in ks <==> key(last) == ks[0] || key(last) in ks[1..];
      assert ks[0] !in ks[1..];
    }
  }

  /** A key that does not occur has an empty group. */
  lemma {:induction false} AbsentGroup<K(!new)>(rows: seq<Row>, key: Row -> K, k: K)
    requires k !in Keys(rows, key)
    ensures GroupOf(rows, key, k).revenue == 0.0
  {
    if rows != [] {
      var init := rows[..|rows| - 1];
      var last := rows[|rows| - 1];
      assert rows == init + [last];
      assert key(last) in Keys(rows, key);
      assert Keys(init, key) <= Keys(rows, key) by {
        forall x | x in Keys(init, key) ensures x in Keys(rows, key) {
          var r :| r in init && key(r) == x;
          assert r in rows;
        }
      }
      AbsentGroup(init, key, k);
    }
  }

  /** The group revenues of GROUP BY add up to the total revenue. */
  lemma {:induction false} AggregateAdds<K(!new)>(rows: seq<Row>, key: Row -> K)
    ensures SumRevenue(Aggregate(rows, key)) == Revenue(rows)
  {
    if rows != [] {
      var init := rows[..|rows| - 1];
      var last := rows[|rows| - 1];
      assert rows == init + [last];
      AggregateAdds(init, key);
      AggregateSnoc(init, last, key);
    }
  }

  /** One more row adds its amount to the group revenues. */
  lemma AggregateSnoc<K(!new)>(init: seq<Row>, last: Row, key: Row -> K)
    ensures SumRevenue(Aggregate(init + [last], key)) == SumRevenue(Aggregate(init, key)) + Amount(last)
  {
    var rows := init + [last];
    assert rows[..|rows| - 1] == init;
    var ks := DistinctKeys(init, key);
    SnocGroups(init, last, key, ks);
    if key(last) !in ks {
      NewKeySnoc(init, last, key, ks);
    }
  }

  lemma NewKeySnoc<K(!new)>(init: seq<Row>, last: Row, key: Row -> K, ks: seq<K>)
    requires ks == DistinctKeys(init, key) && key(last) !in ks
    ensures SumRevenue(GroupsFor(init + [last], key, ks + [key(last)]))
         == SumRevenue(GroupsFor(init + [last], key, ks)) + Amount(last)
  {
    var rows := init + [last];
    GroupsForAppend(rows, key, ks, key(last));
    SumRevenueAppend(GroupsFor(rows, key, ks), [GroupOf(rows, key, key(last))]);
    GroupOfSnoc(init, last, key, key(last));
    AbsentGroup(init, key, key(last));
  }

  /** Any correct GROUP BY result, in any order, adds up to the total revenue. */
  lemma GroupingAdds<K(!new)>(t: seq<Group<K>>, rows: seq<Row>, key: Row -> K)
    requires IsGrouping(t, rows, key)
    ensures SumRevenue(t) == Revenue(rows)
  {
    GroupingsArePermutations(t, rows, key);
    SumRevenuePermutation(t, Aggregate(rows, key));
    AggregateAdds(rows, key);
  }

  /** In any correct GROUP BY result each line's profit is 45% of its revenue. */
  lemma GroupProfitIsShare<K(!new)>(t: seq<Group<K>>, rows: seq<Row>, key: Row -> K)
    requires IsGrouping(t, rows, key)
    ensures forall i :: 0 <= i < |t| ==> t[i].profit == ProfitShare * t[i].revenue
  {
    forall i | 0 <= i < |t| ensures t[i].profit == ProfitShare * t[i].revenue {
      ProfitIsShare(Matching(rows, key, t[i].key));
    }
  }

  lemma {:induction false} SumProfitOfShares<K>(t: seq<Group<K>>)
    requires forall i :: 0 <= i < |t| ==> t[i].profit == ProfitShare * t[i].revenue
    ensures SumProfit(t) == ProfitShare * SumRevenue(t)
  {
    if t != [] {
      SumProfitOfShares(t[1..]);
    }
  }

  /** The group profits add up to the total profit. */
  lemma GroupingProfitAdds<K(!new)>(t: seq<Group<K>>, rows: seq<Row>, key: Row -> K)
    requires IsGrouping(t, rows, key)
    ensures SumProfit(t) == ProfitTotal(rows)
  {
    GroupProfitIsShare(t, rows, key);
    SumProfitOfShares(t);
    GroupingAdds(t, rows, key);
    ProfitIsShare(rows);
  }

  // ---------------------------------------------------------------- lemmas: top and max

  /**
   * The first n lines of a correct ranking: at most n lines, still ordered and
   * correct, and no key left out has more revenue than any key kept.
   */
  lemma TopOfRanking<K(!new)>(t: seq<Group<K>>, rows: seq<Row>, key: Row -> K, n: nat)
    requires IsRanking(t, rows, key)
    ensures var r := Top(t, n);
      && |r| <= n
      && |r| == (if |Keys(rows, key)| < n then |Keys(rows, key)| else n)
      && NonIncreasing(r)
      && Distinct(KeysOf(r))
      && (forall i :: 0 <= i < |r| ==> r[i] == GroupOf(rows, key, r[i].key) && r[i].key in Keys(rows, key))
      && (forall k, i :: k in Keys(rows, key) && k !in KeysOf(r) && 0 <= i < |r| ==>
            GroupOf(rows, key, k).revenue <= r[i].revenue)
  {
    KeyCount(t, rows, key);
    TopKeys(t, rows, key, n);
    TopLeftOut(t, rows, key, n);
  }

  /** The lines kept are lines of the ranking: distinct keys, each with its own sums. */
  lemma TopKeys<K(!new)>(t: seq<Group<K>>, rows: seq<Row>, key: Row -> K, n: nat)
    requires IsGrouping(t, rows, key)
    ensures var r := Top(t, n);
      && Distinct(KeysOf(r))
      && (forall i :: 0 <= i < |r| ==> r[i] == GroupOf(rows, key, r[i].key) && r[i].key in Keys(rows, key))
  {
    var r := Top(t, n);
    forall i, j | 0 <= i < j < |r| ensures KeysOf(r)[i] != KeysOf(r)[j] {
      assert KeysOf(t)[i] != KeysOf(t)[j];
    }
    forall i | 0 <= i < |r| ensures r[i].key in Keys(rows, key) {
      assert KeysOf(t)[i] == r[i].key;
    }
  }

  /** A key not kept sits further down the ranking, so it has no more revenue than any kept. */
  lemma TopLeftOut<K(!new)>(t: seq<Group<K>>, rows: seq<Row>, key: Row -> K, n: nat)
    requires IsRanking(t, rows, key)
    ensures var r := Top(t, n);
      forall k, i :: k in Keys(rows, key) && k !in KeysOf(r) && 0 <= i < |r| ==>
        GroupOf(rows, key, k).revenue <= r[i].revenue
  {
    var r := Top(t, n);
    PrefixKeys(t, |r|);
    forall k, i | k in Keys(rows, key) && k !in KeysOf(r) && 0 <= i < |r|
      ensures GroupOf(rows, key, k).revenue <= r[i].revenue
    {
      var j :| 0 <= j < |t| && KeysOf(t)[j] == k;
      assert |r| <= j;
      assert t[j] == GroupOf(rows, key, k);
    }
  }

  lemma PrefixKeys<K>(t: seq<Group<K>>, m: nat)
    requires m <= |t|
    ensures forall j :: 0 <= j < m ==> KeysOf(t)[j] in KeysOf(t[..m])
  {
    forall j | 0 <= j < m ensures KeysOf(t)[j] in KeysOf(t[..m]) {
      assert KeysOf(t[..m])[j] == KeysOf(t)[j];
    }
  }

  /** A correct grouping has exactly one line per key. */
  lemma KeyCount<K(!new)>(t: seq<Group<K>>, rows: seq<Row>, key: Row -> K)
    requires IsGrouping(t, rows, key)
    ensures |t| == |Keys(rows, key)|
  {
    var ks := KeysOf(t);
    DistinctCard(ks);
    assert (set k | k in ks) == Keys(rows, key);
  }

  /** A sequence without repeats has as many elements as its set. */
  lemma {:induction false} DistinctCard<T>(s: seq<T>)
    requires Distinct(s)
    ensures |set x | x in s| == |s|
  {
    if s != [] {
      DistinctCard(s[1..]);
      assert (set x | x in s) == (set x | x in s[1..]) + {s[0]};
      assert s[0] !in s[1..];
    }
  }

  /** A table has keys exactly when it has rows. */
  lemma KeysEmpty<K(!new)>(rows: seq<Row>, key: Row -> K)
    ensures Keys(rows, key) == {} <==> rows == []
  {
    if rows != [] {
      assert key(rows[0]) in Keys(rows, key);
    }
  }

  /** Some row, some group: a non-empty table has a non-empty ranking. */
  lemma NonEmptyRanking<K(!new)>(t: seq<Group<K>>, rows: seq<Row>, key: Row -> K)
    requires IsGrouping(t, rows, key)
    ensures t == [] <==> rows == []
  {
    KeyCount(t, rows, key);
    if rows != [] {
      assert key(rows[0]) in Keys(rows, key);
    }
  }

  /** The first line of a correct ranking has the largest revenue of any key. */
  lemma RankingHead<K(!new)>(t: seq<Group<K>>, rows: seq<Row>, key: Row -> K)
    requires IsRanking(t, rows, key) && t != []
    ensures forall k :: k in Keys(rows, key) ==> GroupOf(rows, key, k).revenue <= t[0].revenue
  {
    forall k | k in Keys(rows, key) ensures GroupOf(rows, key, k).revenue <= t[0].revenue {
      var j :| 0 <= j < |t| && KeysOf(t)[j] == k;
    }
  }

  /**
   * The largest group revenue (`.max()` over any correct grouping) is the
   * revenue of the first line of any correct ranking.
   */
  lemma MaxIsTopOfRanking<K(!new)>(u: seq<Group<K>>, t: seq<Group<K>>, rows: seq<Row>, key: Row -> K)
    requires IsGrouping(u, rows, key) && IsRanking(t, rows, key)
    requires rows != []
    ensures t != [] && MaxRevenue(u) == Some(t[0].revenue)
  {
    NonEmptyRanking(t, rows, key);
    NonEmptyRanking(u, rows, key);
    var m := MaxRevenue(u).value;
    var i :| 0 <= i < |u| && u[i].revenue == m;
    SharedLine(u, t, rows, key, u[i]);
    SharedLine(t, u, rows, key, t[0]);
    var j :| 0 <= j < |t| && t[j] == u[i];
    var i' :| 0 <= i' < |u| && u[i'] == t[0];
    assert t[0].revenue >= t[j].revenue;
  }

  // ---------------------------------------------------------------- lemmas: any order of ties

  /*
   * SQL's ORDER BY, pandas' sort_values and idxmax each break revenue ties in an
   * order of their own. What holds whatever the order of ties is stated here for
   * arbitrary correct rankings, not for the one `Ranked` picks.
   */

  /** The revenue column of a table. */
  function Revenues<K>(t: seq<Group<K>>): (v: seq<real>)
    ensures |v| == |t| && forall i :: 0 <= i < |t| ==> v[i] == t[i].revenue
  {
    if t == [] then [] else [t[0].revenue] + Revenues(t[1..])
  }

  /** Revenue never rises down the column. */
  function AtLeast(a: real, b: real): bool
  {
    a >= b
  }

  /** No two different keys have the same revenue, so no order of ties arises. */
  ghost predicate NoRevenueTies<K(!new)>(rows: seq<Row>, key: Row -> K)
  {
    forall k, k' ::
      k in Keys(rows, key) && k' in Keys(rows, key) && GroupOf(rows, key, k).revenue == GroupOf(rows, key, k').revenue
      ==> k == k'
  }

  /** The first n lines of some correct ranking: what `TOP n ... ORDER BY` and `.head(n)` promise. */
  ghost predicate IsTop<K(!new)>(r: seq<Group<K>>, rows: seq<Row>, key: Row -> K, n: nat)
  {
    exists t :: IsRanking(t, rows, key) && r == Top(t, n)
  }

  /** Dropping one position from a sequence drops that element from its multiset. */
  lemma MultisetRemove<T>(s: seq<T>, j: nat)
    requires j < |s|
    ensures multiset(s) == multiset(s[..j] + s[j + 1..]) + multiset{s[j]}
  {
    assert s == s[..j] + [s[j]] + s[j + 1..];
  }

  /** Permuted tables have permuted revenue columns. */
  lemma {:induction false} RevenuesPermutation<K>(t: seq<Group<K>>, u: seq<Group<K>>)
    requires multiset(t) == multiset(u)
    ensures multiset(Revenues(t)) == multiset(Revenues(u))
    decreases |t|
  {
    if t == [] {
      assert |u| == |multiset(u)| == 0;
    } else {
      assert t[0] in multiset(u);
      var j :| 0 <= j < |u| && u[j] == t[0];
      RemoveMatching(t, u, j);
      var u' := u[..j] + u[j + 1..];
      RevenuesPermutation(t[1..], u');
      RevenuesRemove(u, j);
      MultisetRemove(Revenues(u), j);
      assert Revenues(t) == [t[0].revenue] + Revenues(t[1..]);
    }
  }

  lemma RevenuesRemove<K>(u: seq<Group<K>>, j: nat)
    requires j < |u|
    ensures Revenues(u[..j] + u[j + 1..]) == Revenues(u)[..j] + Revenues(u)[j + 1..]
  {
    var v, w := Revenues(u[..j] + u[j + 1..]), Revenues(u)[..j] + Revenues(u)[j + 1..];
    assert |v| == |w|;
    forall i | 0 <= i < |v| ensures v[i] == w[i] {
      if i < j {
        assert (u[..j] + u[j + 1..])[i] == u[i];
      } else {
        assert (u[..j] + u[j + 1..])[i] == u[i + 1];
      }
    }
  }

  /**
   * Any two correct rankings of one table hold the same lines, and their revenue
   * columns are equal position by position: they can differ only in the order of
   * keys with equal revenue.
   */
  lemma RankingsAgree<K(!new)>(t: seq<Group<K>>, u: seq<Group<K>>, rows: seq<Row>, key: Row -> K)
    requires IsRanking(t, rows, key) && IsRanking(u, rows, key)
    ensures multiset(t) == multiset(u)
    ensures Revenues(t) == Revenues(u)
  {
    GroupingsArePermutations(t, rows, key);
    GroupingsArePermutations(u, rows, key);
    RevenuesPermutation(t, u);
    SortedUnique(Revenues(t), Revenues(u), AtLeast);
  }

  /** Without revenue ties there is only one correct ranking. */
  lemma RankingsUnique<K(!new)>(t: seq<Group<K>>, u: seq<Group<K>>, rows: seq<Row>, key: Row -> K)
    requires IsRanking(t, rows, key) && IsRanking(u, rows, key)
    requires NoRevenueTies(rows, key)
    ensures t == u
  {
    GroupingsArePermutations(t, rows, key);
    GroupingsArePermutations(u, rows, key);
    forall a, b | a in t && b in t && ByRevenue(a, b) && ByRevenue(b, a) ensures a == b {
      var i :| 0 <= i < |t| && t[i] == a;
      var j :| 0 <= j < |t| && t[j] == b;
      assert KeysOf(t)[i] == a.key && KeysOf(t)[j] == b.key;
    }
    SortedUnique(t, u, ByRevenue);
  }

  /**
   * The first n lines of two correct rankings: equally long, with equal revenue
   * columns, and the same lines when there are no revenue ties.
   */
  lemma TopsAgree<K(!new)>(r: seq<Group<K>>, s: seq<Group<K>>, rows: seq<Row>, key: Row -> K, n: nat)
    requires IsTop(r, rows, key, n) && IsTop(s, rows, key, n)
    ensures Revenues(r) == Revenues(s)
    ensures NoRevenueTies(rows, key) ==> r == s
  {
    var t :| IsRanking(t, rows, key) && r == Top(t, n);
    var u :| IsRanking(u, rows, key) && s == Top(u, n);
    RankingsAgree(t, u, rows, key);
    TopRevenues(t, n);
    TopRevenues(u, n);
    if NoRevenueTies(rows, key) {
      RankingsUnique(t, u, rows, key);
    }
  }

  lemma TopRevenues<K>(t: seq<Group<K>>, n: nat)
    ensures Revenues(Top(t, n)) == Revenues(t)[..|Top(t, n)|]
  {
  }

  /** The first n lines of a correct ranking are a top-n table. */
  lemma TopIsTop<K(!new)>(t: seq<Group<K>>, rows: seq<Row>, key: Row -> K, n: nat)
    requires IsRanking(t, rows, key)
    ensures IsTop(Top(t, n), rows, key, n)
  {
  }

  /**
   * A key of greatest revenue has the revenue of the first line of any correct
   * ranking, and is that line's key when there are no revenue ties.
   */
  lemma MaximalKeyHeads<K(!new)>(t: seq<Group<K>>, rows: seq<Row>, key: Row -> K, k: K)
    requires IsRanking(t, rows, key)
    requires k in Keys(rows, key)
    requires forall k' :: k' in Keys(rows, key) ==> GroupOf(rows, key, k').revenue <= GroupOf(rows, key, k).revenue
    ensures t != [] && GroupOf(rows, key, k).revenue == t[0].revenue
    ensures NoRevenueTies(rows, key) ==> k == t[0].key
  {
    assert KeysOf(t) != [];
    RankingHead(t, rows, key);
    assert KeysOf(t)[0] == t[0].key;
  }

  // ---------------------------------------------------------------- lemmas: renaming keys

  /** A group line under another name for its key. */
  function Relabel<K, J>(g: Group<K>, rename: K -> J): (h: Group<J>)
    ensures h.key == rename(g.key)
    ensures (h.revenue, h.profit, h.orders) == (g.revenue, g.profit, g.orders)
  {
    Group(rename(g.key), g.revenue, g.profit, g.orders)
  }

  function RelabelAll<K, J>(t: seq<Group<K>>, rename: K -> J): (u: seq<Group<J>>)
    ensures |u| == |t| && forall i :: 0 <= i < |t| ==> u[i] == Relabel(t[i], rename)
  {
    if t == [] then [] else [Relabel(t[0], rename)] + RelabelAll(t[1..], rename)
  }

  /** `rename` never merges two keys of s. */
  ghost predicate InjectiveOn<K(!new), J>(rename: K -> J, s: set<K>)
  {
    forall a, b :: a in s && b in s && rename(a) == rename(b) ==> a == b
  }

  /** Every row's key2 is the renamed key1: key2 is key1 spelled another way. */
  ghost predicate KeyThrough<K, J>(rows: seq<Row>, key1: Row -> K, key2: Row -> J, rename: K -> J)
  {
    forall i :: 0 <= i < |rows| ==> key2(rows[i]) == rename(key1(rows[i]))
  }

  lemma KeysOfPrefix<K(!new)>(rows: seq<Row>, key: Row -> K)
    requires rows != []
    ensures Keys(rows[..|rows| - 1], key) <= Keys(rows, key)
    ensures key(rows[|rows| - 1]) in Keys(rows, key)
  {
    var init := rows[..|rows| - 1];
    forall x | x in Keys(init, key) ensures x in Keys(rows, key) {
      var r :| r in init && key(r) == x;
      assert r in rows;
    }
    assert rows[|rows| - 1] in rows;
  }

  lemma {:induction false} MatchingRelabel<K(!new), J(!new)>(
    rows: seq<Row>, key1: Row -> K, key2: Row -> J, rename: K -> J, s: set<K>, k: K)
    requires Keys(rows, key1) <= s && k in s && InjectiveOn(rename, s)
    requires KeyThrough(rows, key1, key2, rename)
    ensures Matching(rows, key2, rename(k)) == Matching(rows, key1, k)
  {
    if rows != [] {
      var init := rows[..|rows| - 1];
      var last := rows[|rows| - 1];
      assert rows == init + [last];
      KeysOfPrefix(rows, key1);
      assert KeyThrough(init, key1, key2, rename) by {
        forall i | 0 <= i < |init| ensures key2(init[i]) == rename(key1(init[i])) {
          assert init[i] == rows[i];
        }
      }
      MatchingRelabel(init, key1, key2, rename, s, k);
      assert key2(last) == rename(key1(last));
      assert key2(last) == rename(k) <==> key1(last) == k;
    }
  }

  lemma MapSnoc<K, J>(ks: seq<K>, x: K, rename: K -> J)
    ensures Map(ks + [x], rename) == Map(ks, rename) + [rename(x)]
  {
    var l := Map(ks + [x], rename);
    var r := Map(ks, rename) + [rename(x)];
    assert forall i :: 0 <= i < |l| ==> l[i] == r[i];
  }

  lemma {:induction false} DistinctKeysRelabel<K(!new), J(!new)>(
    rows: seq<Row>, key1: Row -> K, key2: Row -> J, rename: K -> J, s: set<K>)
    requires Keys(rows, key1) <= s && InjectiveOn(rename, s)
    requires KeyThrough(rows, key1, key2, rename)
    ensures DistinctKeys(rows, key2) == Map(DistinctKeys(rows, key1), rename)
  {
    if rows != [] {
      var init := rows[..|rows| - 1];
      var last := rows[|rows| - 1];
      assert rows == init + [last];
      KeysOfPrefix(rows, key1);
      assert KeyThrough(init, key1, key2, rename) by {
        forall i | 0 <= i < |init| ensures key2(init[i]) == rename(key1(init[i])) {
          assert init[i] == rows[i];
        }
      }
      DistinctKeysRelabel(init, key1, key2, rename, s);
      var ks := DistinctKeys(init, key1);
      assert key2(last) == rename(key1(last));
      assert key2(last) in Map(ks, rename) <==> key1(last) in ks by {
        if key2(last) in Map(ks, rename) {
          var i :| 0 <= i < |ks| && Map(ks, rename)[i] == key2(last);
          assert ks[i] in Keys(init, key1);
        }
      }
      MapSnoc(ks, key1(last), rename);
    }
  }

  /**
   * Grouping by a key spelled another way, without merging keys, gives the same
   * lines with the keys renamed, in the same order.
   */
  lemma AggregateRelabel<K(!new), J(!new)>(rows: seq<Row>, key1: Row -> K, key2: Row -> J, rename: K -> J)
    requires InjectiveOn(rename, Keys(rows, key1))
    requires KeyThrough(rows, key1, key2, rename)
    ensures Aggregate(rows, key2) == RelabelAll(Aggregate(rows, key1), rename)
  {
    var s := Keys(rows, key1);
    DistinctKeysRelabel(rows, key1, key2, rename, s);
    var ks := DistinctKeys(rows, key1);
    var l := Aggregate(rows, key2);
    var r := RelabelAll(Aggregate(rows, key1), rename);
    forall i | 0 <= i < |l| ensures l[i] == r[i] {
      MatchingRelabel(rows, key1, key2, rename, s, ks[i]);
    }
  }
}
