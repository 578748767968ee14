/** The relational pieces the report queries are built from: GROUP BY with
    SUM or COUNT(*), ORDER BY <aggregate> DESC and LIMIT, over the rows of a
    join held in a sequence. */
module Aggregates {
  import opened Records

  /** One output row of a GROUP BY: the group key and its aggregate. */
  datatype Group<K> = Group(key: K, total: int)

  function TotalOf<K>(g: Group<K>): int {
    g.total
  }

  /** The value COUNT(*) adds for every row. */
  function One<T>(x: T): int {
    1
  }

  /** The grouping column of the joined rows. */
  function KeysOf<T, K>(rows: seq<T>, key: T -> K): (ks: seq<K>)
    ensures |ks| == |rows|
    ensures forall i :: 0 <= i < |rows| ==> ks[i] == key(rows[i])
  {
    seq(|rows|, i requires 0 <= i < |rows| => key(rows[i]))
  }

  /** SUM(val) over the rows whose key is k. */
  function SumWhere<T, K(==)>(rows: seq<T>, key: T -> K, val: T -> int, k: K): int
    decreases |rows|
  {
    if rows == [] then 0
    else
      var last := rows[|rows| - 1];
      SumWhere(rows[..|rows| - 1], key, val, k) + (if key(last) == k then val(last) else 0)
  }

  /** SUM(f) over every element. */
  function SumBy<T>(xs: seq<T>, f: T -> int): int
    decreases |xs|
  {
    if xs == [] then 0 else SumBy(xs[..|xs| - 1], f) + f(xs[|xs| - 1])
  }

  /** One group row per key of ks, in the order of ks. */
  function GroupsFor<T, K(==)>(ks: seq<K>, rows: seq<T>, key: T -> K, val: T -> int): (gs: seq<Group<K>>)
    ensures |gs| == |ks|
    ensures forall i :: 0 <= i < |ks| ==> gs[i] == Group(ks[i], SumWhere(rows, key, val, ks[i]))
    decreases |ks|
  {
    if ks == [] then []
    else GroupsFor(ks[..|ks| - 1], rows, key, val) + [Group(ks[|ks| - 1], SumWhere(rows, key, val, ks[|ks| - 1]))]
  }

  /** `SELECT key, SUM(val) ... GROUP BY key`, groups in order of first appearance. */
  function GroupSum<T, K(==,!new)>(rows: seq<T>, key: T -> K, val: T -> int): seq<Group<K>> {
    GroupsFor(Distinct(KeysOf(rows, key)), rows, key, val)
  }

  /** `SELECT key, COUNT(*) ... GROUP BY key`. */
  function GroupCount<T, K(==,!new)>(rows: seq<T>, key: T -> K): seq<Group<K>> {
    GroupSum(rows, key, One)
  }

  /** Every key of the join has a group. */
  lemma GroupsCoverKeys<T, K(!new)>(rows: seq<T>, key: T -> K, val: T -> int, i: nat)
    requires i < |rows|
    ensures exists j :: 0 <= j < |GroupSum(rows, key, val)| && GroupSum(rows, key, val)[j].key == key(rows[i])
  {
    var ks := Distinct(KeysOf(rows, key));
    assert KeysOf(rows, key)[i] in ks;
    var j :| 0 <= j < |ks| && ks[j] == key(rows[i]);
    assert GroupSum(rows, key, val)[j].key == key(rows[i]);
  }

  /** Every group is a key of the join, holding the sum of the rows with that key. */
  lemma GroupsAreKeys<T, K(!new)>(rows: seq<T>, key: T -> K, val: T -> int, g: Group<K>)
    requires g in GroupSum(rows, key, val)
    ensures exists i :: 0 <= i < |rows| && key(rows[i]) == g.key
    ensures g.total == SumWhere(rows, key, val, g.key)
  {
    var ks := Distinct(KeysOf(rows, key));
    var gs := GroupSum(rows, key, val);
    var j :| 0 <= j < |gs| && gs[j] == g;
    assert ks[j] in KeysOf(rows, key);
  }

  /** The key of every joined row has its group, holding that key's sum. */
  lemma GroupPresent<T, K(!new)>(rows: seq<T>, key: T -> K, val: T -> int, i: nat)
    requires i < |rows|
    ensures Group(key(rows[i]), SumWhere(rows, key, val, key(rows[i]))) in GroupSum(rows, key, val)
  {
    GroupsCoverKeys(rows, key, val, i);
    var gs := GroupSum(rows, key, val);
    var j :| 0 <= j < |gs| && gs[j].key == key(rows[i]);
    GroupsAreKeys(rows, key, val, gs[j]);
  }

  /** No two groups share a key. */
  lemma GroupKeysDistinct<T, K(!new)>(rows: seq<T>, key: T -> K, val: T -> int)
    ensures forall j, l :: 0 <= j < l < |GroupSum(rows, key, val)| ==>
      GroupSum(rows, key, val)[j].key != GroupSum(rows, key, val)[l].key
  {
    var ks := Distinct(KeysOf(rows, key));
    var gs := GroupSum(rows, key, val);
    forall j, l | 0 <= j < l < |gs| ensures gs[j].key != gs[l].key {
      assert gs[j].key == ks[j] && gs[l].key == ks[l];
    }
  }

  /** SUM over two batches of rows is the sum of their sums. */
  lemma {:induction false} SumWhereAppend<T, K>(a: seq<T>, b: seq<T>, key: T -> K, val: T -> int, k: K)
    ensures SumWhere(a + b, key, val, k) == SumWhere(a, key, val, k) + SumWhere(b, key, val, k)
    decreases |b|
  {
    if b != [] {
      assert (a + b)[..|a + b| - 1] == a + b[..|b| - 1];
      assert (a + b)[|a + b| - 1] == b[|b| - 1];
      SumWhereAppend(a, b[..|b| - 1], key, val, k);
    } else {
      assert a + b == a;
    }
  }

  /** A key that never occurs sums to nothing. */
  lemma {:induction false} SumWhereAbsent<T, K>(rows: seq<T>, key: T -> K, val: T -> int, k: K)
    requires forall i :: 0 <= i < |rows| ==> key(rows[i]) != k
    ensures SumWhere(rows, key, val, k) == 0
    decreases |rows|
  {
    if rows != [] {
      SumWhereAbsent(rows[..|rows| - 1], key, val, k);
    }
  }

  /** A group formed by COUNT(*) over an inner join holds at least one row. */
  lemma {:induction false} CountPositive<T, K>(rows: seq<T>, key: T -> K, k: K)
    requires exists i :: 0 <= i < |rows| && key(rows[i]) == k
    ensures SumWhere(rows, key, One, k) >= 1
    decreases |rows|
  {
    var front := rows[..|rows| - 1];
    if key(rows[|rows| - 1]) != k {
      var i :| 0 <= i < |rows| && key(rows[i]) == k;
      assert front[i] == rows[i];
      CountPositive(front, key, k);
    } else {
      CountNonNegative(front, key, k);
    }
  }

  lemma {:induction false} CountNonNegative<T, K>(rows: seq<T>, key: T -> K, k: K)
    ensures SumWhere(rows, key, One, k) >= 0
    decreases |rows|
  {
    if rows != [] {
      CountNonNegative(rows[..|rows| - 1], key, k);
    }
  }

  /** Every COUNT(*) group is non-empty. */
  lemma GroupCountPositive<T, K(!new)>(rows: seq<T>, key: T -> K)
    ensures forall g :: g in GroupCount(rows, key) ==> g.total >= 1
  {
    forall g | g in GroupCount(rows, key) ensures g.total >= 1 {
      GroupsAreKeys(rows, key, One, g);
      CountPositive(rows, key, g.key);
    }
  }

  lemma {:induction false} SumByAppend<T>(a: seq<T>, b: seq<T>, f: T -> int)
    ensures SumBy(a + b, f) == SumBy(a, f) + SumBy(b, f)
    decreases |b|
  {
    if b != [] {
      var b' := b[..|b| - 1];
      assert (a + b)[..|a + b| - 1] == a + b';
      assert (a + b)[|a + b| - 1] == b[|b| - 1];
      SumByAppend(a, b', f);
      assert SumBy(a + b, f) == SumBy(a + b', f) + f(b[|b| - 1]);
    } else {
      assert a + b == a;
    }
  }

  /** Adding one row to the join adds its value to exactly the group of its key. */
  lemma {:induction false} GroupsForPush<T, K>(ks: seq<K>, rows: seq<T>, r: T, key: T -> K, val: T -> int)
    requires NoDuplicates(ks)
    ensures SumBy(GroupsFor(ks, rows + [r], key, val), TotalOf) ==
      SumBy(GroupsFor(ks, rows, key, val), TotalOf) + (if key(r) in ks then val(r) else 0)
    decreases |ks|
  {
    if ks != [] {
      var front := ks[..|ks| - 1];
      assert NoDuplicates(front);
      assert key(r) in ks <==> key(r) in front || key(r) == ks[|ks| - 1];
      assert (rows + [r])[..|rows|] == rows;
      GroupsForPush(front, rows, r, key, val);
    }
  }

  /** The group aggregates add up to the aggregate over the whole join. */
  lemma {:induction false} GroupSumTotal<T, K(!new)>(rows: seq<T>, key: T -> K, val: T -> int)
    ensures SumBy(GroupSum(rows, key, val), TotalOf) == SumBy(rows, val)
    decreases |rows|
  {
    if rows != [] {
      var front := rows[..|rows| - 1];
      var r := rows[|rows| - 1];
      assert rows == front + [r];
      assert KeysOf(rows, key)[..|rows| - 1] == KeysOf(front, key);
      var ks := Distinct(KeysOf(front, key));
      GroupSumTotal(front, key, val);
      GroupsForPush(ks, front, r, key, val);
      if key(r) !in ks {
        assert forall i :: 0 <= i < |front| ==> key(front[i]) != key(r) by {
          forall i | 0 <= i < |front| ensures key(front[i]) != key(r) {
            assert KeysOf(front, key)[i] in ks;
          }
        }
        SumWhereAbsent(front, key, val, key(r));
        assert (ks + [key(r)])[..|ks|] == ks;
      }
    }
  }

  /** COUNT(*) adds one per row. */
  lemma {:induction false} SumOfOnes<T>(rows: seq<T>)
    ensures SumBy(rows, One) == |rows|
    decreases |rows|
  {
    if rows != [] {
      SumOfOnes(rows[..|rows| - 1]);
    }
  }

  // ---------------------------------------------------------------- ORDER BY

  predicate NonIncreasing<T>(xs: seq<T>, f: T -> int) {
    forall i, j :: 0 <= i < j < |xs| ==> f(xs[i]) >= f(xs[j])
  }

  /** Places x in front of the first element it is not smaller than. */
  function Insert<T>(x: T, ys: seq<T>, f: T -> int): (r: seq<T>)
    ensures multiset(r) == multiset([x] + ys)
    decreases |ys|
  {
    if ys == [] || f(x) >= f(ys[0]) then [x] + ys
    else
      assert ys == [ys[0]] + ys[1..];
      [ys[0]] + Insert(x, ys[1..], f)
  }

  /** Inserting below a bound b keeps every element below b. */
  lemma {:induction false} InsertBounded<T>(x: T, ys: seq<T>, f: T -> int, b: int)
    requires f(x) <= b
    requires forall k :: 0 <= k < |ys| ==> f(ys[k]) <= b
    ensures forall k :: 0 <= k < |Insert(x, ys, f)| ==> f(Insert(x, ys, f)[k]) <= b
    decreases |ys|
  {
    if ys != [] && f(x) < f(ys[0]) {
      InsertBounded(x, ys[1..], f, b);
      assert forall k :: 1 <= k < |Insert(x, ys, f)| ==> Insert(x, ys, f)[k] == Insert(x, ys[1..], f)[k - 1];
    }
  }

  lemma ConsSorted<T>(y: T, rest: seq<T>, f: T -> int)
    requires NonIncreasing(rest, f)
    requires forall k :: 0 <= k < |rest| ==> f(rest[k]) <= f(y)
    ensures NonIncreasing([y] + rest, f)
  {
    var r := [y] + rest;
    forall i, j | 0 <= i < j < |r| ensures f(r[i]) >= f(r[j]) {
      assert r[j] == rest[j - 1];
      if i > 0 {
        assert r[i] == rest[i - 1];
      }
    }
  }

  lemma {:induction false} InsertSorted<T>(x: T, ys: seq<T>, f: T -> int)
    requires NonIncreasing(ys, f)
    ensures NonIncreasing(Insert(x, ys, f), f)
    decreases |ys|
  {
    if ys == [] || f(x) >= f(ys[0]) {
      forall k | 0 <= k < |ys| ensures f(ys[k]) <= f(x) {
        assert f(ys[k]) <= f(ys[0]);
      }
      ConsSorted(x, ys, f);
    } else {
      var tail := ys[1..];
      assert forall k :: 0 <= k < |tail| ==> tail[k] == ys[k + 1];
      InsertSorted(x, tail, f);
      InsertBounded(x, tail, f, f(ys[0]));
      ConsSorted(ys[0], Insert(x, tail, f), f);
    }
  }

  lemma {:induction false} InsertSum<T>(x: T, ys: seq<T>, f: T -> int)
    ensures SumBy(Insert(x, ys, f), f) == f(x) + SumBy(ys, f)
    decreases |ys|
  {
    SumByAppend([x], ys, f);
    if ys != [] && f(x) < f(ys[0]) {
      assert ys == [ys[0]] + ys[1..];
      InsertSum(x, ys[1..], f);
      SumByAppend([ys[0]], Insert(x, ys[1..], f), f);
      SumByAppend([ys[0]], ys[1..], f);
    }
  }

  /** `ORDER BY f DESC`, stable: rows with equal f keep the order the join
      produced them in. */
  function SortDesc<T>(xs: seq<T>, f: T -> int): (r: seq<T>)
    ensures multiset(r) == multiset(xs)
    decreases |xs|
  {
    if xs == [] then []
    else
      assert xs == [xs[0]] + xs[1..];
      Insert(xs[0], SortDesc(xs[1..], f), f)
  }

  lemma {:induction false} SortDescSorted<T>(xs: seq<T>, f: T -> int)
    ensures NonIncreasing(SortDesc(xs, f), f)
    decreases |xs|
  {
    if xs != [] {
      SortDescSorted(xs[1..], f);
      InsertSorted(xs[0], SortDesc(xs[1..], f), f);
    }
  }

  /** Sorting neither adds nor loses any amount of the aggregate. */
  lemma {:induction false} SortDescSum<T>(xs: seq<T>, f: T -> int)
    ensures SumBy(SortDesc(xs, f), f) == SumBy(xs, f)
    decreases |xs|
  {
    if xs != [] {
      assert xs == [xs[0]] + xs[1..];
      SortDescSum(xs[1..], f);
      InsertSum(xs[0], SortDesc(xs[1..], f), f);
      SumByAppend([xs[0]], xs[1..], f);
    }
  }

  // ---------------------------------------------------------------- LIMIT

  /** `LIMIT n`: the first n rows, or all of them when there are fewer. */
  function Limit<T>(xs: seq<T>, n: nat): (r: seq<T>)
    ensures |r| <= n && |r| <= |xs|
    ensures |r| == n || r == xs
    ensures r == xs[..|r|]
  {
    if |xs| <= n then xs else xs[..n]
  }

  /** A prefix of rows in descending order is still in descending order. */
  lemma LimitNonIncreasing<T>(xs: seq<T>, n: nat, f: T -> int)
    requires NonIncreasing(xs, f)
    ensures NonIncreasing(Limit(xs, n), f)
  {
    var r := Limit(xs, n);
    forall i, j | 0 <= i < j < |r| ensures f(r[i]) >= f(r[j]) {
      assert r[i] == xs[i] && r[j] == xs[j];
    }
  }

  /** A LIMIT over rows in descending order keeps the largest ones: a row
      left out is never larger than a row kept. */
  lemma LimitLargest<T>(xs: seq<T>, n: nat, f: T -> int)
    requires NonIncreasing(xs, f)
    ensures multiset(Limit(xs, n)) <= multiset(xs)
    ensures forall g, h :: g in Limit(xs, n) && h in xs && h !in Limit(xs, n) ==> f(h) <= f(g)
  {
    var r := Limit(xs, n);
    assert xs == r + xs[|r|..];
    forall g, h | g in r && h in xs && h !in r ensures f(h) <= f(g) {
      var i :| 0 <= i < |r| && r[i] == g;
      var j :| 0 <= j < |xs| && xs[j] == h;
      assert xs[i] == g;
    }
  }

  /** Without LIMIT, every group is shown. */
  lemma SortedRowsAreGroups<T>(xs: seq<T>, f: T -> int)
    ensures forall g :: g in SortDesc(xs, f) ==> g in xs
    ensures forall g :: g in xs ==> g in SortDesc(xs, f)
  {
    var s := SortDesc(xs, f);
    forall g | g in s ensures g in xs {
      assert g in multiset(s);
    }
    forall g | g in xs ensures g in s {
      assert g in multiset(xs);
    }
  }

  /** Everything the sort keeps: order, rows and total. */
  lemma SortDescFacts<T>(xs: seq<T>, f: T -> int)
    ensures NonIncreasing(SortDesc(xs, f), f)
    ensures forall g :: g in SortDesc(xs, f) ==> g in xs
    ensures forall g :: g in xs ==> g in SortDesc(xs, f)
    ensures SumBy(SortDesc(xs, f), f) == SumBy(xs, f)
  {
    SortDescSorted(xs, f);
    SortDescSum(xs, f);
    SortedRowsAreGroups(xs, f);
  }

  // ---------------------------------------------------------------- queries

  /** `ORDER BY <aggregate> DESC` over the groups: the same groups, in
      descending order, with the same grand total. */
  function OrderedGroups<K(!new)>(gs: seq<Group<K>>): (r: seq<Group<K>>)
    ensures NonIncreasing(r, TotalOf)
    ensures multiset(r) == multiset(gs)
    ensures forall g :: g in r ==> g in gs
    ensures forall g :: g in gs ==> g in r
    ensures SumBy(r, TotalOf) == SumBy(gs, TotalOf)
  {
    SortDescFacts(gs, TotalOf);
    SortDesc(gs, TotalOf)
  }

  /** `ORDER BY <aggregate> DESC LIMIT n`: the n groups with the largest
      aggregate (all of them when there are at most n), in descending order;
      no group left out has a larger aggregate than one kept. */
  function TopGroups<K(!new)>(gs: seq<Group<K>>, n: nat): (r: seq<Group<K>>)
    ensures |r| == if |gs| <= n then |gs| else n
    ensures r == OrderedGroups(gs)[..|r|]
    ensures NonIncreasing(r, TotalOf)
    ensures multiset(r) <= multiset(gs)
    ensures forall g :: g in r ==> g in gs
    ensures |gs| <= n ==> multiset(r) == multiset(gs)
    ensures forall g, h :: g in r && h in gs && h !in r ==> h.total <= g.total
  {
    LimitNonIncreasing(OrderedGroups(gs), n, TotalOf);
    LimitLargest(OrderedGroups(gs), n, TotalOf);
    Limit(OrderedGroups(gs), n)
  }
}
