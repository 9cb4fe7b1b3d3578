/**
 Weighted counting over the entries of a map.  A thread table maps thread ids to program
 counters and a handler table maps query ids to continuations; "how many threads wait" and
 "how many fetches are outstanding" are sums of a weight over such a table.
 */
module Counting {

  ghost function Sum<K, P>(table: map<K, P>, weight: P -> nat): nat
    decreases |table|
  {
    if table == map[] then 0
    else
      var k :| k in table;
      weight(table[k]) + Sum(table - {k}, weight)
  }

  /** Any entry can be split off, not only the one `Sum` happens to pick. */
  lemma {:induction false} SumSplit<K, P>(table: map<K, P>, k: K, weight: P -> nat)
    requires k in table
    ensures Sum(table, weight) == weight(table[k]) + Sum(table - {k}, weight)
    decreases |table|
  {
    var p :| p in table && Sum(table, weight) == weight(table[p]) + Sum(table - {p}, weight);
    if p != k {
      SumSplit(table - {p}, k, weight);
      SumSplit(table - {k}, p, weight);
      assert table - {p} - {k} == table - {k} - {p};
    }
  }

  /** Writing one entry moves the sum by the difference of the two weights. */
  lemma SumUpdate<K, P>(table: map<K, P>, k: K, v: P, weight: P -> nat)
    ensures Sum(table[k := v], weight)
         == Sum(table, weight) + weight(v) - (if k in table then weight(table[k]) else 0)
  {
    var t' := table[k := v];
    SumSplit(t', k, weight);
    assert t' - {k} == table - {k};
    if k in table {
      SumSplit(table, k, weight);
    } else {
      assert table - {k} == table;
    }
  }

  /** A sum is zero exactly when every entry weighs nothing. */
  lemma {:induction false} SumZero<K, P>(table: map<K, P>, weight: P -> nat)
    ensures Sum(table, weight) == 0 <==> forall k :: k in table ==> weight(table[k]) == 0
    decreases |table|
  {
    if table != map[] {
      var k :| k in table;
      SumSplit(table, k, weight);
      SumZero(table - {k}, weight);
      assert forall j :: j in table ==> j == k || j in table - {k};
    }
  }

  /** If each entry may gain at most its `gain`, the whole table gains at most the total gain. */
  lemma {:induction false} SumGain<K, P>(a: map<K, P>, b: map<K, P>, weight: P -> nat, gain: P -> nat)
    requires a.Keys == b.Keys
    requires forall k :: k in a ==> weight(b[k]) <= weight(a[k]) + gain(a[k])
    ensures Sum(b, weight) <= Sum(a, weight) + Sum(a, gain)
    decreases |a|
  {
    if a == map[] {
      assert b == map[];
    } else {
      var k :| k in a;
      SumSplit(a, k, weight);
      SumSplit(a, k, gain);
      SumSplit(b, k, weight);
      SumGain(a - {k}, b - {k}, weight, gain);
    }
  }

  /** A sum of 0/1 weights never exceeds the number of entries, and is smaller if one weighs 0. */
  lemma {:induction false} SumAtMostSize<K, P>(table: map<K, P>, weight: P -> nat)
    requires forall k :: k in table ==> weight(table[k]) <= 1
    ensures Sum(table, weight) <= |table|
    ensures (exists k :: k in table && weight(table[k]) == 0) ==> Sum(table, weight) < |table|
    decreases |table|
  {
    if table != map[] {
      var k :| k in table && ((exists j :: j in table && weight(table[j]) == 0) ==> weight(table[k]) == 0);
      SumSplit(table, k, weight);
      SumAtMostSize(table - {k}, weight);
      assert |table - {k}| == |table| - 1;
    }
  }

  /** A table whose entries weigh at most two each weighs at most twice its size. */
  lemma {:induction false} SumAtMostTwice<K, P>(table: map<K, P>, weight: P -> nat)
    requires forall k :: k in table ==> weight(table[k]) <= 2
    ensures Sum(table, weight) <= 2 * |table|
    decreases |table|
  {
    if table != map[] {
      var k :| k in table;
      SumSplit(table, k, weight);
      SumAtMostTwice(table - {k}, weight);
      assert |table - {k}| == |table| - 1;
    }
  }

  /** The first n natural numbers. */
  function Below(n: nat): (s: set<nat>)
    ensures |s| == n
    ensures forall k: nat :: k in s <==> k < n
  {
    if n == 0 then {} else Below(n - 1) + {n - 1}
  }

  function Elements(s: seq<nat>): (e: set<nat>)
    ensures forall k: nat :: k in e <==> k in s
  {
    set k | k in s
  }

  lemma {:induction false} DistinctSize(s: seq<nat>)
    requires forall i, j :: 0 <= i < j < |s| ==> s[i] != s[j]
    ensures |Elements(s)| == |s|
  {
    if s == [] {
      assert Elements(s) == {};
    } else {
      var front, last := s[..|s| - 1], s[|s| - 1];
      DistinctSize(front);
      assert s == front + [last];
      assert Elements(s) == Elements(front) + {last};
    }
  }

  lemma {:induction false} SubsetSize<T>(a: set<T>, b: set<T>)
    requires a <= b
    ensures |a| <= |b|
  {
    if a != {} {
      var x :| x in a;
      SubsetSize(a - {x}, b - {x});
    }
  }
}
