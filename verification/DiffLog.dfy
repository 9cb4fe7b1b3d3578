/**
 Keeping a keyed table and an append-only log of its changes in step, by diffing.

 A sync is given the entries `known` that it is responsible for and the list it should find instead.
 It logs every listed entry that differs from `known`, logs the deletion of every old key that is not
 listed, and writes the list into the table in order.  Usernames and group administrators are both
 kept this way; whether the log really replays to the table is decided here once for both.
 */
module DiffLog {

  datatype Change<K, V> = Put(key: K, val: V) | Del(key: K)

  function Change1<K, V>(m: map<K, V>, c: Change<K, V>): map<K, V> {
    match c
    case Put(k, v) => m[k := v]
    case Del(k) => m - {k}
  }

  /** The log applied to m, oldest change first. */
  function Replay<K, V>(m: map<K, V>, log: seq<Change<K, V>>): map<K, V> {
    if log == [] then m
    else Change1(Replay(m, log[..|log| - 1]), log[|log| - 1])
  }

  lemma {:induction false} ReplayConcat<K, V>(m: map<K, V>, a: seq<Change<K, V>>, b: seq<Change<K, V>>)
    ensures Replay(m, a + b) == Replay(Replay(m, a), b)
  {
    if b == [] {
      assert a + b == a;
    } else {
      assert (a + b)[..|a + b| - 1] == a + b[..|b| - 1];
      ReplayConcat(m, a, b[..|b| - 1]);
    }
  }

  function Keys<K, V(==)>(list: seq<(K, V)>): set<K> {
    set e <- list :: e.0
  }

  /** The list written into m in order: the last entry of a key wins. */
  function Claim<K, V>(m: map<K, V>, list: seq<(K, V)>): map<K, V> {
    if list == [] then m
    else
      var (k, v) := list[|list| - 1];
      Claim(m, list[..|list| - 1])[k := v]
  }

  /** What a sync logs for the list. */
  function Puts<K, V(==)>(known: map<K, V>, list: seq<(K, V)>): seq<Change<K, V>> {
    if list == [] then []
    else
      var (k, v) := list[|list| - 1];
      Puts(known, list[..|list| - 1]) + if k in known && known[k] == v then [] else [Put(k, v)]
  }

  /** What a sync logs for the keys that are gone, in whatever order it meets them. */
  function Dels<K, V>(order: seq<K>): seq<Change<K, V>> {
    seq(|order|, i requires 0 <= i < |order| => Del(order[i]))
  }

  /** `order` enumerates `keys`, each key once. */
  ghost predicate Lists<K(!new)>(order: seq<K>, keys: set<K>) {
    && (forall k :: k in order <==> k in keys)
    && (forall i, j :: 0 <= i < j < |order| ==> order[i] != order[j])
  }

  lemma ListsSnoc<K(!new)>(order: seq<K>, keys: set<K>, k: K)
    requires Lists(order, keys) && k !in keys
    ensures Lists(order + [k], keys + {k})
  {
    assert k !in order;
  }

  lemma ListsFront<K(!new)>(order: seq<K>, keys: set<K>)
    requires Lists(order, keys) && order != []
    ensures var last := order[|order| - 1];
      last in keys && Lists(order[..|order| - 1], keys - {last})
  {
    var front, last := order[..|order| - 1], order[|order| - 1];
    assert order == front + [last];
    assert last !in front;
  }

  /** The table after a sync. */
  function Target<K, V(==)>(m: map<K, V>, known: map<K, V>, list: seq<(K, V)>): map<K, V> {
    Claim(m - (known.Keys - Keys(list)), list)
  }

  /** Entries of one table that a sync is responsible for. */
  ghost predicate Part<K(!new), V>(known: map<K, V>, m: map<K, V>) {
    forall k :: k in known ==> k in m && m[k] == known[k]
  }

  // ---------------------------------------------------------------- when the log replays to the table

  /**
   A key that is listed several times ends up as it was before, yet was listed as something else in
   between: the sync logs the detour but not the return.
   */
  ghost predicate SilentReturn<K, V>(known: map<K, V>, list: seq<(K, V)>, k: K) {
    && k in known && k in Keys(list)
    && k in Claim(known, list) && Claim(known, list)[k] == known[k]
    && exists e <- list :: e.0 == k && e.1 != known[k]
  }

  lemma {:induction false} ClaimDomain<K(!new), V>(m: map<K, V>, list: seq<(K, V)>)
    ensures Claim(m, list).Keys == m.Keys + Keys(list)
    ensures forall k :: k in m && k !in Keys(list) ==> Claim(m, list)[k] == m[k]
  {
    if list != [] {
      var front := list[..|list| - 1];
      ClaimDomain(m, front);
      assert list == front + [list[|list| - 1]];
      assert Keys(list) == Keys(front) + {list[|list| - 1].0};
    }
  }

  /** What is claimed does not depend on what was there before. */
  lemma {:induction false} ClaimIndependent<K(!new), V>(m: map<K, V>, m': map<K, V>, list: seq<(K, V)>, k: K)
    requires k in Keys(list)
    ensures k in Claim(m, list) && k in Claim(m', list) && Claim(m, list)[k] == Claim(m', list)[k]
  {
    var front := list[..|list| - 1];
    assert list == front + [list[|list| - 1]];
    if k != list[|list| - 1].0 {
      assert k in Keys(front);
      ClaimIndependent(m, m', front, k);
    }
  }

  /** Removing unlisted keys before or after claiming the list comes to the same. */
  lemma ClaimMinus<K(!new), V>(m: map<K, V>, list: seq<(K, V)>, gone: set<K>)
    requires gone !! Keys(list)
    ensures Claim(m, list) - gone == Claim(m - gone, list)
  {
    ClaimDomain(m, list);
    ClaimDomain(m - gone, list);
    forall k | k in Keys(list)
      ensures Claim(m, list)[k] == Claim(m - gone, list)[k]
    {
      ClaimIndependent(m, m - gone, list, k);
    }
  }

  /** The effect of the logged entries on one key, for any list. */
  lemma {:induction false} ReplayPutsAt<K(!new), V>(m: map<K, V>, known: map<K, V>, list: seq<(K, V)>, k: K)
    requires Part(known, m)
    ensures k in Replay(m, Puts(known, list)) <==> k in m || k in Keys(list)
    ensures k in m && k !in Keys(list) ==> Replay(m, Puts(known, list))[k] == m[k]
    ensures k in Keys(list) ==> k in Claim(m, list)
    ensures k in Keys(list) && k !in known ==> Replay(m, Puts(known, list))[k] == Claim(m, list)[k]
    ensures k in Keys(list) && k in known ==>
      && (Replay(m, Puts(known, list))[k] == known[k] <==> forall e <- list :: e.0 == k ==> e.1 == known[k])
      && (Claim(m, list)[k] != known[k] ==> Replay(m, Puts(known, list))[k] == Claim(m, list)[k])
  {
    ClaimDomain(m, list);
    if list != [] {
      var front := list[..|list| - 1];
      var (j, v) := list[|list| - 1];
      assert list == front + [(j, v)];
      assert Keys(list) == Keys(front) + {j};
      ClaimDomain(m, front);
      ReplayPutsAt(m, known, front, k);
      var puts := Puts(known, front);
      if !(j in known && known[j] == v) {
        assert Puts(known, list) == puts + [Put(j, v)];
        assert (puts + [Put(j, v)])[..|puts|] == puts;
      } else {
        assert Puts(known, list) == puts;
      }
      assert forall e :: e in list <==> e in front || e == (j, v);
    }
  }

  lemma {:induction false} ReplayDels<K(!new), V>(m: map<K, V>, order: seq<K>, keys: set<K>)
    requires Lists(order, keys)
    ensures Replay(m, Dels(order)) == m - keys
  {
    if order == [] {
      assert keys == {};
    } else {
      var front, last := order[..|order| - 1], order[|order| - 1];
      ListsFront(order, keys);
      ReplayDels(m, front, keys - {last});
      assert Dels<K, V>(order)[..|order| - 1] == Dels<K, V>(front);
      assert m - keys == m - (keys - {last}) - {last};
    }
  }

  /** Replaying what one sync logs gives the new table, except at the keys that return silently. */
  lemma SyncReplayAt<K(!new), V>(m: map<K, V>, known: map<K, V>, list: seq<(K, V)>, order: seq<K>, k: K)
    requires Part(known, m) && Lists(order, known.Keys - Keys(list))
    ensures var r, t := Replay(m, Puts(known, list) + Dels(order)), Target(m, known, list);
      && (k in r <==> k in t)
      && (k in r ==> (r[k] == t[k] <==> !SilentReturn(known, list, k)))
  {
    var gone := known.Keys - Keys(list);
    ReplayConcat(m, Puts(known, list), Dels(order));
    ReplayDels(Replay(m, Puts(known, list)), order, gone);
    ReplayPutsAt(m, known, list, k);
    ClaimDomain(m - gone, list);
    if k in Keys(list) {
      ClaimIndependent(m, m - gone, list, k);
      ClaimIndependent(m, known, list, k);
    }
  }

  /**
   The log of a sync replays to the new table if and only if no listed key returns silently to its
   old entry.
   */
  lemma SyncReplays<K(!new), V>(m: map<K, V>, known: map<K, V>, list: seq<(K, V)>, order: seq<K>)
    requires Part(known, m) && Lists(order, known.Keys - Keys(list))
    ensures Replay(m, Puts(known, list) + Dels(order)) == Target(m, known, list)
      <==> forall k <- Keys(list) :: !SilentReturn(known, list, k)
  {
    var r, t := Replay(m, Puts(known, list) + Dels(order)), Target(m, known, list);
    forall k
      ensures k in r <==> k in t
      ensures k in r ==> (r[k] == t[k] <==> !SilentReturn(known, list, k))
    {
      SyncReplayAt(m, known, list, order, k);
    }
    if forall k <- Keys(list) :: !SilentReturn(known, list, k) {
      assert r == t;
    } else {
      var k :| k in Keys(list) && SilentReturn(known, list, k);
      ClaimDomain(m - (known.Keys - Keys(list)), list);
      assert k in t && r[k] != t[k];
    }
  }

  // ---------------------------------------------------------------- lists without repeated keys

  ghost predicate DistinctKeys<K, V>(list: seq<(K, V)>) {
    forall i, j :: 0 <= i < j < |list| ==> list[i].0 != list[j].0
  }

  lemma {:induction false} DistinctClaim<K(!new), V>(m: map<K, V>, list: seq<(K, V)>)
    requires DistinctKeys(list)
    ensures forall e <- list :: e.0 in Claim(m, list) && Claim(m, list)[e.0] == e.1
  {
    if list != [] {
      var front := list[..|list| - 1];
      var last := list[|list| - 1];
      DistinctClaim(m, front);
      forall e | e in list
        ensures e.0 in Claim(m, list) && Claim(m, list)[e.0] == e.1
      {
        var i :| 0 <= i < |list| && list[i] == e;
        if i < |front| {
          assert front[i] == e && e in front && e.0 != last.0;
        }
      }
    }
  }

  /** Without repeated keys nothing returns silently. */
  lemma DistinctIsLoud<K(!new), V>(known: map<K, V>, list: seq<(K, V)>, k: K)
    requires DistinctKeys(list)
    ensures !SilentReturn(known, list, k)
  {
    DistinctClaim(known, list);
  }

  /** Syncing to a list that the table already shows logs nothing. */
  lemma {:induction false} ResyncIsQuiet<K(!new), V>(known: map<K, V>, list: seq<(K, V)>)
    requires forall e <- list :: e.0 in known && known[e.0] == e.1
    ensures Puts(known, list) == []
  {
    if list != [] {
      var front := list[..|list| - 1];
      assert list == front + [list[|list| - 1]];
      ResyncIsQuiet(known, front);
      var (k, v) := list[|list| - 1];
      assert (k, v) in list;
    }
  }
}
