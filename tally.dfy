/**
 * Python's `Counter` and `defaultdict(int)` as the aggregator uses them: an insertion-ordered
 * table of keys with non-negative counts, where a missing key reads as 0 and incrementing a
 * missing key appends it at the end. Insertion order matters: `Counter.most_common(n)` and
 * `sorted(items, key=value, reverse=True)[:n]` are stable, so equal counts keep first-seen order.
 */
module Tally {

  datatype Entry<K> = Entry(key: K, value: nat)

  ghost predicate DistinctKeys<K>(t: seq<Entry<K>>) {
    forall i, j :: 0 <= i < j < |t| ==> t[i].key != t[j].key
  }

  ghost function Keys<K>(t: seq<Entry<K>>): set<K> {
    set i | 0 <= i < |t| :: t[i].key
  }

  /** `counter[k]`: the count of `k`, 0 when absent. */
  function Get<K(==)>(t: seq<Entry<K>>, k: K): nat {
    if |t| == 0 then 0 else if t[0].key == k then t[0].value else Get(t[1..], k)
  }

  /** `sum(counter.values())` */
  function Total<K>(t: seq<Entry<K>>): nat {
    if |t| == 0 then 0 else t[0].value + Total(t[1..])
  }

  lemma KeysCons<K>(t: seq<Entry<K>>)
    requires |t| > 0
    ensures Keys(t) == {t[0].key} + Keys(t[1..])
  {
    forall x | x in Keys(t) ensures x in {t[0].key} + Keys(t[1..]) {
      var i :| 0 <= i < |t| && t[i].key == x;
      if i > 0 { assert t[1..][i - 1].key == x; }
    }
    forall x | x in Keys(t[1..]) ensures x in Keys(t) {
      var i :| 0 <= i < |t[1..]| && t[1..][i].key == x;
      assert t[i + 1].key == x;
    }
  }

  lemma {:induction false} GetAbsent<K>(t: seq<Entry<K>>, k: K)
    requires k !in Keys(t)
    ensures Get(t, k) == 0
  {
    if |t| > 0 {
      KeysCons(t);
      GetAbsent(t[1..], k);
    }
  }

  /** Dropping the first entry of a table with distinct keys leaves distinct keys without that key. */
  lemma TailDistinct<K>(t: seq<Entry<K>>)
    requires DistinctKeys(t) && |t| > 0
    ensures DistinctKeys(t[1..])
    ensures t[0].key !in Keys(t[1..])
  {
    forall i, j | 0 <= i < j < |t[1..]| ensures t[1..][i].key != t[1..][j].key {
      assert t[1..][i] == t[i + 1] && t[1..][j] == t[j + 1];
    }
    forall i | 0 <= i < |t[1..]| ensures t[1..][i].key != t[0].key {
      assert t[1..][i] == t[i + 1];
    }
  }

  /** `counter[k] += d`: the count of `k` grows by `d`, no other count changes, the grand total grows by `d`. */
  function Add<K(==,!new)>(t: seq<Entry<K>>, k: K, d: nat): (r: seq<Entry<K>>)
    ensures Get(r, k) == Get(t, k) + d
    ensures forall j :: j != k ==> Get(r, j) == Get(t, j)
    ensures Total(r) == Total(t) + d
  {
    if |t| == 0 then [Entry(k, d)]
    else if t[0].key == k then
      var r := [Entry(k, t[0].value + d)] + t[1..];
      assert r[1..] == t[1..];
      r
    else
      var rest := Add(t[1..], k, d);
      var r := [t[0]] + rest;
      assert r[1..] == rest;
      r
  }

  /** Incrementing either updates an entry in place, keeping every key where it was, or appends `k`. */
  lemma {:induction false} AddShape<K(!new)>(t: seq<Entry<K>>, k: K, d: nat)
    ensures |Add(t, k, d)| == |t| || Add(t, k, d) == t + [Entry(k, d)]
    ensures |Add(t, k, d)| == |t| ==> forall i :: 0 <= i < |t| ==> Add(t, k, d)[i].key == t[i].key
  {
    if |t| > 0 && t[0].key != k {
      AddShape(t[1..], k, d);
      var r := Add(t, k, d);
      assert r[1..] == Add(t[1..], k, d);
      assert t == [t[0]] + t[1..];
      if |r| == |t| {
        forall i | 0 <= i < |t| ensures r[i].key == t[i].key {
          if i > 0 {
            assert r[i] == r[1..][i - 1] && t[i] == t[1..][i - 1];
          }
        }
      }
    }
  }

  /** Incrementing adds `k` to the key set, and appends it exactly when it was absent. */
  lemma {:induction false} AddKeys<K(!new)>(t: seq<Entry<K>>, k: K, d: nat)
    ensures Keys(Add(t, k, d)) == Keys(t) + {k}
    ensures k !in Keys(t) <==> Add(t, k, d) == t + [Entry(k, d)]
  {
    var r := Add(t, k, d);
    AddShape(t, k, d);
    if |t| == 0 {
      KeysCons(r);
    } else if t[0].key == k {
      KeysCons(t);
      KeysCons(r);
      assert r[1..] == t[1..];
      assert t[0].key in Keys(t);
      assert |r| == |t|;
    } else {
      AddKeys(t[1..], k, d);
      KeysCons(t);
      KeysCons(r);
      assert r[1..] == Add(t[1..], k, d);
      assert t == [t[0]] + t[1..];
    }
  }

  /** Incrementing keeps the keys distinct. */
  lemma {:induction false} AddDistinct<K(!new)>(t: seq<Entry<K>>, k: K, d: nat)
    requires DistinctKeys(t)
    ensures DistinctKeys(Add(t, k, d))
  {
    var r := Add(t, k, d);
    if |t| > 0 && t[0].key != k {
      TailDistinct(t);
      AddDistinct(t[1..], k, d);
      AddKeys(t[1..], k, d);
      var rest := Add(t[1..], k, d);
      assert r[1..] == rest;
      forall i, j | 0 <= i < j < |r| ensures r[i].key != r[j].key {
        if i == 0 {
          assert r[j] == rest[j - 1];
          assert r[j].key in Keys(rest);
        } else {
          assert r[i] == rest[i - 1] && r[j] == rest[j - 1];
        }
      }
    } else if |t| > 0 {
      AddShape(t, k, d);
      forall i, j | 0 <= i < j < |r| ensures r[i].key != r[j].key {
        assert r[i].key == t[i].key && r[j].key == t[j].key;
      }
    }
  }

  /** With distinct keys the table's length is the number of distinct keys (`len(counter)`). */
  lemma {:induction false} LengthIsKeyCount<K>(t: seq<Entry<K>>)
    requires DistinctKeys(t)
    ensures |Keys(t)| == |t|
  {
    if |t| > 0 {
      KeysCons(t);
      TailDistinct(t);
      LengthIsKeyCount(t[1..]);
    }
  }

  /** With distinct keys, the count read for an entry's key is that entry's value. */
  lemma {:induction false} GetAt<K>(t: seq<Entry<K>>, i: nat)
    requires DistinctKeys(t) && i < |t|
    ensures Get(t, t[i].key) == t[i].value
  {
    if i > 0 {
      assert t[0].key != t[i].key;
      assert t[1..][i - 1] == t[i];
      TailDistinct(t);
      GetAt(t[1..], i - 1);
    }
  }

  // ---------------------------------------------------------------------------------------
  // Stable ranking by value, descending

  /** Entry `i` comes before entry `j` in a stable descending sort: larger value, or equal value and seen first. */
  ghost predicate Outranks<K>(t: seq<Entry<K>>, i: nat, j: nat)
    requires i < |t| && j < |t|
  {
    t[i].value > t[j].value || (t[i].value == t[j].value && i < j)
  }

  /** `r` lists indices of `t` in stable descending order. */
  ghost predicate Ranked<K>(t: seq<Entry<K>>, r: seq<nat>) {
    && (forall k :: 0 <= k < |r| ==> r[k] < |t|)
    && (forall a, b :: 0 <= a < b < |r| ==> Outranks(t, r[a], r[b]))
  }

  /** Places index `i` before the first ranked index whose value does not exceed `t[i].value`. */
  function Insert<K>(t: seq<Entry<K>>, i: nat, s: seq<nat>): (r: seq<nat>)
    requires i < |t|
    requires forall k :: 0 <= k < |s| ==> s[k] < |t|
    ensures |r| == |s| + 1
    ensures forall x :: x in r <==> x == i || x in s
  {
    if |s| == 0 || t[s[0]].value <= t[i].value then [i] + s
    else [s[0]] + Insert(t, i, s[1..])
  }

  /** Inserting an index that precedes every ranked one keeps the ranking. */
  lemma {:induction false} InsertRanked<K>(t: seq<Entry<K>>, i: nat, s: seq<nat>)
    requires i < |t|
    requires forall k :: 0 <= k < |s| ==> i < s[k] < |t|
    requires Ranked(t, s)
    ensures Ranked(t, Insert(t, i, s))
  {
    var r := Insert(t, i, s);
    if |s| == 0 || t[s[0]].value <= t[i].value {
      assert r == [i] + s;
      forall a, b | 0 <= a < b < |r| ensures Outranks(t, r[a], r[b]) {
        assert r[b] == s[b - 1];
        if a == 0 {
          if b > 1 {
            assert Outranks(t, s[0], s[b - 1]);
          }
        } else {
          assert r[a] == s[a - 1];
        }
      }
    } else {
      var tail := s[1..];
      assert Ranked(t, tail) by {
        forall a, b | 0 <= a < b < |tail| ensures Outranks(t, tail[a], tail[b]) {
          assert tail[a] == s[a + 1] && tail[b] == s[b + 1];
        }
      }
      InsertRanked(t, i, tail);
      var rest := Insert(t, i, tail);
      assert r == [s[0]] + rest;
      forall a, b | 0 <= a < b < |r| ensures Outranks(t, r[a], r[b]) {
        assert r[b] == rest[b - 1];
        if a == 0 {
          HeadOutranksInserted(t, i, s, rest[b - 1]);
        } else {
          assert r[a] == rest[a - 1];
        }
      }
    }
  }

  /** The first ranked index outranks `i` (when its value is larger) and every later ranked index. */
  lemma HeadOutranksInserted<K>(t: seq<Entry<K>>, i: nat, s: seq<nat>, x: nat)
    requires i < |t| && |s| > 0
    requires forall k :: 0 <= k < |s| ==> i < s[k] < |t|
    requires Ranked(t, s)
    requires t[s[0]].value > t[i].value
    requires x == i || x in s[1..]
    ensures x < |t| && Outranks(t, s[0], x)
  {
    if x != i {
      var q :| 0 <= q < |s[1..]| && s[1..][q] == x;
      assert s[q + 1] == x;
    }
  }

  /** The indices `i .. |t|-1` in stable descending order (insertion sort from the back). */
  function RankFrom<K>(t: seq<Entry<K>>, i: nat): (r: seq<nat>)
    requires i <= |t|
    ensures |r| == |t| - i
    ensures forall k :: 0 <= k < |r| ==> i <= r[k] < |t|
    ensures forall j :: i <= j < |t| ==> j in r
    ensures Ranked(t, r)
    decreases |t| - i
  {
    if i == |t| then []
    else
      var rest := RankFrom(t, i + 1);
      var r := Insert(t, i, rest);
      InsertRanked(t, i, rest);
      assert forall k :: 0 <= k < |r| ==> i <= r[k] < |t| by {
        forall k | 0 <= k < |r| ensures i <= r[k] < |t| {
          assert r[k] in r;
        }
      }
      r
  }

  /**
   * The indices of the `n` highest-ranked entries, in rank order: at most `n` of them, ranked,
   * and no entry left out outranks any entry kept.
   */
  function TopIndices<K>(t: seq<Entry<K>>, n: nat): (ix: seq<nat>)
    ensures |ix| == if n < |t| then n else |t|
    ensures Ranked(t, ix)
    ensures forall j, k :: 0 <= j < |t| && j !in ix && 0 <= k < |ix| ==> Outranks(t, ix[k], j)
  {
    var r := RankFrom(t, 0);
    var m := if n < |t| then n else |t|;
    var ix := r[..m];
    assert Ranked(t, ix) by {
      forall a, b | 0 <= a < b < |ix| ensures Outranks(t, ix[a], ix[b]) {
        assert ix[a] == r[a] && ix[b] == r[b];
      }
    }
    forall j, k | 0 <= j < |t| && j !in ix && 0 <= k < |ix| ensures Outranks(t, ix[k], j) {
      assert j in r;
      var p :| 0 <= p < |r| && r[p] == j;
      forall q | 0 <= q < m ensures r[q] != j {
        assert r[q] == ix[q];
        assert ix[q] in ix;
      }
      assert m <= p;
      assert r[k] == ix[k];
    }
    ix
  }

  /** `most_common(n)`: the entries at `TopIndices(t, n)`, so their values never increase. */
  function Top<K>(t: seq<Entry<K>>, n: nat): (r: seq<Entry<K>>)
    ensures |r| == |TopIndices(t, n)|
    ensures forall k :: 0 <= k < |r| ==> r[k] == t[TopIndices(t, n)[k]]
    ensures forall a, b :: 0 <= a < b < |r| ==> r[a].value >= r[b].value
  {
    var ix := TopIndices(t, n);
    var r := seq(|ix|, k requires 0 <= k < |ix| => t[ix[k]]);
    assert forall a, b :: 0 <= a < b < |r| ==> Outranks(t, ix[a], ix[b]);
    r
  }
}
