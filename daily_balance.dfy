/**
 * The balance chart of script.js: the address's transactions are sorted by
 * time in place, a running sum of their net satoshi changes is written into a
 * map keyed by day, and the chart gets the days in ascending order with each
 * day's balance in BTC.
 *
 * Calendar dates are abstracted to day numbers: a Unix time in seconds falls
 * on day `time / 86400` (rounded down, as the UTC date of
 * `toISOString().slice(0, 10)` is).
 */
module DailyBalance {

  /** A transaction: its Unix time in seconds and `result`, the address's net
      change in satoshi. */
  datatype Tx = Tx(time: int, result: int)

  const SecondsPerDay: int := 86400
  const SatoshisPerBtc: real := 100000000.0

  function DayKey(time: int): int
  {
    time / SecondsPerDay
  }

  lemma DayKeyMonotone(t1: int, t2: int)
    requires t1 <= t2
    ensures DayKey(t1) <= DayKey(t2)
  {
  }

  ghost predicate SortedByTime(s: seq<Tx>)
  {
    forall i, j :: 0 <= i < j < |s| ==> s[i].time <= s[j].time
  }

  /** The days on which some transaction happened. */
  function Days(txs: seq<Tx>): set<int>
  {
    set tx | tx in txs :: DayKey(tx.time)
  }

  /** The sum of every transaction's result. */
  function Total(txs: seq<Tx>): int
  {
    if txs == [] then 0 else Total(txs[..|txs| - 1]) + txs[|txs| - 1].result
  }

  /** The balance at the end of day `d`: the sum of the results of the
      transactions made on or before that day, whatever their order. */
  function BalanceThrough(txs: seq<Tx>, d: int): int
  {
    if txs == [] then 0
    else
      var last := txs[|txs| - 1];
      BalanceThrough(txs[..|txs| - 1], d) + (if DayKey(last.time) <= d then last.result else 0)
  }

  lemma {:induction false} BalanceThroughAppend(s: seq<Tx>, t: seq<Tx>, d: int)
    ensures BalanceThrough(s + t, d) == BalanceThrough(s, d) + BalanceThrough(t, d)
    decreases |t|
  {
    if t != [] {
      var n := |t|;
      assert (s + t)[..|s + t| - 1] == s + t[..n - 1];
      BalanceThroughAppend(s, t[..n - 1], d);
    } else {
      assert s + t == s;
    }
  }

  /** The balance of a day does not depend on the order of the transactions:
      sorting, or any other permutation, keeps it. */
  lemma {:induction false} BalanceThroughPermutation(s: seq<Tx>, t: seq<Tx>, d: int)
    requires multiset(s) == multiset(t)
    ensures BalanceThrough(s, d) == BalanceThrough(t, d)
    decreases |s|
  {
    if s == [] {
      assert |t| == |multiset(t)| == 0;
    } else {
      var n := |s|;
      var x := s[n - 1];
      assert s == s[..n - 1] + [x];
      assert x in multiset(t);
      var j :| 0 <= j < |t| && t[j] == x;
      var rest := t[..j] + t[j + 1..];
      assert t == t[..j] + [x] + t[j + 1..];
      assert multiset(rest) == multiset(t) - multiset{x};
      assert multiset(s[..n - 1]) == multiset(s) - multiset{x};
      BalanceThroughPermutation(s[..n - 1], rest, d);
      BalanceThroughAppend(t[..j], [x], d);
      BalanceThroughAppend(t[..j] + [x], t[j + 1..], d);
      BalanceThroughAppend(t[..j], t[j + 1..], d);
      assert BalanceThrough([x], d) == (if DayKey(x.time) <= d then x.result else 0) by {
        assert [x][..0] == [];
      }
    }
  }

  /** On or after the last day of the transactions, the balance is the total
      of all of them: the chart's last point is the address's net change. */
  lemma {:induction false} BalanceThroughAll(txs: seq<Tx>, d: int)
    requires forall k :: 0 <= k < |txs| ==> DayKey(txs[k].time) <= d
    ensures BalanceThrough(txs, d) == Total(txs)
  {
    if txs != [] {
      BalanceThroughAll(txs[..|txs| - 1], d);
    }
  }

  /** Exchanges two entries of the array. */
  method Swap(a: array<Tx>, i: int, j: int)
    requires 0 <= i < j < a.Length
    modifies a
    ensures a[i] == old(a[j]) && a[j] == old(a[i])
    ensures forall k :: 0 <= k < a.Length && k != i && k != j ==> a[k] == old(a[k])
    ensures multiset(a[..]) == old(multiset(a[..]))
  {
    a[i], a[j] := a[j], a[i];
  }

  /** `txs.sort((a, b) => a.time - b.time)`, as an insertion sort: afterwards
      the transactions are in time order and are the same transactions. */
  method SortByTime(a: array<Tx>)
    modifies a
    ensures SortedByTime(a[..])
    ensures multiset(a[..]) == old(multiset(a[..]))
  {
    var i := 0;
    while i < a.Length
      invariant 0 <= i <= a.Length
      invariant SortedByTime(a[..i])
      invariant multiset(a[..]) == old(multiset(a[..]))
    {
      var j := i;
      while j > 0 && a[j - 1].time > a[j].time
        invariant 0 <= j <= i
        invariant forall p, q :: 0 <= p < q <= i && p != j && q != j ==> a[p].time <= a[q].time
        invariant forall q :: j < q <= i ==> a[j].time <= a[q].time
        invariant 0 < j < i ==> a[j - 1].time <= a[j + 1].time
        invariant multiset(a[..]) == old(multiset(a[..]))
      {
        Swap(a, j - 1, j);
        j := j - 1;
      }
      i := i + 1;
    }
  }

  /** The loop of lines 33-40 over transactions already in time order: each
      day is mapped to the running balance after that day's last
      transaction. */
  method Accumulate(txs: seq<Tx>) returns (daily: map<int, int>)
    requires SortedByTime(txs)
    ensures daily.Keys == Days(txs)
    ensures forall d :: d in daily ==> daily[d] == BalanceThrough(txs, d)
  {
    daily := map[];
    var running := 0;
    var i := 0;
    while i < |txs|
      invariant 0 <= i <= |txs|
      invariant running == Total(txs[..i])
      invariant daily.Keys == Days(txs[..i])
      invariant forall d :: d in daily ==> daily[d] == BalanceThrough(txs[..i], d)
    {
      var tx := txs[i];
      var day := DayKey(tx.time);
      assert txs[..i + 1] == txs[..i] + [tx];
      forall k | 0 <= k < i ensures DayKey(txs[k].time) <= day {
        DayKeyMonotone(txs[k].time, tx.time);
      }
      forall d | d in daily && d != day
        ensures daily[d] == BalanceThrough(txs[..i + 1], d)
      {
        var p :| p in txs[..i] && DayKey(p.time) == d;
      }
      BalanceThroughAll(txs[..i + 1], day);
      running := running + tx.result;
      daily := daily[day := running];
      i := i + 1;
    }
    assert txs[..i] == txs;
  }

  /** The least element of a non-empty set of days. */
  ghost function Least(s: set<int>): (m: int)
    requires s != {}
    ensures m in s && forall d :: d in s ==> m <= d
  {
    // The unreachable first branch hands the verifier a member of `s`, which
    // the such-that below needs.
    if forall d :: d !in s then
      assert false; 0
    else
      var x :| x in s;
      var rest := s - {x};
      assert forall d :: d in s ==> d == x || d in rest;
      if forall d :: d !in rest then x
      else
        var m := Least(rest);
        if x < m then x else m
  }

  /** `Object.keys(dailyBalances).sort()`: the days, each once, in ascending
      order. */
  method SortedKeys(keys: set<int>) returns (labels: seq<int>)
    ensures forall i, j :: 0 <= i < j < |labels| ==> labels[i] < labels[j]
    ensures forall d :: d in labels <==> d in keys
  {
    labels := [];
    var rest := keys;
    while rest != {}
      invariant rest <= keys
      invariant forall d :: d in labels <==> d in keys - rest
      invariant forall i, j :: 0 <= i < j < |labels| ==> labels[i] < labels[j]
      invariant forall i, d :: 0 <= i < |labels| && d in rest ==> labels[i] < d
      decreases rest
    {
      ghost var least := Least(rest);
      var m :| m in rest && forall d :: d in rest ==> m <= d;
      labels := labels + [m];
      rest := rest - {m};
    }
  }

  /** Lines 29-42: sort the transactions in place, fold them into daily
      balances, and return the chart's days with each day's balance in BTC. */
  method BalanceSeries(txs: array<Tx>) returns (labels: seq<int>, balances: seq<real>)
    modifies txs
    ensures SortedByTime(txs[..]) && multiset(txs[..]) == old(multiset(txs[..]))
    ensures forall i, j :: 0 <= i < j < |labels| ==> labels[i] < labels[j]
    ensures forall d :: d in labels <==> d in Days(old(txs[..]))
    ensures |balances| == |labels|
    ensures forall k :: 0 <= k < |labels| ==>
              balances[k] == BalanceThrough(old(txs[..]), labels[k]) as real / SatoshisPerBtc
  {
    ghost var before := txs[..];
    SortByTime(txs);
    var sorted := txs[..];
    var daily := Accumulate(sorted);
    assert Days(sorted) == Days(before) by {
      forall tx ensures tx in sorted <==> tx in before {
        assert tx in sorted <==> tx in multiset(sorted);
        assert tx in before <==> tx in multiset(before);
      }
    }
    labels := SortedKeys(daily.Keys);
    assert forall k :: 0 <= k < |labels| ==> labels[k] in labels;
    balances := seq(|labels|, k requires 0 <= k < |labels| => daily[labels[k]] as real / SatoshisPerBtc);
    forall k | 0 <= k < |labels|
      ensures balances[k] == BalanceThrough(before, labels[k]) as real / SatoshisPerBtc
    {
      BalanceThroughPermutation(sorted, before, labels[k]);
    }
  }
}
