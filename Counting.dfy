/**
 * Counting dictionaries: `d[k] = d.get(k, 0) + 1` over a sequence of keys,
 * with Python's insertion order (a key sits where it first appeared), and
 * each key's count as a percentage of the number of keys.
 */
module Counting {
  import opened Numerics

  datatype Count<K> = Count(key: K, n: nat)

  function CountOf<K(==)>(t: seq<Count<K>>, k: K): nat
  {
    if |t| == 0 then 0 else (if t[0].key == k then t[0].n else 0) + CountOf(t[1..], k)
  }

  function CountTotal<K>(t: seq<Count<K>>): nat
  {
    if |t| == 0 then 0 else t[0].n + CountTotal(t[1..])
  }

  predicate DistinctKeys<K(==)>(t: seq<Count<K>>)
  {
    forall i, j :: 0 <= i < j < |t| ==> t[i].key != t[j].key
  }

  /** `d[k] = d.get(k, 0) + 1` */
  function Incr<K(==)>(t: seq<Count<K>>, k: K): (r: seq<Count<K>>)
    ensures |r| == |t| || |r| == |t| + 1
    ensures forall i :: 0 <= i < |t| ==> r[i].key == t[i].key
  {
    if |t| == 0 then [Count(k, 1)]
    else if t[0].key == k then [Count(k, t[0].n + 1)] + t[1..]
    else [t[0]] + Incr(t[1..], k)
  }

  /** Raising one key adds one to its count and to the total, keeps every other count, and keeps the keys distinct. */
  lemma {:induction false} IncrCounts<K>(t: seq<Count<K>>, k: K)
    requires DistinctKeys(t)
    ensures DistinctKeys(Incr(t, k))
    ensures CountTotal(Incr(t, k)) == CountTotal(t) + 1
    ensures forall j :: CountOf(Incr(t, k), j) == CountOf(t, j) + (if j == k then 1 else 0)
    decreases |t|
  {
    if |t| != 0 {
      if t[0].key == k {
        assert Incr(t, k)[1..] == t[1..];
        NotCounted(t[1..], k);
      } else {
        IncrCounts(t[1..], k);
        assert Incr(t, k)[1..] == Incr(t[1..], k);
        KeyOfIncr(t[1..], k, t[0].key);
      }
    }
  }

  lemma {:induction false} NotCounted<K>(t: seq<Count<K>>, k: K)
    requires forall i :: 0 <= i < |t| ==> t[i].key != k
    ensures CountOf(t, k) == 0
    decreases |t|
  {
    if |t| != 0 {
      NotCounted(t[1..], k);
    }
  }

  lemma {:induction false} KeyOfIncr<K>(t: seq<Count<K>>, k: K, other: K)
    requires other != k && forall i :: 0 <= i < |t| ==> t[i].key != other
    ensures forall i :: 0 <= i < |Incr(t, k)| ==> Incr(t, k)[i].key != other
    decreases |t|
  {
    if |t| != 0 && t[0].key != k {
      KeyOfIncr(t[1..], k, other);
      assert Incr(t, k)[1..] == Incr(t[1..], k);
    }
  }

  /** The counting loop over `keys`, in order. */
  function Tally<K(==)>(keys: seq<K>): seq<Count<K>>
  {
    if |keys| == 0 then [] else Incr(Tally(keys[..|keys| - 1]), keys[|keys| - 1])
  }

  /** Every key is counted as often as it occurs, once per entry, and the counts add up to the number of keys. */
  lemma {:induction false} TallyCountsOccurrences<K>(keys: seq<K>)
    ensures DistinctKeys(Tally(keys))
    ensures CountTotal(Tally(keys)) == |keys|
    ensures forall j :: CountOf(Tally(keys), j) == multiset(keys)[j]
    decreases |keys|
  {
    if |keys| != 0 {
      var n := |keys| - 1;
      var prefix, x := keys[..n], keys[n];
      TallyCountsOccurrences(prefix);
      IncrCounts(Tally(prefix), x);
      assert Tally(keys) == Incr(Tally(prefix), x);
      assert keys == prefix + [x];
      assert multiset(keys) == multiset(prefix) + multiset{x};
      forall j ensures CountOf(Tally(keys), j) == multiset(keys)[j] {
        assert CountOf(Tally(keys), j) == CountOf(Tally(prefix), j) + (if j == x then 1 else 0);
      }
    }
  }

  /** `{k: count / n * 100 for k, count in d.items()}`, kept in the dictionary's order. */
  function Shares<K>(t: seq<Count<K>>, n: nat): (r: seq<(K, real)>)
    requires 0 < n
    ensures |r| == |t| && forall i :: 0 <= i < |t| ==> r[i].0 == t[i].key
  {
    if |t| == 0 then [] else [(t[0].key, t[0].n as real / n as real * 100.0)] + Shares(t[1..], n)
  }

  function ShareTotal<K>(r: seq<(K, real)>): real
  {
    if |r| == 0 then 0.0 else r[0].1 + ShareTotal(r[1..])
  }

  /** The shares add up to the total count as a percentage of `n`. */
  lemma {:induction false} ShareTotalIsCountTotal<K>(t: seq<Count<K>>, n: nat)
    requires 0 < n
    ensures ShareTotal(Shares(t, n)) == CountTotal(t) as real / n as real * 100.0
    decreases |t|
  {
    if |t| != 0 {
      ShareTotalIsCountTotal(t[1..], n);
      var a, b, d := t[0].n as real, CountTotal(t[1..]) as real, n as real;
      assert a / d * 100.0 + b / d * 100.0 == (a + b) / d * 100.0;
    }
  }

  /** The shares of a tally of `keys` add up to 100. */
  lemma SharesOfTallySumTo100<K>(keys: seq<K>)
    requires 0 < |keys|
    ensures ShareTotal(Shares(Tally(keys), |keys|)) == 100.0
  {
    TallyCountsOccurrences(keys);
    ShareTotalIsCountTotal(Tally(keys), |keys|);
    var d := |keys| as real;
    QuotientTimesDivisor(d, d);
    assert d / d == 1.0;
  }
}
