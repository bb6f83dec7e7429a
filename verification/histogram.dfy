/**
 Counting dictionaries. A Python dict keeps its keys in insertion order, so a
 histogram is a list of (key, count) bins in the order keys were first seen;
 `Bump` is `counts[key] = counts.get(key, 0) + 1`.
 */
module Histogram {

  datatype Bin = Bin(key: string, count: nat)

  type Histogram = seq<Bin>

  /** `counts.get(key, 0)`: the count in `key`'s bin, or 0 when there is none. */
  function Get(h: Histogram, key: string): (c: nat)
    ensures (forall i :: 0 <= i < |h| ==> h[i].key != key) ==> c == 0
    ensures DistinctKeys(h) ==> forall i :: 0 <= i < |h| && h[i].key == key ==> c == h[i].count
  {
    if h == [] then 0
    else if h[0].key == key then h[0].count
    else Get(h[1..], key)
  }

  /** No key has two bins. */
  predicate DistinctKeys(h: Histogram) {
    forall i, j :: 0 <= i < j < |h| ==> h[i].key != h[j].key
  }

  /** Every bin holds at least one occurrence. */
  predicate PositiveCounts(h: Histogram) {
    forall i :: 0 <= i < |h| ==> h[i].count > 0
  }

  /** Sum of all counts. */
  function Total(h: Histogram): nat {
    if h == [] then 0 else h[0].count + Total(h[1..])
  }

  /** Number of times `key` occurs in `keys`. */
  function Occurrences(keys: seq<string>, key: string): nat {
    if keys == [] then 0
    else Occurrences(keys[..|keys| - 1], key) + (if keys[|keys| - 1] == key then 1 else 0)
  }

  /** One more occurrence of `key`: its bin grows in place, or a new bin is appended. */
  function Bump(h: Histogram, key: string): (h': Histogram)
    ensures forall k :: Get(h', k) == Get(h, k) + (if k == key then 1 else 0)
    ensures Total(h') == Total(h) + 1
    ensures PositiveCounts(h) ==> PositiveCounts(h')
    ensures |h| <= |h'| <= |h| + 1
    ensures forall i :: 0 <= i < |h| ==> h'[i].key == h[i].key
  {
    if h == [] then [Bin(key, 1)]
    else if h[0].key == key then [Bin(key, h[0].count + 1)] + h[1..]
    else
      [h[0]] + Bump(h[1..], key)
  }

  /** The set of keys that have a bin. */
  function KeysOf(h: Histogram): set<string> {
    set i | 0 <= i < |h| :: h[i].key
  }

  lemma KeysOfCons(b: Bin, rest: Histogram)
    ensures KeysOf([b] + rest) == {b.key} + KeysOf(rest)
  {
    var r := [b] + rest;
    forall k | k in KeysOf(r) ensures k in {b.key} + KeysOf(rest) {
      var i :| 0 <= i < |r| && r[i].key == k;
      if i > 0 {
        assert rest[i - 1].key == k;
      }
    }
    forall k | k in KeysOf(rest) ensures k in KeysOf(r) {
      var i :| 0 <= i < |rest| && rest[i].key == k;
      assert r[i + 1].key == k;
    }
    assert r[0].key == b.key;
  }

  /** Bumping adds exactly `key` to the keys. */
  lemma {:induction false} BumpKeys(h: Histogram, key: string)
    ensures KeysOf(Bump(h, key)) == KeysOf(h) + {key}
  {
    if h == [] {
      assert Bump(h, key)[0].key == key;
    } else if h[0].key == key {
      KeysOfCons(h[0], h[1..]);
      KeysOfCons(Bin(key, h[0].count + 1), h[1..]);
      assert h == [h[0]] + h[1..];
    } else {
      BumpKeys(h[1..], key);
      KeysOfCons(h[0], h[1..]);
      KeysOfCons(h[0], Bump(h[1..], key));
      assert h == [h[0]] + h[1..];
    }
  }

  /** Bumping never gives a key a second bin. */
  lemma {:induction false} BumpDistinct(h: Histogram, key: string)
    requires DistinctKeys(h)
    ensures DistinctKeys(Bump(h, key))
  {
    if h != [] && h[0].key != key {
      DistinctUncons(h);
      BumpDistinct(h[1..], key);
      BumpKeys(h[1..], key);
      DistinctCons(h[0], Bump(h[1..], key));
    }
  }

  lemma DistinctUncons(h: Histogram)
    requires h != [] && DistinctKeys(h)
    ensures h[0].key !in KeysOf(h[1..]) && DistinctKeys(h[1..])
  {
  }

  lemma DistinctCons(b: Bin, rest: Histogram)
    requires b.key !in KeysOf(rest) && DistinctKeys(rest)
    ensures DistinctKeys([b] + rest)
  {
  }

  /** The counting loop over `keys`, one bump per key, in order. */
  function Tally(keys: seq<string>): (h: Histogram)
    ensures forall k :: Get(h, k) == Occurrences(keys, k)
    ensures Total(h) == |keys|
    ensures DistinctKeys(h)
    ensures PositiveCounts(h)
    ensures KeysOf(h) == set k | k in keys
  {
    if keys == [] then []
    else
      var prefix := keys[..|keys| - 1];
      assert (set k | k in keys) == (set k | k in prefix) + {keys[|keys| - 1]} by {
        assert keys == prefix + [keys[|keys| - 1]];
      }
      BumpKeys(Tally(prefix), keys[|keys| - 1]);
      BumpDistinct(Tally(prefix), keys[|keys| - 1]);
      Bump(Tally(prefix), keys[|keys| - 1])
  }

  /** Counting splits over a concatenation. */
  lemma {:induction false} OccurrencesConcat(a: seq<string>, b: seq<string>, key: string)
    ensures Occurrences(a + b, key) == Occurrences(a, key) + Occurrences(b, key)
  {
    if b == [] {
      assert a + b == a;
    } else {
      assert (a + b)[..|a + b| - 1] == a + b[..|b| - 1];
      OccurrencesConcat(a, b[..|b| - 1], key);
    }
  }
}
