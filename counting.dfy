/**
 * Counting occurrences the way the statistics functions do it with
 * `counts[k] = (counts[k] || 0) + 1` inside a `forEach`: a count per key,
 * and the keys in the order in which they were first inserted (the order in
 * which `Object.keys` lists string keys that are not array indices).
 */
module Counting {

  /** Keys are the string ids and types the statistics are keyed by. */
  type Key = string

  /** How many times `x` occurs in `s`. */
  function Count(s: seq<Key>, x: Key): (n: nat)
    ensures n <= |s|
    ensures n > 0 <==> x in s
  {
    if s == [] then 0
    else Count(s[..|s| - 1], x) + (if s[|s| - 1] == x then 1 else 0)
  }

  predicate Distinct(s: seq<Key>) {
    forall i, j :: 0 <= i < j < |s| ==> s[i] != s[j]
  }

  /** The distinct elements of `s`, in order of first occurrence. */
  function FirstSeen(s: seq<Key>): (r: seq<Key>)
    ensures forall x :: x in r <==> x in s
    ensures Distinct(r)
  {
    if s == [] then []
    else
      var r := FirstSeen(s[..|s| - 1]);
      if s[|s| - 1] in r then r else r + [s[|s| - 1]]
  }

  /** The position at which `x` first occurs in `s`. */
  function FirstIndex(s: seq<Key>, x: Key): (i: nat)
    requires x in s
    ensures i < |s| && s[i] == x && x !in s[..i]
  {
    if s[0] == x then 0
    else
      var i := 1 + FirstIndex(s[1..], x);
      assert s[..i] == [s[0]] + s[1..][..i - 1];
      i
  }

  /** Appending to `s` does not move the first occurrence of anything already in it. */
  lemma {:induction false} FirstIndexSnoc(s: seq<Key>, y: Key, x: Key)
    requires x in s
    ensures FirstIndex(s + [y], x) == FirstIndex(s, x)
  {
    if s[0] != x {
      assert (s + [y])[1..] == s[1..] + [y];
      FirstIndexSnoc(s[1..], y, x);
    }
  }

  /**
   * `FirstSeen` lists the keys in the order of their first occurrence, the
   * order in which the counting loop inserts them into the dictionary.
   */
  lemma {:induction false} FirstSeenInFirstOccurrenceOrder(s: seq<Key>)
    ensures forall i, j :: 0 <= i < j < |FirstSeen(s)| ==>
      FirstIndex(s, FirstSeen(s)[i]) < FirstIndex(s, FirstSeen(s)[j])
  {
    if s != [] {
      var p, y := s[..|s| - 1], s[|s| - 1];
      assert s == p + [y];
      FirstSeenInFirstOccurrenceOrder(p);
      var r := FirstSeen(p);
      forall x | x in p
        ensures FirstIndex(s, x) == FirstIndex(p, x)
      {
        FirstIndexSnoc(p, y, x);
      }
    }
  }

  /** The count of every element of `s`, as a dictionary. */
  function CountMap(s: seq<Key>): (m: map<Key, nat>)
    ensures m.Keys == set x | x in s
    ensures forall x :: x in m ==> m[x] == Count(s, x) && m[x] > 0
  {
    map x | x in s :: Count(s, x)
  }

  /** The sum of the counts of `keys` in `s`. */
  function SumCounts(keys: seq<Key>, s: seq<Key>): nat {
    if keys == [] then 0 else SumCounts(keys[..|keys| - 1], s) + Count(s, keys[|keys| - 1])
  }

  lemma {:induction false} SumCountsSnoc(keys: seq<Key>, s: seq<Key>, x: Key)
    requires Distinct(keys)
    ensures SumCounts(keys, s + [x]) == SumCounts(keys, s) + (if x in keys then 1 else 0)
  {
    if keys != [] {
      var init := keys[..|keys| - 1];
      assert Distinct(init);
      SumCountsSnoc(init, s, x);
      assert (s + [x])[..|s + [x]| - 1] == s;
      assert x in keys <==> x in init || x == keys[|keys| - 1];
      assert x == keys[|keys| - 1] ==> x !in init;
    }
  }

  /** The counts of the distinct keys add up to the number of entries counted. */
  lemma {:induction false} SumCountsOfFirstSeen(s: seq<Key>)
    ensures SumCounts(FirstSeen(s), s) == |s|
  {
    if s != [] {
      var init, x := s[..|s| - 1], s[|s| - 1];
      assert s == init + [x];
      SumCountsOfFirstSeen(init);
      var d := FirstSeen(init);
      SumCountsSnoc(d, init, x);
      if x !in d {
        assert FirstSeen(s) == d + [x];
        assert (d + [x])[..|d + [x]| - 1] == d;
        assert Count(init, x) == 0;
      }
    }
  }

  lemma CountSnoc(s: seq<Key>, x: Key, k: Key)
    ensures Count(s + [x], k) == Count(s, k) + (if k == x then 1 else 0)
  {
    assert (s + [x])[..|s + [x]| - 1] == s;
  }

  /** One more occurrence of `x`: its count goes up by one and nothing else moves. */
  lemma CountMapSnoc(s: seq<Key>, x: Key)
    ensures CountMap(s + [x]) == CountMap(s)[x := Count(s, x) + 1]
  {
    var a, b := CountMap(s + [x]), CountMap(s)[x := Count(s, x) + 1];
    assert a.Keys == b.Keys by {
      forall k ensures k in a.Keys <==> k in b.Keys {
        assert k in s + [x] <==> k in s || k == x;
      }
    }
    forall k | k in a ensures a[k] == b[k] {
      CountSnoc(s, x, k);
    }
  }

  lemma FirstSeenSnoc(s: seq<Key>, x: Key)
    ensures FirstSeen(s + [x]) == if x in s then FirstSeen(s) else FirstSeen(s) + [x]
  {
    assert (s + [x])[..|s + [x]| - 1] == s;
  }

  /**
   * The `forEach` that fills a count dictionary: after the loop `counts`
   * holds the count of every key and `order` lists the keys in insertion order.
   */
  method TallyKeys(keys: seq<Key>) returns (counts: map<Key, nat>, order: seq<Key>)
    ensures counts == CountMap(keys)
    ensures order == FirstSeen(keys)
  {
    counts, order := map[], [];
    for i := 0 to |keys|
      invariant counts == CountMap(keys[..i])
      invariant order == FirstSeen(keys[..i])
    {
      var k := keys[i];
      ghost var prefix := keys[..i];
      assert keys[..i + 1] == prefix + [k];
      CountMapSnoc(prefix, k);
      FirstSeenSnoc(prefix, k);
      if k in counts {
        assert counts[k] == Count(prefix, k);
        counts := counts[k := counts[k] + 1];
      } else {
        assert Count(prefix, k) == 0 && k !in prefix;
        counts := counts[k := 1];
        order := order + [k];
      }
    }
    assert keys[..|keys|] == keys;
  }
}
