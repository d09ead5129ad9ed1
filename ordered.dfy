/**
 * Python dictionaries remember the order their keys were inserted in: `list(d.keys())`,
 * `d.values()` and iteration follow it, `del` drops a key from it, and assigning to a key
 * that is already present keeps its place. A manager's dictionary is modelled as a `map`
 * plus a `seq` of its keys in that order; this module holds the operations on the `seq`.
 */
module Ordered {

  /** The managers key their dictionaries by server id. */
  type Key = string

  /** No key occurs twice. */
  predicate Distinct(s: seq<Key>)
  {
    s == [] || (s[0] !in s[1..] && Distinct(s[1..]))
  }

  /** `Distinct` is the usual all-positions-differ property. */
  lemma {:induction false} DistinctIff(s: seq<Key>)
    ensures Distinct(s) <==> forall i, j :: 0 <= i < j < |s| ==> s[i] != s[j]
  {
    if s != [] {
      DistinctIff(s[1..]);
      assert forall i :: 0 <= i < |s| - 1 ==> s[1..][i] == s[i + 1];
      assert s[0] in s[1..] <==> exists j :: 0 < j < |s| && s[j] == s[0];
    }
  }

  /** Appending keeps a sequence distinct exactly when the new key is not already there. */
  lemma {:induction false} DistinctSnoc(s: seq<Key>, x: Key)
    ensures Distinct(s + [x]) <==> Distinct(s) && x !in s
  {
    if s != [] {
      assert (s + [x])[0] == s[0] && (s + [x])[1..] == s[1..] + [x];
      DistinctSnoc(s[1..], x);
      assert x in s <==> x == s[0] || x in s[1..];
    } else {
      assert ([] + [x])[1..] == [];
    }
  }

  /** In a distinct sequence, an element occurs neither before nor after its own position. */
  lemma DistinctAt(s: seq<Key>, i: nat)
    requires Distinct(s) && i < |s|
    ensures s[i] !in s[..i] && s[i] !in s[i + 1..]
    ensures s[i..] == [s[i]] + s[i + 1..]
  {
    DistinctIff(s);
    forall k | 0 <= k < i
      ensures s[..i][k] != s[i]
    {
      assert s[..i][k] == s[k];
    }
    var rest := s[i + 1..];
    forall k | 0 <= k < |rest|
      ensures rest[k] != s[i]
    {
      assert rest[k] == s[i + 1 + k];
    }
    assert s[i..] == [s[i]] + s[i + 1..];
  }

  /** The set of a distinct sequence has as many elements as the sequence. */
  lemma {:induction false} DistinctCardinality(s: seq<Key>)
    requires Distinct(s)
    ensures |set x | x in s| == |s|
  {
    if s != [] {
      DistinctCardinality(s[1..]);
      assert (set x | x in s) == (set x | x in s[1..]) + {s[0]};
    }
  }

  /** A dictionary whose keys are exactly a distinct sequence has as many entries as the sequence. */
  lemma MapSize<V>(order: seq<Key>, m: map<Key, V>)
    requires Distinct(order) && forall id :: id in m <==> id in order
    ensures |m| == |order|
  {
    DistinctCardinality(order);
    assert (set x | x in order) == m.Keys;
  }

  /** `s` with every occurrence of `x` dropped (`del d[x]` on the key order). */
  function Without(s: seq<Key>, x: Key): (r: seq<Key>)
    ensures |r| <= |s|
  {
    if s == [] then []
    else if s[0] == x then Without(s[1..], x)
    else [s[0]] + Without(s[1..], x)
  }

  /** Dropping `x` keeps every other element and only those. */
  lemma {:induction false} WithoutMembers(s: seq<Key>, x: Key)
    ensures forall y :: y in Without(s, x) <==> y in s && y != x
  {
    if s != [] {
      WithoutMembers(s[1..], x);
      assert forall y :: y in s <==> y == s[0] || y in s[1..];
    }
  }

  /** Dropping an element keeps a sequence distinct. */
  lemma {:induction false} WithoutDistinct(s: seq<Key>, x: Key)
    requires Distinct(s)
    ensures Distinct(Without(s, x))
  {
    if s != [] && s[0] != x {
      WithoutDistinct(s[1..], x);
      WithoutMembers(s[1..], x);
      var rest := Without(s[1..], x);
      assert ([s[0]] + rest)[0] == s[0] && ([s[0]] + rest)[1..] == rest;
    } else if s != [] {
      WithoutDistinct(s[1..], x);
    }
  }

  /** Dropping an element that does not occur changes nothing. */
  lemma {:induction false} WithoutAbsent(s: seq<Key>, x: Key)
    requires x !in s
    ensures Without(s, x) == s
  {
    if s != [] {
      assert s[0] != x && x !in s[1..];
      WithoutAbsent(s[1..], x);
    }
  }

  lemma WithoutCons(y: Key, s: seq<Key>, x: Key)
    ensures Without([y] + s, x) == if y == x then Without(s, x) else [y] + Without(s, x)
  {
    assert ([y] + s)[0] == y && ([y] + s)[1..] == s;
  }

  /** Removing a key from a distinct order removes exactly its one position. */
  lemma {:induction false} WithoutSplit(a: seq<Key>, x: Key, b: seq<Key>)
    requires x !in a && x !in b
    ensures Without(a + [x] + b, x) == a + b
  {
    if a == [] {
      assert a + [x] + b == [x] + b;
      WithoutCons(x, b, x);
      WithoutAbsent(b, x);
    } else {
      assert a + [x] + b == [a[0]] + (a[1..] + [x] + b);
      WithoutCons(a[0], a[1..] + [x] + b, x);
      WithoutSplit(a[1..], x, b);
      assert a + b == [a[0]] + (a[1..] + b);
    }
  }

  /** The elements of `s` that are in `keep`, in their order. */
  function Filter(s: seq<Key>, keep: set<Key>): (r: seq<Key>)
    ensures forall y :: y in r <==> y in s && y in keep
    ensures |r| <= |s|
  {
    if s == [] then []
    else
      var init := s[..|s| - 1];
      assert forall y :: y in s <==> y in init || y == s[|s| - 1];
      Filter(init, keep) + (if s[|s| - 1] in keep then [s[|s| - 1]] else [])
  }

  lemma {:induction false} FilterDistinct(s: seq<Key>, keep: set<Key>)
    requires Distinct(s)
    ensures Distinct(Filter(s, keep))
  {
    if s != [] {
      var init, last := s[..|s| - 1], s[|s| - 1];
      assert s == init + [last];
      DistinctSnoc(init, last);
      FilterDistinct(init, keep);
      if last in keep {
        DistinctSnoc(Filter(init, keep), last);
      } else {
        assert Filter(s, keep) == Filter(init, keep);
      }
    }
  }

  /** What one set keeps and another, disjoint from it on `s`, keeps together make up the whole sequence. */
  lemma {:induction false} FilterPartition(s: seq<Key>, a: set<Key>, b: set<Key>)
    requires forall i :: 0 <= i < |s| ==> (s[i] in a <==> s[i] !in b)
    ensures |Filter(s, a)| + |Filter(s, b)| == |s|
  {
    if s != [] {
      FilterPartition(s[..|s| - 1], a, b);
    }
  }

  /** Filtering one more element of a prefix. */
  lemma FilterPrefixNext(s: seq<Key>, i: nat, keep: set<Key>)
    requires i < |s|
    ensures Filter(s[..i + 1], keep) == Filter(s[..i], keep) + (if s[i] in keep then [s[i]] else [])
  {
    assert s[..i + 1][..i] == s[..i];
  }
}
