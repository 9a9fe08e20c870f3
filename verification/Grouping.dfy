/** Grouping a list by a key, in order of first appearance, as a loop over a growing list of groups does. */
module Grouping {
  import opened Sums

  /** The elements whose key is `k`, in order. */
  function WithKey<T, K(==)>(s: seq<T>, key: T -> K, k: K): seq<T> {
    if s == [] then []
    else
      var n := |s| - 1;
      WithKey(s[..n], key, k) + if key(s[n]) == k then [s[n]] else []
  }

  /** The keys present, in the order they first appear. */
  function FirstSeen<T, K(==)>(s: seq<T>, key: T -> K): seq<K> {
    if s == [] then []
    else
      var n := |s| - 1;
      var before := FirstSeen(s[..n], key);
      if key(s[n]) in before then before else before + [key(s[n])]
  }

  predicate Distinct<K(==)>(keys: seq<K>) {
    forall i, j :: 0 <= i < j < |keys| ==> keys[i] != keys[j]
  }

  lemma DistinctAppend<K>(keys: seq<K>, k: K)
    requires Distinct(keys) && k !in keys
    ensures Distinct(keys + [k])
  {
  }

  /** Every key is listed once. */
  lemma {:induction false} SeenOnce<T, K>(s: seq<T>, key: T -> K)
    ensures Distinct(FirstSeen(s, key))
  {
    if s == [] {
    } else {
      var n := |s| - 1;
      SeenOnce(s[..n], key);
      if key(s[n]) !in FirstSeen(s[..n], key) {
        DistinctAppend(FirstSeen(s[..n], key), key(s[n]));
      }
    }
  }

  /** The keys listed are those that have a group, and no other. */
  lemma {:induction false} SeenExactly<T, K>(s: seq<T>, key: T -> K, k: K)
    ensures k in FirstSeen(s, key) <==> WithKey(s, key, k) != []
  {
    if s == [] {
    } else {
      var n := |s| - 1;
      SeenExactly(s[..n], key, k);
      assert k in FirstSeen(s, key) <==> k in FirstSeen(s[..n], key) || k == key(s[n]);
    }
  }

  lemma WithKeyStep<T, K>(s: seq<T>, x: T, key: T -> K, k: K)
    ensures WithKey(s + [x], key, k) == if key(x) == k then WithKey(s, key, k) + [x] else WithKey(s, key, k)
  {
    assert (s + [x])[..|s|] == s;
  }

  lemma {:induction false} WithKeyConcat<T, K>(a: seq<T>, b: seq<T>, key: T -> K, k: K)
    ensures WithKey(a + b, key, k) == WithKey(a, key, k) + WithKey(b, key, k)
  {
    if b == [] {
      assert a + b == a;
    } else {
      assert (a + b)[..|a + b| - 1] == a + b[..|b| - 1];
      WithKeyConcat(a, b[..|b| - 1], key, k);
    }
  }

  lemma {:induction false} WithKeySound<T, K>(s: seq<T>, key: T -> K, k: K)
    ensures forall x :: x in WithKey(s, key, k) <==> x in s && key(x) == k
  {
    if s == [] {
    } else {
      WithKeySound(s[..|s| - 1], key, k);
      assert s == s[..|s| - 1] + [s[|s| - 1]];
    }
  }

  /** The sum of `f` over the elements whose key is `k`. */
  function KeySum<T, K(==)>(s: seq<T>, key: T -> K, f: T -> real, k: K): real {
    SumBy(WithKey(s, key, k), f)
  }

  lemma KeySumStep<T, K>(s: seq<T>, x: T, key: T -> K, f: T -> real, k: K)
    ensures KeySum(s + [x], key, f, k) == KeySum(s, key, f, k) + if key(x) == k then f(x) else 0.0
  {
    WithKeyStep(s, x, key, k);
    if key(x) == k {
      SumAppend(WithKey(s, key, k), x, f);
    }
  }

  /** The groups' sums added up, for the listed keys. */
  function KeyTotal<T, K(==)>(keys: seq<K>, s: seq<T>, key: T -> K, f: T -> real): real {
    if keys == [] then 0.0
    else KeyTotal(keys[..|keys| - 1], s, key, f) + KeySum(s, key, f, keys[|keys| - 1])
  }

  lemma {:induction false} KeyTotalStep<T, K>(keys: seq<K>, s: seq<T>, x: T, key: T -> K, f: T -> real)
    requires Distinct(keys)
    ensures KeyTotal(keys, s + [x], key, f) == KeyTotal(keys, s, key, f) + if key(x) in keys then f(x) else 0.0
  {
    hide KeySum;
    if keys == [] {
      assert KeyTotal(keys, s + [x], key, f) == KeyTotal(keys, s, key, f);
    } else {
      var n := |keys| - 1;
      KeyTotalStep(keys[..n], s, x, key, f);
      KeySumStep(s, x, key, f, keys[n]);
      LastOrBefore(keys, key(x));
    }
  }

  /** A key of a distinct list is the last one or an earlier one, not both. */
  lemma LastOrBefore<K>(keys: seq<K>, k: K)
    requires Distinct(keys) && keys != []
    ensures var n := |keys| - 1;
            if k == keys[n] then k in keys && k !in keys[..n] else k in keys <==> k in keys[..n]
  {
  }

  /** Grouping conserves: the groups' sums add up to the sum of the list. */
  lemma {:induction false} KeyTotalConserves<T, K>(s: seq<T>, key: T -> K, f: T -> real)
    ensures KeyTotal(FirstSeen(s, key), s, key, f) == SumBy(s, f)
  {
    hide KeySum;
    if s == [] {
    } else {
      var (n, x) := (|s| - 1, s[|s| - 1]);
      var before := FirstSeen(s[..n], key);
      KeyTotalConserves(s[..n], key, f);
      SeenOnce(s[..n], key);
      assert s == s[..n] + [x];
      KeyTotalStep(before, s[..n], x, key, f);
      if key(x) !in before {
        KeySumStep(s[..n], x, key, f, key(x));
        SeenExactly(s[..n], key, key(x));
        EmptyGroup(s[..n], key, f, key(x));
        assert (before + [key(x)])[..|before|] == before;
      }
    }
  }

  lemma EmptyGroup<T, K>(s: seq<T>, key: T -> K, f: T -> real, k: K)
    requires WithKey(s, key, k) == []
    ensures KeySum(s, key, f, k) == 0.0
  {
  }

  /** Any list of figures that gives each group's sum adds up to the sum of the list. */
  lemma GroupingConserves<T, K, L>(s: seq<T>, key: T -> K, f: T -> real, groups: seq<L>, g: L -> real)
    requires |groups| == |FirstSeen(s, key)|
    requires forall i :: 0 <= i < |groups| ==> g(groups[i]) == KeySum(s, key, f, FirstSeen(s, key)[i])
    ensures SumBy(groups, g) == SumBy(s, f)
  {
    KeyTotalConserves(s, key, f);
    GroupsAreTotals(FirstSeen(s, key), s, key, f, groups, g);
  }

  lemma {:induction false} GroupsAreTotals<T, K, L>(keys: seq<K>, s: seq<T>, key: T -> K, f: T -> real,
                                                     groups: seq<L>, g: L -> real)
    requires |groups| == |keys|
    requires forall i :: 0 <= i < |groups| ==> g(groups[i]) == KeySum(s, key, f, keys[i])
    ensures SumBy(groups, g) == KeyTotal(keys, s, key, f)
  {
    hide KeySum;
    if groups == [] {
    } else {
      var n := |groups| - 1;
      GroupsAreTotals(keys[..n], s, key, f, groups[..n], g);
    }
  }
}
