/**
 * The `forEach` idiom the screens use to bucket a list into a dictionary
 * (`groups[key] = groups[key] || []; groups[key].push(item)`), specified by
 * the filter of the elements with one key and by the order in which keys
 * first appear (the insertion order in which `Object.keys` lists them).
 */
module Grouping {

  /** The elements of `xs` whose key is `k`, in their original order. */
  function Select<T, K(==)>(xs: seq<T>, key: T -> K, k: K): (r: seq<T>)
    ensures |r| <= |xs|
    ensures forall i :: 0 <= i < |r| ==> key(r[i]) == k
    ensures forall x :: x in r ==> x in xs
  {
    if xs == [] then []
    else
      var init := Select(xs[..|xs| - 1], key, k);
      assert forall x :: x in init ==> x in xs by {
        forall x | x in init ensures x in xs {
          var j :| 0 <= j < |xs[..|xs| - 1]| && xs[..|xs| - 1][j] == x;
          assert xs[j] == x;
        }
      }
      init + (if key(xs[|xs| - 1]) == k then [xs[|xs| - 1]] else [])
  }

  /** Filtering distributes over concatenation: the order of `xs` is kept inside each group. */
  lemma {:induction false} SelectAppend<T, K>(a: seq<T>, b: seq<T>, key: T -> K, k: K)
    ensures Select(a + b, key, k) == Select(a, key, k) + Select(b, key, k)
    decreases |b|
  {
    if b != [] {
      var b' := b[..|b| - 1];
      assert (a + b)[..|a + b| - 1] == a + b';
      SelectAppend(a, b', key, k);
    } else {
      assert a + b == a;
    }
  }

  /** An element occurs in its group exactly as often as in `xs`, and in no other group. */
  lemma {:induction false} SelectMultiplicity<T, K>(xs: seq<T>, key: T -> K, k: K, x: T)
    ensures multiset(Select(xs, key, k))[x] == if key(x) == k then multiset(xs)[x] else 0
  {
    if xs != [] {
      var init := xs[..|xs| - 1];
      SelectMultiplicity(init, key, k, x);
      assert xs == init + [xs[|xs| - 1]];
    }
  }

  /** The distinct keys of `xs`, each where it first appears. */
  function KeysInOrder<T, K(==)>(xs: seq<T>, key: T -> K): (r: seq<K>)
    ensures forall i, j :: 0 <= i < j < |r| ==> r[i] != r[j]
    ensures forall i :: 0 <= i < |xs| ==> key(xs[i]) in r
    ensures forall j :: 0 <= j < |r| ==> exists i :: 0 <= i < |xs| && key(xs[i]) == r[j]
  {
    if xs == [] then []
    else
      var init := KeysInOrder(xs[..|xs| - 1], key);
      assert forall i :: 0 <= i < |xs| - 1 ==> xs[..|xs| - 1][i] == xs[i];
      var k := key(xs[|xs| - 1]);
      if k in init then init else init + [k]
  }

  /** A key has a non-empty group exactly when some element carries it. */
  lemma SelectEmptyIffAbsent<T, K>(xs: seq<T>, key: T -> K, k: K)
    ensures Select(xs, key, k) == [] <==> k !in KeysInOrder(xs, key)
  {
    var r := Select(xs, key, k);
    if r != [] {
      assert r[0] in xs;
      var i :| 0 <= i < |xs| && xs[i] == r[0];
      assert key(xs[i]) == k;
    }
    if k in KeysInOrder(xs, key) {
      var i :| 0 <= i < |xs| && key(xs[i]) == k;
      SelectMultiplicity(xs, key, k, xs[i]);
      assert xs[i] in multiset(xs);
    }
  }

  /** Filtering `xs + [x]`: `x` joins the group of its own key only. */
  lemma SelectSnoc<T, K>(xs: seq<T>, x: T, key: T -> K, k: K)
    ensures Select(xs + [x], key, k) == Select(xs, key, k) + (if key(x) == k then [x] else [])
  {
    assert (xs + [x])[..|xs + [x]| - 1] == xs;
  }

  /** The keys of `xs + [x]`: those of `xs`, then `x`'s key if it is new. */
  lemma KeysSnoc<T, K>(xs: seq<T>, x: T, key: T -> K)
    ensures KeysInOrder(xs + [x], key) == if key(x) in KeysInOrder(xs, key) then KeysInOrder(xs, key) else KeysInOrder(xs, key) + [key(x)]
  {
    assert (xs + [x])[..|xs + [x]| - 1] == xs;
  }

  /** `keys` and `groups` are the buckets of `xs`: the keys in first-appearance order, each with its elements. */
  ghost predicate Grouped<T, K(!new)>(xs: seq<T>, key: T -> K, keys: seq<K>, groups: map<K, seq<T>>) {
    && keys == KeysInOrder(xs, key)
    && (forall k :: k in groups <==> k in keys)
    && (forall k :: k in groups ==> groups[k] == Select(xs, key, k))
  }

  /** Pushing `x` onto the group of a key already seen buckets `xs + [x]`. */
  lemma GroupPush<T, K(!new)>(xs: seq<T>, x: T, key: T -> K, keys: seq<K>, groups: map<K, seq<T>>)
    requires Grouped(xs, key, keys, groups) && key(x) in groups
    ensures Grouped(xs + [x], key, keys, groups[key(x) := groups[key(x)] + [x]])
  {
    KeysSnoc(xs, x, key);
    var groups' := groups[key(x) := groups[key(x)] + [x]];
    forall k | k in groups' ensures groups'[k] == Select(xs + [x], key, k) {
      SelectSnoc(xs, x, key, k);
    }
  }

  /** Opening a group `[x]` for a new key, listed last, buckets `xs + [x]`. */
  lemma GroupOpen<T, K(!new)>(xs: seq<T>, x: T, key: T -> K, keys: seq<K>, groups: map<K, seq<T>>)
    requires Grouped(xs, key, keys, groups) && key(x) !in groups
    ensures Grouped(xs + [x], key, keys + [key(x)], groups[key(x) := [x]])
  {
    KeysSnoc(xs, x, key);
    SelectEmptyIffAbsent(xs, key, key(x));
    var groups' := groups[key(x) := [x]];
    forall k | k in groups' ensures groups'[k] == Select(xs + [x], key, k) {
      SelectSnoc(xs, x, key, k);
    }
  }

  /**
   * Bucket `xs` by `key`: `keys` lists the keys in the order their first
   * element appears, and each key's group holds its elements in order.
   */
  method GroupBy<T, K(==, !new)>(xs: seq<T>, key: T -> K) returns (keys: seq<K>, groups: map<K, seq<T>>)
    ensures keys == KeysInOrder(xs, key)
    ensures forall k :: k in groups <==> k in keys
    ensures forall k :: k in groups ==> groups[k] == Select(xs, key, k)
  {
    keys := [];
    groups := map[];
    var i := 0;
    ghost var seen: seq<T> := [];
    while i < |xs|
      invariant 0 <= i <= |xs| && seen == xs[..i]
      invariant Grouped(seen, key, keys, groups)
    {
      keys, groups := Bucket(seen, xs[i], key, keys, groups);
      TakeOneMore(xs, i);
      seen := seen + [xs[i]];
      i := i + 1;
    }
    assert xs[..i] == xs;
  }

  /** The prefix of `xs` one element longer. */
  lemma TakeOneMore<T>(xs: seq<T>, i: int)
    requires 0 <= i < |xs|
    ensures xs[..i + 1] == xs[..i] + [xs[i]]
  {
  }

  /** One turn of the `forEach`: push `x` onto its key's group, opening the group (and listing the key) when the key is new. */
  method Bucket<T, K(==, !new)>(ghost seen: seq<T>, x: T, key: T -> K, keys: seq<K>, groups: map<K, seq<T>>)
    returns (keys': seq<K>, groups': map<K, seq<T>>)
    requires Grouped(seen, key, keys, groups)
    ensures Grouped(seen + [x], key, keys', groups')
    ensures keys' == if key(x) in groups then keys else keys + [key(x)]
  {
    var k := key(x);
    if k in groups {
      GroupPush(seen, x, key, keys, groups);
      keys', groups' := keys, groups[k := groups[k] + [x]];
    } else {
      GroupOpen(seen, x, key, keys, groups);
      keys', groups' := keys + [k], groups[k := [x]];
    }
  }

  /** The combined size of the groups of the keys `ks`. */
  function TotalSize<T, K(==)>(xs: seq<T>, key: T -> K, ks: seq<K>): nat {
    if ks == [] then 0 else TotalSize(xs, key, ks[..|ks| - 1]) + |Select(xs, key, ks[|ks| - 1])|
  }

  lemma {:induction false} TotalSizeEmpty<T, K>(key: T -> K, ks: seq<K>)
    ensures TotalSize([], key, ks) == 0
  {
    if ks != [] {
      TotalSizeEmpty(key, ks[..|ks| - 1]);
    }
  }

  /** Appending one element adds one to the total exactly when its key is among `ks`. */
  lemma {:induction false} TotalSizeSnoc<T, K>(xs: seq<T>, x: T, key: T -> K, ks: seq<K>)
    requires forall i, j :: 0 <= i < j < |ks| ==> ks[i] != ks[j]
    ensures TotalSize(xs + [x], key, ks) == TotalSize(xs, key, ks) + (if key(x) in ks then 1 else 0)
  {
    if ks != [] {
      var init := ks[..|ks| - 1];
      TotalSizeSnoc(xs, x, key, init);
      assert (xs + [x])[..|xs + [x]| - 1] == xs;
      assert key(x) in ks <==> key(x) in init || key(x) == ks[|ks| - 1];
    }
  }

  lemma {:induction false} TotalSizeCovering<T, K>(xs: seq<T>, key: T -> K, ks: seq<K>)
    requires forall i, j :: 0 <= i < j < |ks| ==> ks[i] != ks[j]
    requires forall i :: 0 <= i < |xs| ==> key(xs[i]) in ks
    ensures TotalSize(xs, key, ks) == |xs|
  {
    if xs == [] {
      TotalSizeEmpty(key, ks);
    } else {
      var init := xs[..|xs| - 1];
      assert forall i :: 0 <= i < |init| ==> init[i] == xs[i];
      TotalSizeCovering(init, key, ks);
      assert xs == init + [xs[|xs| - 1]];
      TotalSizeSnoc(init, xs[|xs| - 1], key, ks);
    }
  }

  /** The groups partition `xs`: their sizes add up to its length. */
  lemma GroupSizesSum<T, K>(xs: seq<T>, key: T -> K)
    ensures TotalSize(xs, key, KeysInOrder(xs, key)) == |xs|
  {
    TotalSizeCovering(xs, key, KeysInOrder(xs, key));
  }
}
