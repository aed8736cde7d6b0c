/** Grouping a list by a key into a dictionary of arrays, filled in place the way
    VenueDashboard.tsx:124-130 (`forEach` + `push`) and VenuesPage.tsx:94-100 (`reduce` + `push`)
    do it. The dictionary is a `map`; `Object.keys` order (first insertion) is kept beside it. */
module Grouping {
  import opened Sorting
  import opened Lists

  /** The elements of `s` whose key is `k`, in input order. */
  function OnKey<K(==), T>(s: seq<T>, key: T -> K, k: K): seq<T>
    decreases |s|
  {
    if s == [] then []
    else OnKey(s[..|s| - 1], key, k) + (if key(s[|s| - 1]) == k then [s[|s| - 1]] else [])
  }

  /** The keys of `s` in order of first appearance: what `Object.keys` returns. */
  function KeysInOrder<K(==), T>(s: seq<T>, key: T -> K): seq<K>
    decreases |s|
  {
    if s == [] then []
    else
      var before := KeysInOrder(s[..|s| - 1], key);
      if key(s[|s| - 1]) in before then before else before + [key(s[|s| - 1])]
  }

  /** The sum of the group sizes taken over the listed keys. */
  function SumSizes<K(==), T>(ks: seq<K>, s: seq<T>, key: T -> K): nat
    decreases |ks|
  {
    if ks == [] then 0 else SumSizes(ks[..|ks| - 1], s, key) + |OnKey(s, key, ks[|ks| - 1])|
  }

  /** An element belongs to the group of its own key and to no other, with the same multiplicity. */
  lemma {:induction false} OnKeyCount<K, T>(s: seq<T>, key: T -> K, k: K, x: T)
    ensures multiset(OnKey(s, key, k))[x] == if key(x) == k then multiset(s)[x] else 0
    decreases |s|
  {
    if s != [] {
      var init, last := s[..|s| - 1], s[|s| - 1];
      assert s == init + [last];
      OnKeyCount(init, key, k, x);
    }
  }

  /** Every member of a group has the group's key and comes from the input. */
  lemma OnKeyMembers<K, T>(s: seq<T>, key: T -> K, k: K)
    ensures forall x :: x in OnKey(s, key, k) <==> x in s && key(x) == k
  {
    forall x ensures x in OnKey(s, key, k) <==> x in s && key(x) == k {
      OnKeyCount(s, key, k, x);
    }
  }

  /** The keys come out once each, and they are exactly the keys that occur in the input. */
  lemma {:induction false} KeysInOrderSpec<K, T>(s: seq<T>, key: T -> K)
    ensures Distinct(KeysInOrder(s, key))
    ensures forall k :: k in KeysInOrder(s, key) <==> exists i :: 0 <= i < |s| && key(s[i]) == k
    decreases |s|
  {
    if s != [] {
      var init, last := s[..|s| - 1], s[|s| - 1];
      KeysInOrderSpec(init, key);
      forall k ensures k in KeysInOrder(s, key) <==> exists i :: 0 <= i < |s| && key(s[i]) == k {
        if k in KeysInOrder(init, key) {
          var i :| 0 <= i < |init| && key(init[i]) == k;
          assert key(s[i]) == k;
        }
        if i :| 0 <= i < |s| && key(s[i]) == k {
          if i < |init| {
            assert key(init[i]) == k;
          }
        }
      }
    }
  }

  /** Adding one element to the input adds one to the sum over each key list once per
      occurrence of the element's key in that list. */
  lemma {:induction false} SumSizesStep<K, T>(ks: seq<K>, s: seq<T>, key: T -> K)
    requires s != []
    ensures SumSizes(ks, s, key) == SumSizes(ks, s[..|s| - 1], key) + multiset(ks)[key(s[|s| - 1])]
    decreases |ks|
  {
    if ks != [] {
      assert ks == ks[..|ks| - 1] + [ks[|ks| - 1]];
      SumSizesStep(ks[..|ks| - 1], s, key);
    }
  }

  /** Group sizes over a duplicate-free key list that covers every key sum to the input length. */
  lemma {:induction false} SizesSum<K, T>(ks: seq<K>, s: seq<T>, key: T -> K)
    requires Distinct(ks)
    requires forall i :: 0 <= i < |s| ==> key(s[i]) in ks
    ensures SumSizes(ks, s, key) == |s|
    decreases |s|
  {
    if s == [] {
      SumZero(ks, key);
    } else {
      var init := s[..|s| - 1];
      assert forall i :: 0 <= i < |init| ==> init[i] == s[i];
      SizesSum(ks, init, key);
      SumSizesStep(ks, s, key);
      DistinctOnce(ks, key(s[|s| - 1]));
      assert key(s[|s| - 1]) in multiset(ks);
    }
  }

  /** Helper for `SizesSum`: with no input every group is empty, whatever the key list. */
  lemma {:induction false} SumZero<K, T>(ks: seq<K>, key: T -> K)
    ensures SumSizes(ks, [], key) == 0
    decreases |ks|
  {
    if ks != [] {
      SumZero(ks[..|ks| - 1], key);
    }
  }

  /** A group is the input filtered by its key, so it keeps the input order
      (`Lists.FilterKeepsOrder`). */
  lemma {:induction false} OnKeyIsFilter<K(!new), T(!new)>(s: seq<T>, key: T -> K, k: K)
    ensures OnKey(s, key, k) == Filter(s, x => key(x) == k)
    decreases |s|
  {
    if s != [] {
      var init := s[..|s| - 1];
      OnKeyIsFilter(init, key, k);
      assert s == init + [s[|s| - 1]];
    }
  }

  /** A duplicate-free list has as many elements as the set of its elements. */
  lemma {:induction false} DistinctCardinality<T>(s: seq<T>)
    requires Distinct(s)
    ensures |set x | x in s| == |s|
    decreases |s|
  {
    if s != [] {
      var init, last := s[..|s| - 1], s[|s| - 1];
      assert Distinct(init) by {
        forall i, j | 0 <= i < j < |init| ensures init[i] != init[j] {
          assert init[i] == s[i] && init[j] == s[j];
        }
      }
      DistinctCardinality(init);
      assert last !in init by {
        forall i | 0 <= i < |init| ensures init[i] != last {
          assert init[i] == s[i];
        }
      }
      assert (set x | x in s) == (set x | x in init) + {last} by {
        assert s == init + [last];
      }
    }
  }

  /** Fills a dictionary of groups in one pass, appending each element to the array of its key
      and creating that array on first sight of the key. */
  method GroupBy<K(==), T>(s: seq<T>, key: T -> K) returns (grouped: map<K, seq<T>>, order: seq<K>)
    ensures order == KeysInOrder(s, key)
    ensures grouped.Keys == set k | k in order
    ensures forall k :: k in grouped ==> grouped[k] == OnKey(s, key, k) && grouped[k] != []
  {
    grouped, order := map[], [];
    for i := 0 to |s|
      invariant order == KeysInOrder(s[..i], key)
      invariant grouped.Keys == set k | k in order
      invariant forall k :: k in grouped ==> grouped[k] == OnKey(s[..i], key, k) && grouped[k] != []
    {
      var k := key(s[i]);
      PrefixStep(s, i, key);
      if k !in grouped {
        UnlistedKeyEmpty(s[..i], key, k);
        grouped := grouped[k := []];
        order := order + [k];
      }
      ghost var before := grouped;
      grouped := grouped[k := grouped[k] + [s[i]]];
      forall k' | k' in grouped ensures grouped[k'] == OnKey(s[..i + 1], key, k') {
        assert OnKey(s[..i + 1], key, k') == OnKey(s[..i], key, k') + (if k == k' then [s[i]] else []);
        assert before[k'] == OnKey(s[..i], key, k');
      }
    }
    assert s[..|s|] == s;
  }

  /** Extending a prefix by one element extends the group of its key and the key list, and
      leaves every other group as it was. */
  lemma PrefixStep<K, T>(s: seq<T>, i: nat, key: T -> K)
    requires i < |s|
    ensures forall k :: OnKey(s[..i + 1], key, k) == OnKey(s[..i], key, k) + (if key(s[i]) == k then [s[i]] else [])
    ensures KeysInOrder(s[..i + 1], key) ==
      if key(s[i]) in KeysInOrder(s[..i], key) then KeysInOrder(s[..i], key) else KeysInOrder(s[..i], key) + [key(s[i])]
  {
    assert s[..i + 1][..i] == s[..i];
    assert s[..i + 1][i] == s[i];
  }

  /** A key not among the listed keys has an empty group. */
  lemma {:induction false} UnlistedKeyEmpty<K, T>(s: seq<T>, key: T -> K, k: K)
    requires k !in KeysInOrder(s, key)
    ensures OnKey(s, key, k) == []
    decreases |s|
  {
    if s != [] {
      UnlistedKeyEmpty(s[..|s| - 1], key, k);
    }
  }
}
