/** The array built-ins the repositories use on whole collections:
    `findIndex` and `filter` on a string-valued key of each record
    (its `id`, or a sale's `marketId`). */
module Collections {

  /** `s.findIndex(x => key(x) === k)`: the first position holding key `k`, or -1. */
  function IndexOfKey<T>(s: seq<T>, key: T -> string, k: string): (r: int)
    ensures -1 <= r < |s|
    ensures r == -1 <==> forall j :: 0 <= j < |s| ==> key(s[j]) != k
    ensures 0 <= r ==> key(s[r]) == k && forall j :: 0 <= j < r ==> key(s[j]) != k
  {
    if s == [] then -1
    else if key(s[0]) == k then 0
    else
      var r := IndexOfKey(s[1..], key, k);
      if r == -1 then -1 else r + 1
  }

  /** `s.filter(x => key(x) !== k)`. */
  function WithoutKey<T>(s: seq<T>, key: T -> string, k: string): (r: seq<T>)
    ensures |r| <= |s|
  {
    if s == [] then []
    else if key(s[0]) == k then WithoutKey(s[1..], key, k)
    else [s[0]] + WithoutKey(s[1..], key, k)
  }

  /** `filter` keeps exactly the elements whose key differs from `k`, and
      changes nothing when no element has key `k`. */
  lemma {:induction false} WithoutKeyContents<T>(s: seq<T>, key: T -> string, k: string)
    ensures forall j :: 0 <= j < |WithoutKey(s, key, k)| ==> WithoutKey(s, key, k)[j] in s && key(WithoutKey(s, key, k)[j]) != k
    ensures forall j :: 0 <= j < |s| && key(s[j]) != k ==> s[j] in WithoutKey(s, key, k)
    ensures (forall j :: 0 <= j < |s| ==> key(s[j]) != k) ==> WithoutKey(s, key, k) == s
  {
    if s != [] {
      var r := WithoutKey(s, key, k);
      var t := WithoutKey(s[1..], key, k);
      WithoutKeyContents(s[1..], key, k);
      forall j | 0 <= j < |r|
        ensures r[j] in s && key(r[j]) != k
      {
        if key(s[0]) != k && j == 0 {
        } else if key(s[0]) != k {
          assert r == [s[0]] + t;
          assert r[j] == t[j - 1] && t[j - 1] in s[1..];
          TailMember(s, r[j]);
        } else {
          assert r == t;
          assert t[j] in s[1..];
          TailMember(s, r[j]);
        }
      }
      forall j | 0 <= j < |s| && key(s[j]) != k
        ensures s[j] in r
      {
        if j > 0 {
          assert s[j] == s[1..][j - 1];
          assert s[j] in t;
        }
      }
      if forall j :: 0 <= j < |s| ==> key(s[j]) != k {
        assert forall j :: 0 <= j < |s[1..]| ==> key(s[1..][j]) != k by {
          forall j | 0 <= j < |s[1..]| ensures key(s[1..][j]) != k {
            assert s[1..][j] == s[j + 1];
          }
        }
        assert r == [s[0]] + s[1..];
      }
    }
  }

  /** `s.filter(x => key(x) === k)`. */
  function WithKey<T>(s: seq<T>, key: T -> string, k: string): (r: seq<T>)
    ensures |r| <= |s|
  {
    if s == [] then []
    else if key(s[0]) == k then [s[0]] + WithKey(s[1..], key, k)
    else WithKey(s[1..], key, k)
  }

  /** `filter` keeps exactly the elements whose key is `k`. */
  lemma {:induction false} WithKeyContents<T>(s: seq<T>, key: T -> string, k: string)
    ensures forall j :: 0 <= j < |WithKey(s, key, k)| ==> WithKey(s, key, k)[j] in s && key(WithKey(s, key, k)[j]) == k
    ensures forall j :: 0 <= j < |s| && key(s[j]) == k ==> s[j] in WithKey(s, key, k)
  {
    if s != [] {
      var r := WithKey(s, key, k);
      var t := WithKey(s[1..], key, k);
      WithKeyContents(s[1..], key, k);
      forall j | 0 <= j < |r|
        ensures r[j] in s && key(r[j]) == k
      {
        if key(s[0]) == k && j == 0 {
        } else if key(s[0]) == k {
          assert r == [s[0]] + t;
          assert r[j] == t[j - 1] && t[j - 1] in s[1..];
          TailMember(s, r[j]);
        } else {
          assert r == t;
          assert t[j] in s[1..];
          TailMember(s, r[j]);
        }
      }
      forall j | 0 <= j < |s| && key(s[j]) == k
        ensures s[j] in r
      {
        if j > 0 {
          assert s[j] == s[1..][j - 1];
          assert s[j] in t;
        }
      }
    }
  }

  lemma TailMember<T>(s: seq<T>, x: T)
    requires s != [] && x in s[1..]
    ensures x in s
  {
    var i :| 0 <= i < |s[1..]| && s[1..][i] == x;
    assert s[i + 1] == x;
  }

  /** Filtering keeps relative order: it distributes over concatenation. */
  lemma {:induction false} WithoutKeyConcat<T>(a: seq<T>, b: seq<T>, key: T -> string, k: string)
    ensures WithoutKey(a + b, key, k) == WithoutKey(a, key, k) + WithoutKey(b, key, k)
    decreases |a|
  {
    if a == [] {
      assert a + b == b;
    } else {
      var ab := a + b;
      assert ab[0] == a[0] && ab[1..] == a[1..] + b;
      WithoutKeyConcat(a[1..], b, key, k);
      var rest := WithoutKey(a[1..], key, k) + WithoutKey(b, key, k);
      if key(a[0]) == k {
        assert WithoutKey(ab, key, k) == rest;
      } else {
        assert WithoutKey(ab, key, k) == [a[0]] + rest;
        assert [a[0]] + rest == ([a[0]] + WithoutKey(a[1..], key, k)) + WithoutKey(b, key, k);
      }
    }
  }

  lemma {:induction false} WithKeyConcat<T>(a: seq<T>, b: seq<T>, key: T -> string, k: string)
    ensures WithKey(a + b, key, k) == WithKey(a, key, k) + WithKey(b, key, k)
    decreases |a|
  {
    if a == [] {
      assert a + b == b;
    } else {
      var ab := a + b;
      assert ab[0] == a[0] && ab[1..] == a[1..] + b;
      WithKeyConcat(a[1..], b, key, k);
      var rest := WithKey(a[1..], key, k) + WithKey(b, key, k);
      if key(a[0]) == k {
        assert WithKey(ab, key, k) == [a[0]] + rest;
        assert [a[0]] + rest == ([a[0]] + WithKey(a[1..], key, k)) + WithKey(b, key, k);
      } else {
        assert WithKey(ab, key, k) == rest;
      }
    }
  }

  /** The two filters split a collection: every element goes to exactly one side,
      so their sizes add up to the whole. */
  lemma FiltersPartition<T>(s: seq<T>, key: T -> string, k: string)
    ensures multiset(WithKey(s, key, k)) + multiset(WithoutKey(s, key, k)) == multiset(s)
    ensures |WithKey(s, key, k)| + |WithoutKey(s, key, k)| == |s|
  {
    FiltersSplit(s, key, k);
    assert |multiset(WithKey(s, key, k))| == |WithKey(s, key, k)|;
    assert |multiset(WithoutKey(s, key, k))| == |WithoutKey(s, key, k)|;
  }

  lemma {:induction false} FiltersSplit<T>(s: seq<T>, key: T -> string, k: string)
    ensures multiset(WithKey(s, key, k)) + multiset(WithoutKey(s, key, k)) == multiset(s)
  {
    if s != [] {
      var w := WithKey(s[1..], key, k);
      var o := WithoutKey(s[1..], key, k);
      FiltersSplit(s[1..], key, k);
      assert multiset(s) == multiset{s[0]} + multiset(s[1..]) by {
        assert s == [s[0]] + s[1..];
      }
      if key(s[0]) == k {
        assert multiset(WithKey(s, key, k)) == multiset{s[0]} + multiset(w);
        assert multiset(WithoutKey(s, key, k)) == multiset(o);
      } else {
        assert multiset(WithKey(s, key, k)) == multiset(w);
        assert multiset(WithoutKey(s, key, k)) == multiset{s[0]} + multiset(o);
      }
    }
  }
}
