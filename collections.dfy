/** Generic sequence tools: summing a real-valued measure over a list, and
    the stable insertion sort that stands for a library `sort` driven by a
    key comparator. */
module Sums {

  /** Sum of `g` over `s`, accumulated left to right as a `for` loop does. */
  function SumOf<T>(s: seq<T>, g: T -> real): real
  {
    if s == [] then 0.0 else SumOf(s[..|s| - 1], g) + g(s[|s| - 1])
  }

  lemma {:induction false} SumOfAppend<T>(a: seq<T>, b: seq<T>, g: T -> real)
    ensures SumOf(a + b, g) == SumOf(a, g) + SumOf(b, g)
    decreases |b|
  {
    if b == [] {
      assert a + b == a;
    } else {
      assert (a + b)[..|a + b| - 1] == a + b[..|b| - 1];
      SumOfAppend(a, b[..|b| - 1], g);
    }
  }

  /** A sum does not depend on the order of the list: any permutation
      gives the same total. */
  lemma {:induction false} SumOfPermutation<T>(s: seq<T>, t: seq<T>, g: T -> real)
    requires multiset(s) == multiset(t)
    ensures SumOf(s, g) == SumOf(t, g)
    decreases |s|
  {
    if s == [] {
      assert |t| == |multiset(t)| == 0;
    } else {
      var n := |s| - 1;
      var x := s[n];
      assert s == s[..n] + [x];
      assert x in multiset(t);
      var i :| 0 <= i < |t| && t[i] == x;
      var rest := t[..i] + t[i + 1..];
      assert t == t[..i] + [x] + t[i + 1..];
      assert multiset(rest) == multiset(t) - multiset{x};
      assert multiset(s[..n]) == multiset(s) - multiset{x};
      SumOfPermutation(s[..n], rest, g);
      SumOfAppend(t[..i] + [x], t[i + 1..], g);
      SumOfAppend(t[..i], [x], g);
      SumOfAppend(t[..i], t[i + 1..], g);
      assert SumOf([x], g) == g(x) by { assert [x][..0] == []; }
    }
  }
}

module Sorting {

  /** `lt` is a strict total order on strings: irreflexive, transitive and
      relating any two distinct strings one way or the other. */
  ghost predicate StrictTotalOrder(lt: (string, string) -> bool) {
    && (forall a :: !lt(a, a))
    && (forall a, b, c :: lt(a, b) && lt(b, c) ==> lt(a, c))
    && (forall a, b :: a != b ==> lt(a, b) || lt(b, a))
  }

  predicate DistinctKeys<T>(s: seq<T>, key: T -> string) {
    forall i, j :: 0 <= i < j < |s| ==> key(s[i]) != key(s[j])
  }

  predicate StrictlySorted<T>(s: seq<T>, key: T -> string, lt: (string, string) -> bool) {
    forall i, j :: 0 <= i < j < |s| ==> lt(key(s[i]), key(s[j]))
  }

  /** A strictly sorted list under an irreflexive order has distinct keys. */
  lemma SortedDistinctKeys<T>(s: seq<T>, key: T -> string, lt: (string, string) -> bool)
    requires forall a :: !lt(a, a)
    requires StrictlySorted(s, key, lt)
    ensures DistinctKeys(s, key)
  {
  }

  /** Inserts `x` before the first element that does not sort below it. */
  function Insert<T>(x: T, s: seq<T>, key: T -> string, lt: (string, string) -> bool): seq<T>
  {
    if s == [] || !lt(key(s[0]), key(x)) then [x] + s
    else [s[0]] + Insert(x, s[1..], key, lt)
  }

  /** Insertion sort of `s` by `key` under the comparator `lt`. */
  function SortByKey<T>(s: seq<T>, key: T -> string, lt: (string, string) -> bool): seq<T>
  {
    if s == [] then [] else Insert(s[0], SortByKey(s[1..], key, lt), key, lt)
  }

  lemma {:induction false} InsertPermutes<T>(x: T, s: seq<T>, key: T -> string, lt: (string, string) -> bool)
    ensures multiset(Insert(x, s, key, lt)) == multiset(s) + multiset{x}
  {
    if s != [] && lt(key(s[0]), key(x)) {
      InsertPermutes(x, s[1..], key, lt);
      assert s == [s[0]] + s[1..];
    }
  }

  /** Sorting only reorders: the result is a permutation of the input. */
  lemma {:induction false} SortPermutes<T>(s: seq<T>, key: T -> string, lt: (string, string) -> bool)
    ensures multiset(SortByKey(s, key, lt)) == multiset(s)
  {
    if s != [] {
      SortPermutes(s[1..], key, lt);
      InsertPermutes(s[0], SortByKey(s[1..], key, lt), key, lt);
      assert s == [s[0]] + s[1..];
    }
  }

  lemma {:induction false} InsertSorted<T>(x: T, s: seq<T>, key: T -> string, lt: (string, string) -> bool)
    requires StrictTotalOrder(lt)
    requires StrictlySorted(s, key, lt)
    requires forall y :: y in s ==> key(y) != key(x)
    ensures StrictlySorted(Insert(x, s, key, lt), key, lt)
  {
    if s == [] {
    } else if !lt(key(s[0]), key(x)) {
      assert lt(key(x), key(s[0]));
    } else {
      var tail := Insert(x, s[1..], key, lt);
      InsertSorted(x, s[1..], key, lt);
      InsertPermutes(x, s[1..], key, lt);
      forall j | 0 <= j < |tail| ensures lt(key(s[0]), key(tail[j])) {
        assert tail[j] in multiset(tail);
        if tail[j] != x {
          assert tail[j] in multiset(s[1..]);
          var k :| 0 <= k < |s[1..]| && s[1..][k] == tail[j];
          assert s[k + 1] == tail[j];
        }
      }
    }
  }

  /** With a strict total order and distinct keys, sorting yields a list
      strictly ascending by key. */
  lemma {:induction false} SortSorted<T>(s: seq<T>, key: T -> string, lt: (string, string) -> bool)
    requires StrictTotalOrder(lt)
    requires DistinctKeys(s, key)
    ensures StrictlySorted(SortByKey(s, key, lt), key, lt)
  {
    if s != [] {
      var rest := SortByKey(s[1..], key, lt);
      SortSorted(s[1..], key, lt);
      SortPermutes(s[1..], key, lt);
      forall y | y in rest ensures key(y) != key(s[0]) {
        assert y in multiset(rest);
        assert y in multiset(s[1..]);
        var k :| 0 <= k < |s[1..]| && s[1..][k] == y;
        assert s[k + 1] == y;
      }
      InsertSorted(s[0], rest, key, lt);
    }
  }
}

/** Splitting a list into buckets by a string key, keeping list order
    inside each bucket. */
module Grouping {

  /** The elements of `cs` whose key is `k`, in list order. */
  function Members<T>(cs: seq<T>, key: T -> string, k: string): seq<T> {
    if cs == [] then []
    else Members(cs[..|cs| - 1], key, k) + (if key(cs[|cs| - 1]) == k then [cs[|cs| - 1]] else [])
  }

  ghost function Keys<T>(cs: seq<T>, key: T -> string): set<string> {
    set c | c in cs :: key(c)
  }

  lemma KeysSnoc<T>(cs: seq<T>, key: T -> string, c: T)
    ensures Keys(cs + [c], key) == Keys(cs, key) + {key(c)}
  {
    forall x | x in cs + [c] ensures x in cs || x == c { }
    forall x | x in cs ensures x in cs + [c] { }
  }

  lemma MembersSnoc<T>(cs: seq<T>, key: T -> string, c: T, k: string)
    ensures Members(cs + [c], key, k) == Members(cs, key, k) + (if key(c) == k then [c] else [])
  {
    assert (cs + [c])[..|cs|] == cs;
  }

  lemma {:induction false} MembersAbsent<T>(cs: seq<T>, key: T -> string, k: string)
    requires k !in Keys(cs, key)
    ensures Members(cs, key, k) == []
  {
    if cs != [] {
      assert Keys(cs[..|cs| - 1], key) <= Keys(cs, key) by {
        forall c | c in cs[..|cs| - 1] ensures c in cs { }
      }
      assert cs[|cs| - 1] in cs;
      MembersAbsent(cs[..|cs| - 1], key, k);
    }
  }

  lemma {:induction false} MembersKey<T>(cs: seq<T>, key: T -> string, k: string, c: T)
    requires c in Members(cs, key, k)
    ensures c in cs && key(c) == k
  {
    if cs != [] {
      var n := |cs| - 1;
      if c in Members(cs[..n], key, k) {
        MembersKey(cs[..n], key, k, c);
        assert cs[..n] <= cs;
      }
    }
  }

  lemma {:induction false} MembersHas<T>(cs: seq<T>, key: T -> string, c: T)
    requires c in cs
    ensures c in Members(cs, key, key(c))
  {
    var n := |cs| - 1;
    if cs[n] != c {
      assert c in cs[..n] by { assert cs == cs[..n] + [cs[n]]; }
      MembersHas(cs[..n], key, c);
    }
  }

  /** Members computed from the front of the list. */
  lemma {:induction false} MembersCons<T>(c: T, cs: seq<T>, key: T -> string, k: string)
    ensures Members([c] + cs, key, k) == (if key(c) == k then [c] else []) + Members(cs, key, k)
    decreases |cs|
  {
    if cs != [] {
      var n := |cs| - 1;
      assert ([c] + cs)[..|[c] + cs| - 1] == [c] + cs[..n];
      MembersCons(c, cs[..n], key, k);
    } else {
      assert [c] + cs == [c];
      assert [c][..0] == [];
    }
  }

  /** Every element lands in exactly the group of its own key, and no other. */
  lemma MembersPartition<T>(cs: seq<T>, key: T -> string, c: T, k: string)
    requires c in cs
    ensures c in Members(cs, key, k) <==> k == key(c)
  {
    if c in Members(cs, key, k) {
      MembersKey(cs, key, k, c);
    }
    if k == key(c) {
      MembersHas(cs, key, c);
    }
  }

  /** One pass that appends each element to the bucket of its key,
      creating the bucket on first sight (`Record` push in the front end,
      `dict.setdefault(...).append` in the back end); `order` lists each
      key once. */
  method Bucket<T>(xs: seq<T>, key: T -> string)
    returns (buckets: map<string, seq<T>>, order: seq<string>)
    ensures buckets.Keys == Keys(xs, key)
    ensures forall k :: k in buckets ==> buckets[k] == Members(xs, key, k)
    ensures forall k :: k in order <==> k in buckets
    ensures forall a, b :: 0 <= a < b < |order| ==> order[a] != order[b]
  {
    buckets, order := map[], [];
    for i := 0 to |xs|
      invariant buckets.Keys == Keys(xs[..i], key)
      invariant forall k :: k in buckets ==> buckets[k] == Members(xs[..i], key, k)
      invariant forall k :: k in order <==> k in buckets
      invariant forall a, b :: 0 <= a < b < |order| ==> order[a] != order[b]
    {
      var c := xs[i];
      var obj := key(c);
      assert xs[..i + 1] == xs[..i] + [c];
      KeysSnoc(xs[..i], key, c);
      if obj !in buckets {
        MembersAbsent(xs[..i], key, obj);
        buckets := buckets[obj := []];
        order := order + [obj];
      }
      buckets := buckets[obj := buckets[obj] + [c]];
      forall k | k in buckets ensures buckets[k] == Members(xs[..i + 1], key, k) {
        MembersSnoc(xs[..i], key, c, k);
      }
    }
    assert xs[..|xs|] == xs;
  }

}
