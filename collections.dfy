/**
 * Python collection behaviour the companion depends on: the stable `sort`/`sorted`, dictionaries
 * that keep insertion order (as association lists) and counting into such a dictionary.
 */
module Collections {

  datatype Option<+T> = None | Some(value: T)

  /** `le(a, b)` means "`a` may be placed before `b`"; a total preorder. */
  ghost predicate TotalPreorder<T(!new)>(le: (T, T) -> bool) {
    && (forall a, b :: le(a, b) || le(b, a))
    && (forall a, b, c :: le(a, b) && le(b, c) ==> le(a, c))
  }

  ghost predicate SortedBy<T>(s: seq<T>, le: (T, T) -> bool) {
    forall i, j :: 0 <= i < j < |s| ==> le(s[i], s[j])
  }

  /** Puts `x` in front of the first element it may precede, so it stays ahead of its equals. */
  function Insert<T>(x: T, s: seq<T>, le: (T, T) -> bool): (r: seq<T>)
    ensures |r| == |s| + 1
    ensures multiset(r) == multiset(s) + multiset{x}
  {
    if s == [] then [x]
    else if le(x, s[0]) then [x] + s
    else
      assert s == [s[0]] + s[1..];
      [s[0]] + Insert(x, s[1..], le)
  }

  /**
   * Python's stable sort with `le` as the ordering: `sorted(s, key=k)` is `SortBy` with
   * `k(a) <= k(b)`, and `sorted(s, key=k, reverse=True)` is `SortBy` with `k(a) >= k(b)`
   * (reverse sorting in Python keeps equal elements in their original order too).
   */
  function SortBy<T>(s: seq<T>, le: (T, T) -> bool): (r: seq<T>)
    ensures |r| == |s|
    ensures multiset(r) == multiset(s)
  {
    if s == [] then []
    else
      assert s == [s[0]] + s[1..];
      Insert(s[0], SortBy(s[1..], le), le)
  }

  lemma {:induction false} InsertSorted<T(!new)>(x: T, s: seq<T>, le: (T, T) -> bool)
    requires TotalPreorder(le) && SortedBy(s, le)
    ensures SortedBy(Insert(x, s, le), le)
  {
    if s != [] && !le(x, s[0]) {
      InsertSorted(x, s[1..], le);
      var r := Insert(x, s[1..], le);
      forall j | 0 <= j < |r| ensures le(s[0], r[j]) {
        assert r[j] in multiset(r);
        if r[j] != x {
          assert r[j] in multiset(s[1..]);
          var k :| 0 <= k < |s[1..]| && s[1..][k] == r[j];
          assert s[k + 1] == r[j];
        }
      }
    }
  }

  /** The stable sort returns its input in `le` order. */
  lemma {:induction false} SortBySorted<T(!new)>(s: seq<T>, le: (T, T) -> bool)
    requires TotalPreorder(le)
    ensures SortedBy(SortBy(s, le), le)
  {
    if s != [] {
      SortBySorted(s[1..], le);
      InsertSorted(s[0], SortBy(s[1..], le), le);
    }
  }

  /** In a sorted sequence every element before position `b` may precede every element after it. */
  lemma SortedSplit<T>(s: seq<T>, b: nat, le: (T, T) -> bool)
    requires SortedBy(s, le) && b <= |s|
    ensures forall x, y :: x in multiset(s[..b]) && y in multiset(s[b..]) ==> le(x, y)
  {
    forall x, y | x in multiset(s[..b]) && y in multiset(s[b..]) ensures le(x, y) {
      var i :| 0 <= i < b && s[..b][i] == x;
      var j :| 0 <= j < |s| - b && s[b..][j] == y;
      assert s[i] == x && s[b + j] == y;
    }
  }

  /**
   * The first `b` elements of a sorted rearrangement `t` of `s` come from `s`, in order, and each
   * may precede every element left behind; taking all of them takes the whole input.
   */
  lemma SortedPrefix<T>(s: seq<T>, t: seq<T>, le: (T, T) -> bool, b: nat)
    requires SortedBy(t, le) && multiset(t) == multiset(s) && b <= |t|
    ensures forall x :: x in t[..b] ==> x in s
    ensures forall i, j :: 0 <= i < j < b ==> le(t[..b][i], t[..b][j])
    ensures forall x, y :: x in t[..b] && y in multiset(s) - multiset(t[..b]) ==> le(x, y)
    ensures b == |t| ==> multiset(t[..b]) == multiset(s)
  {
    var p := t[..b];
    assert t == p + t[b..];
    assert multiset(s) == multiset(p) + multiset(t[b..]);
    forall i, j | 0 <= i < j < b ensures le(p[i], p[j]) {
      assert p[i] == t[i] && p[j] == t[j];
    }
    assert multiset(s) - multiset(p) == multiset(t[b..]);
    SortedSplit(t, b, le);
    forall x | x in p ensures x in s {
      assert x in multiset(t);
    }
  }

  /** `min(xs)` */
  function Min(xs: seq<int>): (m: int)
    requires xs != []
    ensures m in xs
    ensures forall x :: x in xs ==> m <= x
  {
    if |xs| == 1 then xs[0]
    else
      var m := Min(xs[1..]);
      assert forall x :: x in xs ==> x == xs[0] || x in xs[1..];
      if xs[0] <= m then xs[0] else m
  }

  /** `max(xs)` */
  function Max(xs: seq<int>): (m: int)
    requires xs != []
    ensures m in xs
    ensures forall x :: x in xs ==> m >= x
  {
    if |xs| == 1 then xs[0]
    else
      var m := Max(xs[1..]);
      assert forall x :: x in xs ==> x == xs[0] || x in xs[1..];
      if xs[0] >= m then xs[0] else m
  }

  /** The first value stored under `k` in an association list. */
  function Get<K(==), V>(d: seq<(K, V)>, k: K): Option<V> {
    if d == [] then None
    else if d[0].0 == k then Some(d[0].1)
    else Get(d[1..], k)
  }

  /** `d.get(k, default)` */
  function GetOr<K(==), V>(d: seq<(K, V)>, k: K, default: V): V {
    match Get(d, k)
    case Some(v) => v
    case None => default
  }

  function Keys<K, V>(d: seq<(K, V)>): (ks: seq<K>)
    ensures |ks| == |d|
    ensures forall i :: 0 <= i < |d| ==> ks[i] == d[i].0
  {
    seq(|d|, i requires 0 <= i < |d| => d[i].0)
  }

  /** `d[k] = v` on a Python dict: replaces the value of a present key in place, else appends. */
  function Put<K(==), V>(d: seq<(K, V)>, k: K, v: V): (r: seq<(K, V)>)
    ensures Get(r, k) == Some(v)
  {
    if d == [] then [(k, v)]
    else if d[0].0 == k then [(k, v)] + d[1..]
    else [d[0]] + Put(d[1..], k, v)
  }

  lemma {:induction false} PutOther<K, V>(d: seq<(K, V)>, k: K, v: V, j: K)
    requires j != k
    ensures Get(Put(d, k, v), j) == Get(d, j)
  {
    if d != [] && d[0].0 != k {
      PutOther(d[1..], k, v, j);
    }
  }

  /** Keys appear at most once: what every Python dict guarantees. */
  ghost predicate DistinctKeys<K, V>(d: seq<(K, V)>) {
    forall i, j :: 0 <= i < j < |d| ==> d[i].0 != d[j].0
  }

  lemma {:induction false} GetIn<K, V>(d: seq<(K, V)>, k: K)
    requires Get(d, k).Some?
    ensures (k, Get(d, k).value) in d
  {
    if d[0].0 != k {
      GetIn(d[1..], k);
    }
  }

  lemma {:induction false} GetAbsent<K, V>(d: seq<(K, V)>, k: K)
    requires forall i :: 0 <= i < |d| ==> d[i].0 != k
    ensures Get(d, k).None?
  {
    if d != [] {
      GetAbsent(d[1..], k);
    }
  }

  /** In a dict with distinct keys, the last key is not among the earlier ones. */
  lemma DistinctInit<K, V>(d: seq<(K, V)>)
    requires DistinctKeys(d) && d != []
    ensures DistinctKeys(d[..|d| - 1])
    ensures Get(d[..|d| - 1], d[|d| - 1].0).None?
  {
    var init := d[..|d| - 1];
    forall i | 0 <= i < |init| ensures init[i].0 != d[|d| - 1].0 {
      assert init[i] == d[i];
    }
    GetAbsent(init, d[|d| - 1].0);
  }

  lemma {:induction false} GetOfMember<K, V>(d: seq<(K, V)>, i: nat)
    requires DistinctKeys(d) && i < |d|
    ensures Get(d, d[i].0) == Some(d[i].1)
  {
    if i > 0 {
      GetOfMember(d[1..], i - 1);
    }
  }

  lemma {:induction false} PutDistinct<K, V>(d: seq<(K, V)>, k: K, v: V)
    requires DistinctKeys(d)
    ensures DistinctKeys(Put(d, k, v))
    ensures Keys(Put(d, k, v)) == if Get(d, k).Some? then Keys(d) else Keys(d) + [k]
  {
    if d == [] {
      assert Put(d, k, v) == [(k, v)];
    } else if d[0].0 == k {
      var r := Put(d, k, v);
      assert r == [(k, v)] + d[1..];
      assert forall i :: 0 <= i < |d| ==> r[i].0 == d[i].0;
      assert Keys(r) == Keys(d);
      assert DistinctKeys(r) by {
        forall i, j | 0 <= i < j < |r| ensures r[i].0 != r[j].0 {
          assert r[i].0 == d[i].0 && r[j].0 == d[j].0;
        }
      }
    } else {
      var tail := d[1..];
      assert DistinctKeys(tail) by {
        forall i, j | 0 <= i < j < |tail| ensures tail[i].0 != tail[j].0 {
          assert tail[i] == d[i + 1] && tail[j] == d[j + 1];
        }
      }
      PutDistinct(tail, k, v);
      var r := Put(tail, k, v);
      assert d[0].0 !in Keys(tail) by {
        forall j | 0 <= j < |tail| ensures Keys(tail)[j] != d[0].0 {
          assert tail[j] == d[j + 1];
        }
      }
      assert d[0].0 !in Keys(r);
      forall j | 0 <= j < |r| ensures r[j].0 != d[0].0 {
        assert Keys(r)[j] == r[j].0;
      }
      var p := [d[0]] + r;
      assert Put(d, k, v) == p;
      assert DistinctKeys(p) by {
        forall i, j | 0 <= i < j < |p| ensures p[i].0 != p[j].0 {
          assert p[j] == r[j - 1];
          if i > 0 {
            assert p[i] == r[i - 1];
          }
        }
      }
      assert Keys([d[0]] + r) == [d[0].0] + Keys(r);
      assert Keys(d) == [d[0].0] + Keys(tail);
    }
  }

  function SumCounts<K>(d: seq<(K, nat)>): nat {
    if d == [] then 0 else d[0].1 + SumCounts(d[1..])
  }

  lemma {:induction false} PutSum<K>(d: seq<(K, nat)>, k: K, v: nat)
    ensures SumCounts(Put(d, k, v)) + GetOr(d, k, 0) == SumCounts(d) + v
  {
    if d != [] && d[0].0 != k {
      PutSum(d[1..], k, v);
    }
  }

  /**
   * The dictionary built by `counts[k] = counts.get(k, 0) + 1` for each `k` of `ks` in turn:
   * keys in order of first occurrence.
   */
  function Tally<K(==)>(ks: seq<K>): seq<(K, nat)> {
    if ks == [] then []
    else
      var d := Tally(ks[..|ks| - 1]);
      var k := ks[|ks| - 1];
      Put(d, k, GetOr(d, k, 0) + 1)
  }

  /** Counting one more key bumps its count by one. */
  lemma TallySnoc<K>(ks: seq<K>, k: K)
    ensures Tally(ks + [k]) == Put(Tally(ks), k, GetOr(Tally(ks), k, 0) + 1)
  {
    assert (ks + [k])[..|ks|] == ks;
  }

  /** The counts of a tally add up to the number of keys counted, and no key appears twice. */
  lemma {:induction false} TallySum<K>(ks: seq<K>)
    ensures SumCounts(Tally(ks)) == |ks|
    ensures DistinctKeys(Tally(ks))
  {
    if ks != [] {
      var d := Tally(ks[..|ks| - 1]);
      var k := ks[|ks| - 1];
      TallySum(ks[..|ks| - 1]);
      PutSum(d, k, GetOr(d, k, 0) + 1);
      PutDistinct(d, k, GetOr(d, k, 0) + 1);
    }
  }

  /** A tally stores, under each key, how often the key occurs. */
  lemma {:induction false} TallyCount<K>(ks: seq<K>, k: K)
    ensures GetOr(Tally(ks), k, 0) == multiset(ks)[k]
    ensures Get(Tally(ks), k).Some? <==> k in ks
  {
    if ks != [] {
      var init := ks[..|ks| - 1];
      var last := ks[|ks| - 1];
      TallyCount(init, k);
      var d := Tally(init);
      assert ks == init + [last];
      assert multiset(ks) == multiset(init) + multiset{last};
      if last != k {
        PutOther(d, last, GetOr(d, last, 0) + 1, k);
        assert multiset(ks)[k] == multiset(init)[k];
        assert k in ks <==> k in init;
      } else {
        assert multiset(ks)[k] == multiset(init)[k] + 1;
        assert k in ks;
      }
    }
  }

  /** Looking a key up in two lists joined end to end finds it in the first when it is there. */
  lemma {:induction false} GetConcat<K, V>(a: seq<(K, V)>, b: seq<(K, V)>, k: K)
    ensures Get(a + b, k) == if Get(a, k).Some? then Get(a, k) else Get(b, k)
  {
    if a != [] {
      assert (a + b)[1..] == a[1..] + b;
      GetConcat(a[1..], b, k);
    } else {
      assert a + b == b;
    }
  }

  /** Storing a key that is not present appends it. */
  lemma {:induction false} PutAbsent<K, V>(d: seq<(K, V)>, k: K, v: V)
    requires Get(d, k).None?
    ensures Put(d, k, v) == d + [(k, v)]
  {
    if d != [] {
      PutAbsent(d[1..], k, v);
    }
  }

  /** Storing again under the key of the last entry, and only there, replaces that entry. */
  lemma {:induction false} PutLast<K, V>(d: seq<(K, V)>, k: K, v: V, w: V)
    requires Get(d, k).None?
    ensures Put(d + [(k, w)], k, v) == d + [(k, v)]
  {
    if d != [] {
      assert (d + [(k, w)])[1..] == d[1..] + [(k, w)];
      PutLast(d[1..], k, v, w);
    }
  }

  /** Every entry of `Put(d, k, v)` is an entry of `d` or the stored one. */
  lemma {:induction false} PutEntries<K, V>(d: seq<(K, V)>, k: K, v: V)
    ensures forall p :: p in Put(d, k, v) ==> p in d || p == (k, v)
  {
    if d != [] && d[0].0 != k {
      PutEntries(d[1..], k, v);
    }
  }

  /** `s[-n:]` applied once `len(s) > n`: the newest `n` items, or all of them. */
  function Newest<T>(s: seq<T>, n: nat): (r: seq<T>)
    ensures |r| == if |s| > n then n else |s|
    ensures r == s[|s| - |r|..]
  {
    if |s| > n then s[|s| - n..] else s
  }

  /** The entries of `d` whose key is not in `gone`, in their order: `del d[k]` for each `k` of `gone`. */
  function Kept<K(==), V>(d: seq<(K, V)>, gone: set<K>): (r: seq<(K, V)>)
    ensures |r| <= |d|
  {
    if d == [] then []
    else (if d[0].0 in gone then [] else [d[0]]) + Kept(d[1..], gone)
  }

  /** What is kept is exactly the entries whose key is not gone. */
  lemma {:induction false} KeptMembers<K, V>(d: seq<(K, V)>, gone: set<K>)
    ensures forall i :: 0 <= i < |Kept(d, gone)| ==> Kept(d, gone)[i] in d && Kept(d, gone)[i].0 !in gone
    ensures forall i :: 0 <= i < |d| && d[i].0 !in gone ==> d[i] in Kept(d, gone)
  {
    if d != [] {
      var t := Kept(d[1..], gone);
      KeptMembers(d[1..], gone);
      var r := if d[0].0 in gone then t else [d[0]] + t;
      assert Kept(d, gone) == r;
      forall i | 0 <= i < |r| ensures r[i] in d && r[i].0 !in gone {
        if d[0].0 !in gone && i > 0 {
          assert r[i] == t[i - 1];
        }
      }
      forall i | 0 <= i < |d| && d[i].0 !in gone ensures d[i] in r {
        if i > 0 {
          assert d[i] == d[1..][i - 1];
        }
      }
    }
  }

  /** `del d[k]` */
  function Remove<K(==), V>(d: seq<(K, V)>, k: K): (r: seq<(K, V)>)
  {
    Kept(d, {k})
  }

  /** Removing one more key from what is kept removes it from the original. */
  lemma {:induction false} RemoveKept<K, V>(d: seq<(K, V)>, gone: set<K>, k: K)
    ensures Remove(Kept(d, gone), k) == Kept(d, gone + {k})
  {
    if d != [] {
      RemoveKept(d[1..], gone, k);
      var t := Kept(d[1..], gone);
      if d[0].0 in gone {
        assert Kept(d, gone) == t;
      } else {
        assert Kept(d, gone) == [d[0]] + t;
        assert ([d[0]] + t)[1..] == t;
      }
    }
  }

  /** A kept key maps to what it did; a gone key to nothing. */
  lemma {:induction false} KeptGet<K, V>(d: seq<(K, V)>, gone: set<K>, k: K)
    ensures Get(Kept(d, gone), k) == if k in gone then None else Get(d, k)
  {
    if d != [] {
      var t := Kept(d[1..], gone);
      KeptGet(d[1..], gone, k);
      if d[0].0 !in gone {
        var r := [d[0]] + t;
        assert Kept(d, gone) == r;
        assert r[0] == d[0] && r[1..] == t;
        assert Get(r, k) == if d[0].0 == k then Some(d[0].1) else Get(t, k);
      } else {
        assert Kept(d, gone) == t;
      }
    }
  }

  /** Keeping entries keeps their keys distinct. */
  lemma {:induction false} KeptDistinct<K, V>(d: seq<(K, V)>, gone: set<K>)
    requires DistinctKeys(d)
    ensures DistinctKeys(Kept(d, gone))
  {
    if d != [] {
      var t := Kept(d[1..], gone);
      assert DistinctKeys(d[1..]) by {
        forall i, j | 0 <= i < j < |d| - 1 ensures d[1..][i].0 != d[1..][j].0 {
          assert d[1..][i] == d[i + 1] && d[1..][j] == d[j + 1];
        }
      }
      KeptDistinct(d[1..], gone);
      if d[0].0 !in gone {
        var r := [d[0]] + t;
        assert Kept(d, gone) == r;
        KeptMembers(d[1..], gone);
        forall i, j | 0 <= i < j < |r| ensures r[i].0 != r[j].0 {
          if i == 0 {
            assert r[j] == t[j - 1] && r[j] in d[1..];
            var m :| 0 <= m < |d| - 1 && d[1..][m] == r[j];
            assert d[m + 1] == r[j];
          } else {
            assert r[i] == t[i - 1] && r[j] == t[j - 1];
          }
        }
      }
    }
  }

  /** A key that occurs is found. */
  lemma {:induction false} GetPresent<K, V>(d: seq<(K, V)>, i: nat)
    requires i < |d|
    ensures Get(d, d[i].0).Some?
  {
    if i > 0 && d[0].0 != d[i].0 {
      assert d[1..][i - 1] == d[i];
      GetPresent(d[1..], i - 1);
    }
  }
}
