/** Generic sequence operations that stand for the LINQ pipelines and
    `List<T>` mutations of the source: `Where` (Keep/Drop against the set of
    elements the predicate selects), `List.Remove` (RemoveFirst), a `foreach`
    of `Remove` calls (RemoveEach), `Distinct`, `Take` and `OrderBy` (a stable
    insertion sort on an integer key). */
module Seqs {

  /** The elements of `s` that belong to `m`, in their order in `s`. */
  function Keep<T>(s: seq<T>, m: set<T>): (r: seq<T>)
    ensures |r| <= |s|
    ensures forall i :: 0 <= i < |r| ==> r[i] in s && r[i] in m
    ensures forall i :: 0 <= i < |s| && s[i] in m ==> s[i] in r
  {
    if |s| == 0 then []
    else if s[0] in m then [s[0]] + Keep(s[1..], m)
    else Keep(s[1..], m)
  }

  /** The elements of `s` that do not belong to `m`, in their order in `s`. */
  function Drop<T>(s: seq<T>, m: set<T>): (r: seq<T>)
    ensures |r| <= |s|
    ensures forall i :: 0 <= i < |r| ==> r[i] in s && r[i] !in m
    ensures forall i :: 0 <= i < |s| && s[i] !in m ==> s[i] in r
  {
    if |s| == 0 then []
    else if s[0] in m then Drop(s[1..], m)
    else [s[0]] + Drop(s[1..], m)
  }

  /** Keeping and dropping split a sequence without losing or inventing elements. */
  lemma {:induction false} KeepDropSizes<T>(s: seq<T>, m: set<T>)
    ensures |Keep(s, m)| + |Drop(s, m)| == |s|
    ensures multiset(Keep(s, m)) + multiset(Drop(s, m)) == multiset(s)
  {
    if |s| > 0 {
      KeepDropSizes(s[1..], m);
      assert s == [s[0]] + s[1..];
    }
  }

  /** Keep distributes over concatenation. */
  lemma {:induction false} KeepAppend<T>(s: seq<T>, t: seq<T>, m: set<T>)
    ensures Keep(s + t, m) == Keep(s, m) + Keep(t, m)
  {
    if |s| > 0 {
      assert (s + t)[1..] == s[1..] + t;
      KeepAppend(s[1..], t, m);
    } else {
      assert s + t == t;
    }
  }

  /** Drop distributes over concatenation. */
  lemma {:induction false} DropAppend<T>(s: seq<T>, t: seq<T>, m: set<T>)
    ensures Drop(s + t, m) == Drop(s, m) + Drop(t, m)
  {
    if |s| > 0 {
      assert (s + t)[1..] == s[1..] + t;
      DropAppend(s[1..], t, m);
    } else {
      assert s + t == t;
    }
  }

  /** The index of the first occurrence of `x` in `s`. */
  function IndexOf<T(==)>(s: seq<T>, x: T): (i: nat)
    requires x in s
    ensures i < |s| && s[i] == x
    ensures forall j :: 0 <= j < i ==> s[j] != x
  {
    if s[0] == x then 0 else 1 + IndexOf(s[1..], x)
  }

  /** `List<T>.Remove(x)`: removes the first occurrence of `x`, if any. */
  function RemoveFirst<T(==)>(s: seq<T>, x: T): (r: seq<T>)
    ensures x !in s ==> r == s
    ensures x in s ==> |r| == |s| - 1
  {
    if |s| == 0 then []
    else if s[0] == x then s[1..]
    else [s[0]] + RemoveFirst(s[1..], x)
  }

  /** Slicing `s` around position `k + 1` is slicing its tail around `k`. */
  lemma TailSlices<T>(s: seq<T>, k: nat)
    requires k + 1 < |s|
    ensures s[..k + 1] == [s[0]] + s[1..][..k]
    ensures s[k + 2..] == s[1..][k + 1..]
  {
    assert forall i :: 0 <= i <= k ==> s[..k + 1][i] == ([s[0]] + s[1..][..k])[i];
  }

  /** RemoveFirst cuts out exactly the position `IndexOf` finds. */
  lemma {:induction false} RemoveFirstAt<T>(s: seq<T>, x: T)
    requires x in s
    ensures RemoveFirst(s, x) == s[..IndexOf(s, x)] + s[IndexOf(s, x) + 1..]
  {
    if s[0] != x {
      var t := s[1..];
      assert x in t;
      RemoveFirstAt(t, x);
      var k := IndexOf(t, x);
      assert IndexOf(s, x) == k + 1 by { assert s[0] != x; }
      calc {
        RemoveFirst(s, x);
        [s[0]] + RemoveFirst(t, x);
        [s[0]] + (t[..k] + t[k + 1..]);
        { TailSlices(s, k); }
        s[..k + 1] + s[k + 2..];
      }
    }
  }

  /** A `foreach (var x in xs) list.Remove(x);` loop. */
  function RemoveEach<T(==)>(s: seq<T>, xs: seq<T>): seq<T>
    decreases |xs|
  {
    if |xs| == 0 then s else RemoveEach(RemoveFirst(s, xs[0]), xs[1..])
  }

  /** Removing elements that differ from the head leaves the head in place. */
  lemma {:induction false} RemoveEachSkipsHead<T>(a: T, t: seq<T>, xs: seq<T>)
    requires a !in xs
    ensures RemoveEach([a] + t, xs) == [a] + RemoveEach(t, xs)
    decreases |xs|
  {
    if |xs| > 0 {
      assert ([a] + t)[1..] == t;
      assert RemoveFirst([a] + t, xs[0]) == [a] + RemoveFirst(t, xs[0]);
      assert xs[0] in xs;
      assert forall y :: y in xs[1..] ==> y in xs;
      RemoveEachSkipsHead(a, RemoveFirst(t, xs[0]), xs[1..]);
    }
  }

  /** Removing, one `Remove` call at a time, the elements a filter selected
      removes exactly those elements, duplicates included: the first
      occurrence of each selected element is the one the filter met first. */
  lemma {:induction false} RemoveEachOfKeep<T>(s: seq<T>, m: set<T>)
    ensures RemoveEach(s, Keep(s, m)) == Drop(s, m)
  {
    if |s| > 0 {
      var t := s[1..];
      assert s == [s[0]] + t;
      RemoveEachOfKeep(t, m);
      if s[0] in m {
        assert Keep(s, m) == [s[0]] + Keep(t, m);
        assert RemoveFirst(s, s[0]) == t;
      } else {
        assert Keep(s, m) == Keep(t, m);
        RemoveEachSkipsHead(s[0], t, Keep(t, m));
      }
    }
  }

  /** `Enumerable.Distinct`: the first occurrence of every element, in order. */
  function Distinct<T(==)>(s: seq<T>): (r: seq<T>)
    ensures forall i :: 0 <= i < |r| ==> r[i] in s
    ensures forall i :: 0 <= i < |s| ==> s[i] in r
    ensures forall i, j :: 0 <= i < j < |r| ==> r[i] != r[j]
    ensures |r| <= |s|
    decreases |s|
  {
    if |s| == 0 then []
    else
      var rest := Drop(s[1..], {s[0]});
      var r := [s[0]] + Distinct(rest);
      assert forall i :: 0 <= i < |s| ==> s[i] in r by {
        forall i | 0 <= i < |s| ensures s[i] in r {
          if i > 0 && s[i] != s[0] {
            assert s[1..][i - 1] == s[i];
          }
        }
      }
      r
  }

  /** Where `x` first appears in `s`, or `|s|` when it does not. */
  function FirstIndex<T(==)>(s: seq<T>, x: T): (k: nat)
    ensures k <= |s| && (k < |s| ==> s[k] == x)
    ensures forall j :: 0 <= j < k ==> s[j] != x
    decreases |s|
  {
    if |s| == 0 then 0
    else if s[0] == x then 0
    else
      assert forall j :: 1 <= j < |s| ==> s[j] == s[1..][j - 1];
      1 + FirstIndex(s[1..], x)
  }

  /** Dropping elements keeps the order in which the others first appear. */
  lemma {:induction false} DropFirstOrder<T>(s: seq<T>, m: set<T>, x: T, y: T)
    requires x !in m && y !in m
    requires FirstIndex(Drop(s, m), x) < FirstIndex(Drop(s, m), y)
    ensures FirstIndex(s, x) < FirstIndex(s, y)
    decreases |s|
  {
    var d := Drop(s, m);
    if s[0] in m {
      assert d == Drop(s[1..], m);
      DropFirstOrder(s[1..], m, x, y);
    } else {
      assert d == [s[0]] + Drop(s[1..], m);
      assert d[1..] == Drop(s[1..], m);
      if s[0] != x && s[0] != y {
        DropFirstOrder(s[1..], m, x, y);
      }
    }
  }

  /** `Distinct` lists the elements in the order they first appear in `s`. */
  lemma {:induction false} DistinctFirstOrder<T>(s: seq<T>)
    ensures forall i, j :: 0 <= i < j < |Distinct(s)| ==> FirstIndex(s, Distinct(s)[i]) < FirstIndex(s, Distinct(s)[j])
    decreases |s|
  {
    if |s| > 0 {
      var rest := Drop(s[1..], {s[0]});
      var d := Distinct(rest);
      var r := Distinct(s);
      DistinctFirstOrder(rest);
      assert r == [s[0]] + d;
      forall i, j | 0 <= i < j < |r| ensures FirstIndex(s, r[i]) < FirstIndex(s, r[j]) {
        var y := d[j - 1];
        assert r[j] == y && y in rest;
        var b := FirstIndex(s, y);
        assert b == 1 + FirstIndex(s[1..], y);
        if i > 0 {
          var x := d[i - 1];
          assert r[i] == x && x in rest;
          assert 0 <= i - 1 < j - 1 < |d|;
          assert FirstIndex(rest, d[i - 1]) < FirstIndex(rest, d[j - 1]);
          assert x != s[0] && y != s[0];
          DropFirstOrder(s[1..], {s[0]}, x, y);
          assert FirstIndex(s, x) == 1 + FirstIndex(s[1..], x);
        } else {
          assert r[i] == s[0];
        }
      }
    }
  }

  /** `Enumerable.Take(n)`. */
  function Take<T>(s: seq<T>, n: nat): (r: seq<T>)
    ensures |r| == if |s| <= n then |s| else n
    ensures r == s[..|r|]
  {
    if |s| <= n then s else s[..n]
  }

  predicate SortedByKey<T>(s: seq<T>, key: T -> int) {
    forall i, j :: 0 <= i < j < |s| ==> key(s[i]) <= key(s[j])
  }

  /** Puts `x` before the first element whose key is at least its own. */
  function InsertByKey<T>(x: T, s: seq<T>, key: T -> int): (r: seq<T>)
    requires SortedByKey(s, key)
    ensures SortedByKey(r, key) && multiset(r) == multiset(s) + multiset{x}
    ensures forall y :: y in r ==> y == x || y in s
  {
    if |s| == 0 then [x]
    else if key(x) <= key(s[0]) then [x] + s
    else
      var t := InsertByKey(x, s[1..], key);
      assert multiset(s) == multiset{s[0]} + multiset(s[1..]) by { assert s == [s[0]] + s[1..]; }
      assert forall y :: y in t ==> key(s[0]) <= key(y) by {
        SortedHead(s, key);
        assert forall y :: y in s[1..] ==> y in s;
      }
      [s[0]] + t
  }

  /** The head of a sorted sequence has the least key. */
  lemma SortedHead<T>(s: seq<T>, key: T -> int)
    requires |s| > 0 && SortedByKey(s, key)
    ensures forall y :: y in s ==> key(s[0]) <= key(y)
  {
    forall y | y in s ensures key(s[0]) <= key(y) {
      var j :| 0 <= j < |s| && s[j] == y;
      if j > 0 {
        assert key(s[0]) <= key(s[j]);
      }
    }
  }

  /** `OrderBy(key)`: a permutation of `s` in ascending key order. */
  function SortByKey<T>(s: seq<T>, key: T -> int): (r: seq<T>)
    ensures SortedByKey(r, key) && multiset(r) == multiset(s)
  {
    if |s| == 0 then []
    else
      assert s == [s[0]] + s[1..];
      InsertByKey(s[0], SortByKey(s[1..], key), key)
  }

  /** The elements of `s` whose key is `v`, in their order in `s`. */
  function WithKey<T>(s: seq<T>, key: T -> int, v: int): seq<T>
    decreases |s|
  {
    if |s| == 0 then [] else (if key(s[0]) == v then [s[0]] else []) + WithKey(s[1..], key, v)
  }

  /** Inserting `x` keeps the order among equal keys and puts `x` after
      none of them: `x` goes in front of every element with its key. */
  lemma {:induction false} InsertByKeyStable<T>(x: T, s: seq<T>, key: T -> int, v: int)
    requires SortedByKey(s, key)
    ensures WithKey(InsertByKey(x, s, key), key, v) == (if key(x) == v then [x] else []) + WithKey(s, key, v)
    decreases |s|
  {
    var r := InsertByKey(x, s, key);
    if |s| == 0 {
      assert r == [x];
      assert WithKey(r, key, v) == (if key(x) == v then [x] else []) + WithKey(r[1..], key, v);
    } else if key(x) <= key(s[0]) {
      assert r == [x] + s;
      assert r[1..] == s;
    } else {
      var t := InsertByKey(x, s[1..], key);
      assert SortedByKey(s[1..], key) by {
        forall i, j | 0 <= i < j < |s[1..]| ensures key(s[1..][i]) <= key(s[1..][j]) {
          assert s[1..][i] == s[i + 1] && s[1..][j] == s[j + 1];
        }
      }
      assert r == [s[0]] + t;
      assert r[1..] == t;
      InsertByKeyStable(x, s[1..], key, v);
      var hx := if key(x) == v then [x] else [];
      var h0 := if key(s[0]) == v then [s[0]] else [];
      assert WithKey(r, key, v) == h0 + WithKey(t, key, v);
      assert WithKey(t, key, v) == hx + WithKey(s[1..], key, v);
      assert WithKey(s, key, v) == h0 + WithKey(s[1..], key, v);
      assert h0 + hx == hx + h0 by {
        assert h0 == [] || hx == [];
      }
      AppendAssoc(h0, hx, WithKey(s[1..], key, v));
      AppendAssoc(hx, h0, WithKey(s[1..], key, v));
    }
  }

  /** `SortByKey` is stable: for every key, the elements with that key keep
      their order in `s`. */
  lemma {:induction false} SortByKeyStable<T>(s: seq<T>, key: T -> int, v: int)
    ensures WithKey(SortByKey(s, key), key, v) == WithKey(s, key, v)
    decreases |s|
  {
    if |s| > 0 {
      SortByKeyStable(s[1..], key, v);
      InsertByKeyStable(s[0], SortByKey(s[1..], key), key, v);
    }
  }

  /** One more element of `s` taken. */
  lemma KeepTakeSnoc<T>(s: seq<T>, i: nat, m: set<T>)
    requires i < |s|
    ensures Keep(s[..i + 1], m) == Keep(s[..i], m) + (if s[i] in m then [s[i]] else [])
  {
    assert s[..i + 1] == s[..i] + [s[i]];
    KeepAppend(s[..i], [s[i]], m);
  }

  lemma AppendIndex<T>(a: seq<T>, b: seq<T>, j: nat)
    requires j < |a| + |b|
    ensures (a + b)[j] == if j < |a| then a[j] else b[j - |a|]
  {
  }

  lemma AppendAssoc<T>(a: seq<T>, b: seq<T>, c: seq<T>)
    ensures a + b + c == a + (b + c)
  {
  }

  /** Sorting a duplicate-free sequence by an injective key makes it strictly increasing. */
  lemma DistinctSortedByKey<T>(u: seq<T>, s: seq<T>, key: T -> int)
    requires forall a, b :: key(a) == key(b) ==> a == b
    requires forall i, j :: 0 <= i < j < |u| ==> u[i] != u[j]
    requires SortedByKey(s, key) && multiset(s) == multiset(u)
    ensures StrictlyByKey(s, key)
  {
    forall i, j | 0 <= i < j < |s| ensures key(s[i]) < key(s[j]) {
      if key(s[i]) == key(s[j]) {
        DuplicateInMultiset(s, i, j);
        DistinctMultiset(u, s[i]);
        assert false;
      }
    }
  }

  lemma DuplicateInMultiset<T>(s: seq<T>, i: nat, j: nat)
    requires i < j < |s| && s[i] == s[j]
    ensures multiset(s)[s[i]] >= 2
  {
    assert s == s[..i] + [s[i]] + s[i + 1..j] + [s[j]] + s[j + 1..];
  }

  lemma {:induction false} DistinctMultiset<T>(u: seq<T>, x: T)
    requires forall i, j :: 0 <= i < j < |u| ==> u[i] != u[j]
    ensures multiset(u)[x] <= 1
  {
    if |u| > 0 {
      assert u == [u[0]] + u[1..];
      DistinctMultiset(u[1..], x);
      if u[0] == x {
        assert x !in u[1..];
      }
    }
  }

  predicate StrictlyByKey<T>(s: seq<T>, key: T -> int) {
    forall i, j :: 0 <= i < j < |s| ==> key(s[i]) < key(s[j])
  }

  /** Every element of `s` is kept in `r`, or `r` is full and it lies beyond all of `r`. */
  predicate KeptOrBeyond<T(==)>(s: seq<T>, r: seq<T>, n: nat, key: T -> int) {
    forall x :: x in s ==> x in r || (|r| == n && forall i :: 0 <= i < n ==> key(r[i]) < key(x))
  }

  /** Two permutations of each other hold the same elements. */
  lemma SameMembers<T>(a: seq<T>, b: seq<T>)
    requires multiset(a) == multiset(b)
    ensures forall x :: x in a <==> x in b
  {
    forall x ensures x in a <==> x in b {
      assert x in a <==> x in multiset(a);
      assert x in b <==> x in multiset(b);
    }
  }

  /** The first `n` of a strictly increasing sequence are strictly increasing,
      and every element left out lies beyond them. */
  lemma TakeStrict<T>(sorted: seq<T>, n: nat, key: T -> int)
    requires StrictlyByKey(sorted, key)
    ensures StrictlyByKey(Take(sorted, n), key)
    ensures KeptOrBeyond(sorted, Take(sorted, n), n, key)
    ensures forall x :: x in Take(sorted, n) ==> x in sorted
  {
    var r := Take(sorted, n);
    forall x | x in r ensures x in sorted {
      var m :| 0 <= m < |r| && r[m] == x;
      assert sorted[m] == x;
    }
    forall x | x in sorted ensures x in r || (|r| == n && forall i :: 0 <= i < n ==> key(r[i]) < key(x)) {
      var m :| 0 <= m < |sorted| && sorted[m] == x;
      if m < n {
        assert r[m] == sorted[m];
      }
    }
  }

  /** `Distinct` keeps exactly the elements of its input. */
  lemma DistinctMembers<T>(s: seq<T>)
    ensures forall x :: x in Distinct(s) <==> x in s
  {
    var d := Distinct(s);
    forall x ensures x in d <==> x in s {
      if x in d {
        var i :| 0 <= i < |d| && d[i] == x;
      }
      if x in s {
        var i :| 0 <= i < |s| && s[i] == x;
      }
    }
  }

  lemma KeptOrBeyondSub<T>(s: seq<T>, t: seq<T>, r: seq<T>, n: nat, key: T -> int)
    requires forall x :: x in s ==> x in t
    requires KeptOrBeyond(t, r, n, key)
    ensures KeptOrBeyond(s, r, n, key)
  {
  }

  /** `Distinct().OrderBy(key).Take(n)` for an injective key: at most `n`
      elements of `s`, strictly increasing, and any element of `s` left out
      lies beyond all of those kept. */
  lemma FirstDistinctByKey<T>(s: seq<T>, n: nat, key: T -> int)
    requires forall a, b :: key(a) == key(b) ==> a == b
    ensures var r := Take(SortByKey(Distinct(s), key), n);
      |r| <= n && StrictlyByKey(r, key) && (forall x :: x in r ==> x in s) && KeptOrBeyond(s, r, n, key)
  {
    var distinct := Distinct(s);
    var sorted := SortByKey(distinct, key);
    DistinctMembers(s);
    SameMembers(distinct, sorted);
    DistinctSortedByKey(distinct, sorted, key);
    TakeStrict(sorted, n, key);
    KeptOrBeyondSub(s, sorted, Take(sorted, n), n, key);
  }
}
