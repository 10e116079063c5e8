/** Stable descending sort by an integer key.  The backend orders rows in
    three places: SQL `ORDER BY created_at DESC`, SQL `ORDER BY count DESC`
    and Python's `list.sort(key=..., reverse=True)`.  Python's sort is
    stable (equal keys keep their order even with reverse=True); SQL leaves
    the order of ties open, and this model resolves them by table order. */
module Sorting {
  import opened Common

  /** Keys never increase from left to right. */
  predicate SortedDesc<T>(s: seq<T>, key: T -> int)
  {
    forall i, j :: 0 <= i < j < |s| ==> key(s[i]) >= key(s[j])
  }

  /** Put `x` in front of the first element whose key is not larger than its own. */
  function Insert<T>(x: T, s: seq<T>, key: T -> int): (r: seq<T>)
    ensures |r| == |s| + 1
    ensures multiset(r) == multiset(s) + multiset{x}
    ensures r[0] == x || (s != [] && r[0] == s[0])
    ensures SortedDesc(s, key) ==> SortedDesc(r, key)
  {
    if s == [] || key(x) >= key(s[0]) then
      ConsSorted(x, s, key);
      [x] + s
    else
      var t := Insert(x, s[1..], key);
      assert s == [s[0]] + s[1..];
      ConsSorted(s[0], t, key);
      [s[0]] + t
  }

  /** A head whose key is at least that of the next element extends a sorted sequence. */
  lemma ConsSorted<T>(h: T, t: seq<T>, key: T -> int)
    ensures SortedDesc(t, key) && (t == [] || key(h) >= key(t[0])) ==> SortedDesc([h] + t, key)
  {
    if SortedDesc(t, key) && (t == [] || key(h) >= key(t[0])) {
      forall i, j | 0 <= i < j < |t| + 1 ensures key(([h] + t)[i]) >= key(([h] + t)[j]) {
        if i == 0 {
          assert ([h] + t)[j] == t[j - 1];
          assert key(t[0]) >= key(t[j - 1]);
        } else {
          assert ([h] + t)[i] == t[i - 1] && ([h] + t)[j] == t[j - 1];
        }
      }
    }
  }

  /** Insertion sort, newest (largest key) first. */
  function SortDesc<T>(s: seq<T>, key: T -> int): (r: seq<T>)
    ensures |r| == |s|
    ensures multiset(r) == multiset(s)
    ensures SortedDesc(r, key)
  {
    if s == [] then []
    else
      assert s == [s[0]] + s[1..];
      Insert(s[0], SortDesc(s[1..], key), key)
  }

  /** The elements that satisfy `p`, largest key first (`WHERE p ORDER BY key DESC`). */
  function SortedWhere<T>(s: seq<T>, p: T -> bool, key: T -> int): (r: seq<T>)
    ensures SortedDesc(r, key)
    ensures |r| == Count(s, p)
    ensures forall i :: 0 <= i < |r| ==> p(r[i])
    ensures multiset(r) == multiset(Where(s, p))
  {
    var rows := SortDesc(Where(s, p), key);
    SameElements(rows, Where(s, p), p);
    rows
  }

  /** An element-wise image with the same keys is sorted like its origin. */
  lemma SortedMapped<A, B>(a: seq<A>, ka: A -> int, b: seq<B>, kb: B -> int)
    requires |a| == |b| && forall i :: 0 <= i < |a| ==> kb(b[i]) == ka(a[i])
    requires SortedDesc(a, ka)
    ensures SortedDesc(b, kb)
  {
  }

  /** Reordering the selected elements of `s` and mapping them element-wise
      loses none of them: each selected element's key shows up in `views`. */
  lemma KeptAfterReorder<T, V>(s: seq<T>, p: T -> bool, rows: seq<T>, ks: T -> int,
                               views: seq<V>, kv: V -> int)
    requires multiset(rows) == multiset(Where(s, p))
    requires |views| == |rows| && forall i :: 0 <= i < |rows| ==> kv(views[i]) == ks(rows[i])
    ensures forall j :: 0 <= j < |s| && p(s[j]) ==> exists i :: 0 <= i < |views| && kv(views[i]) == ks(s[j])
  {
    forall j | 0 <= j < |s| && p(s[j])
      ensures exists i :: 0 <= i < |views| && kv(views[i]) == ks(s[j])
    {
      WhereComplete(s, p, j);
      assert s[j] in multiset(rows);
      var i :| 0 <= i < |rows| && rows[i] == s[j];
      assert kv(views[i]) == ks(s[j]);
    }
  }

  /** Every image of a reordered selection is the image of a selected element. */
  lemma ImagesFromSelection<T, V>(s: seq<T>, p: T -> bool, rows: seq<T>, views: seq<V>, f: T -> V)
    requires multiset(rows) == multiset(Where(s, p))
    requires |views| == |rows| && forall i :: 0 <= i < |rows| ==> views[i] == f(rows[i])
    ensures forall i :: 0 <= i < |views| ==> exists j :: 0 <= j < |s| && p(s[j]) && views[i] == f(s[j])
  {
    forall i | 0 <= i < |views| ensures exists j :: 0 <= j < |s| && p(s[j]) && views[i] == f(s[j]) {
      var w := Where(s, p);
      assert rows[i] in multiset(w);
      var k :| 0 <= k < |w| && w[k] == rows[i];
      assert w[k] in s && p(w[k]);
      var j :| 0 <= j < |s| && s[j] == rows[i];
    }
  }

  /** Inserting `x` keeps the relative order of the elements that share a key
      (`p` selects the elements whose key is `k`). */
  lemma {:induction false} InsertStable<T>(x: T, s: seq<T>, key: T -> int, k: int, p: T -> bool)
    requires forall y {:trigger p(y)} :: p(y) == (key(y) == k)
    ensures Where(Insert(x, s, key), p) == (if key(x) == k then [x] else []) + Where(s, p)
  {
    var xk := if key(x) == k then [x] else [];
    assert Where([x], p) == xk by { WhereSingleton(x, p); assert p(x) == (key(x) == k); }
    if s == [] || key(x) >= key(s[0]) {
      assert Insert(x, s, key) == [x] + s;
      WhereAppend([x], s, p);
    } else {
      var t := Insert(x, s[1..], key);
      var h := Where([s[0]], p);
      var rest := Where(s[1..], p);
      assert Where(Insert(x, s, key), p) == h + Where(t, p) by {
        assert Insert(x, s, key) == [s[0]] + t;
        WhereAppend([s[0]], t, p);
      }
      assert Where(t, p) == xk + rest by {
        InsertStable(x, s[1..], key, k, p);
      }
      assert Where(s, p) == h + rest by {
        HeadTail(s);
        WhereAppend([s[0]], s[1..], p);
      }
      assert xk == [] || h == [] by {
        WhereSingleton(s[0], p);
        assert p(s[0]) == (key(s[0]) == k);
      }
      SwapEmpty(h, xk, rest);
    }
  }

  /** When one of `a` and `b` is empty, they can be exchanged in front of `c`. */
  lemma SwapEmpty<T>(a: seq<T>, b: seq<T>, c: seq<T>)
    requires a == [] || b == []
    ensures a + (b + c) == b + (a + c)
  {
    if a == [] {
      assert a + (b + c) == b + c;
      assert a + c == c;
    } else {
      assert b + c == c;
      assert b + (a + c) == a + c;
    }
  }

  lemma WhereSingleton<T>(x: T, p: T -> bool)
    ensures Where([x], p) == if p(x) then [x] else []
  {
    assert [x][1..] == [];
  }

  /** The sort is stable: the elements with key `k` (those `p` selects)
      appear in the output in the order they had in the input. */
  lemma {:induction false} SortDescStable<T>(s: seq<T>, key: T -> int, k: int, p: T -> bool)
    requires forall y {:trigger p(y)} :: p(y) == (key(y) == k)
    ensures Where(SortDesc(s, key), p) == Where(s, p)
  {
    if s != [] {
      var rest := SortDesc(s[1..], key);
      assert SortDesc(s, key) == Insert(s[0], rest, key);
      SortDescStable(s[1..], key, k, p);
      InsertStable(s[0], rest, key, k, p);
      assert s == [s[0]] + s[1..];
      WhereAppend([s[0]], s[1..], p);
      WhereSingleton(s[0], p);
    }
  }

  /** Every element outside a prefix of a sorted sequence has a key no
      larger than any element inside it. */
  lemma PrefixDominates<T>(s: seq<T>, key: T -> int, n: nat, i: int, j: int)
    requires SortedDesc(s, key) && n <= |s|
    requires 0 <= i < n <= j < |s|
    ensures key(s[j]) <= key(s[i])
  {
  }

  /** The first `n` elements, or all of them when there are fewer (`LIMIT n`). */
  function Take<T>(s: seq<T>, n: nat): (r: seq<T>)
    ensures |r| == if |s| < n then |s| else n
    ensures forall i :: 0 <= i < |r| ==> r[i] == s[i]
  {
    s[..if |s| < n then |s| else n]
  }

  /** An element of a sorted sequence that `Take` leaves out proves that
      `Take` kept a full `n`, each with a key no smaller than its own. */
  lemma LeftOutDominated<T>(s: seq<T>, key: T -> int, n: nat, x: T)
    requires SortedDesc(s, key) && x in s
    requires forall i :: 0 <= i < |Take(s, n)| ==> Take(s, n)[i] != x
    ensures |Take(s, n)| == n
    ensures forall i :: 0 <= i < n ==> key(x) <= key(Take(s, n)[i])
  {
    var j :| 0 <= j < |s| && s[j] == x;
    var m := |Take(s, n)|;
    assert m <= j;
    forall i | 0 <= i < n ensures key(x) <= key(Take(s, n)[i]) {
      PrefixDominates(s, key, m, i, j);
    }
  }

  /** `rows` are the largest-keyed elements of the collection `m`, largest
      first: taken from `m`, in descending order, and nothing left out has a
      larger key than anything kept (`ORDER BY key DESC LIMIT n`). */
  ghost predicate IsTopN<T>(rows: seq<T>, m: multiset<T>, key: T -> int)
  {
    && SortedDesc(rows, key)
    && multiset(rows) <= m
    && forall i, x :: 0 <= i < |rows| && x in m - multiset(rows) ==> key(x) <= key(rows[i])
  }

  /** A prefix of a sorted sequence holds its largest keys. */
  lemma PrefixIsTop<T>(s: seq<T>, key: T -> int, n: nat)
    requires SortedDesc(s, key) && n <= |s|
    ensures IsTopN(s[..n], multiset(s), key)
  {
    assert s == s[..n] + s[n..];
    assert multiset(s) == multiset(s[..n]) + multiset(s[n..]);
    forall i, x | 0 <= i < n && x in multiset(s) - multiset(s[..n])
      ensures key(x) <= key(s[..n][i])
    {
      assert x in multiset(s[n..]);
      var j :| 0 <= j < |s[n..]| && s[n..][j] == x;
      PrefixDominates(s, key, n, i, n + j);
    }
  }

  /** The first `n` of `s` sorted by descending key are the top `n` of `s`. */
  lemma TopN<T>(s: seq<T>, key: T -> int, n: nat)
    requires n <= |s|
    ensures |SortDesc(s, key)[..n]| == n
    ensures IsTopN(SortDesc(s, key)[..n], multiset(s), key)
  {
    var sorted := SortDesc(s, key);
    PrefixIsTop(sorted, key, n);
  }
}
