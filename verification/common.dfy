/** Small shared vocabulary: optional values, HTTP-style replies, sequence
    filtering (the model of SQL WHERE and Array.prototype.filter), substring
    search, and the "first required field that is missing" loop that both
    backend route files run. */
module Common {

  datatype Option<T> = None | Some(value: T)

  /** A route's answer: an HTTP status code with either a payload or the
      text of the JSON `error` field. */
  datatype Reply<T> = Ok(code: int, value: T) | Fail(code: int, error: string)

  /** Python / JavaScript truthiness of an optional string: absent and "" are falsy. */
  predicate Truthy(s: Option<string>)
  {
    s.Some? && s.value != ""
  }

  /** The elements of `s` that satisfy `p`, in their original order. */
  function Where<T>(s: seq<T>, p: T -> bool): (r: seq<T>)
    ensures |r| <= |s|
    ensures forall i :: 0 <= i < |r| ==> r[i] in s && p(r[i])
  {
    if s == [] then []
    else
      (if p(s[0]) then [s[0]] else []) + Where(s[1..], p)
  }

  /** Nothing that satisfies `p` is dropped. */
  lemma {:induction false} WhereComplete<T>(s: seq<T>, p: T -> bool, i: nat)
    requires i < |s| && p(s[i])
    ensures s[i] in Where(s, p)
  {
    if i > 0 {
      WhereComplete(s[1..], p, i - 1);
      assert s[1..][i - 1] == s[i];
    }
  }

  /** Something is kept exactly when some element satisfies `p`. */
  lemma WhereNonEmpty<T>(s: seq<T>, p: T -> bool)
    ensures Where(s, p) != [] <==> exists i :: 0 <= i < |s| && p(s[i])
  {
    if exists i :: 0 <= i < |s| && p(s[i]) {
      var i :| 0 <= i < |s| && p(s[i]);
      WhereComplete(s, p, i);
    }
  }

  /** Bounds that hold on the selected elements of `s` hold on the selection. */
  lemma WhereBounded<T>(s: seq<T>, p: T -> bool, f: T -> int, lo: int, hi: int)
    requires forall i :: 0 <= i < |s| && p(s[i]) ==> lo <= f(s[i]) <= hi
    ensures forall j :: 0 <= j < |Where(s, p)| ==> lo <= f(Where(s, p)[j]) <= hi
  {
    var r := Where(s, p);
    forall j | 0 <= j < |r| ensures lo <= f(r[j]) <= hi {
      assert r[j] in s;
      var i :| 0 <= i < |s| && s[i] == r[j];
    }
  }

  /** A non-empty sequence is its head followed by its tail. */
  lemma HeadTail<T>(s: seq<T>)
    requires s != []
    ensures s == [s[0]] + s[1..]
  {
  }

  /** Extending a prefix by one element. */
  lemma PrefixSnoc<T>(s: seq<T>, i: nat)
    requires i < |s|
    ensures s[..i + 1] == s[..i] + [s[i]]
  {
  }

  /** Filtering twice is filtering once by the conjunction. */
  lemma {:induction false} WhereWhere<T>(s: seq<T>, p: T -> bool, q: T -> bool, pq: T -> bool)
    requires forall x :: pq(x) == (p(x) && q(x))
    ensures Where(Where(s, p), q) == Where(s, pq)
  {
    if s != [] {
      WhereWhere(s[1..], p, q, pq);
      assert Where(s, p) == (if p(s[0]) then [s[0]] else []) + Where(s[1..], p);
      WhereAppend((if p(s[0]) then [s[0]] else []), Where(s[1..], p), q);
    }
  }

  /** Filtering distributes over concatenation. */
  lemma {:induction false} WhereAppend<T>(a: seq<T>, b: seq<T>, p: T -> bool)
    ensures Where(a + b, p) == Where(a, p) + Where(b, p)
  {
    if a != [] {
      assert (a + b)[0] == a[0] && (a + b)[1..] == a[1..] + b;
      WhereAppend(a[1..], b, p);
      assert Where(a, p) == (if p(a[0]) then [a[0]] else []) + Where(a[1..], p);
    } else {
      assert a + b == b;
    }
  }

  /** Two predicates that agree on every element of `s` select the same elements. */
  lemma {:induction false} WhereCongruent<T>(s: seq<T>, p: T -> bool, q: T -> bool)
    requires forall i :: 0 <= i < |s| ==> p(s[i]) == q(s[i])
    ensures Where(s, p) == Where(s, q)
  {
    if s != [] {
      WhereCongruent(s[1..], p, q);
    }
  }

  /** What two successive filters keep: each kept element is an element of
      `s` that passes both, and something is kept exactly when some element
      of `s` passes both. */
  lemma WhereWhereWitness<T>(s: seq<T>, p: T -> bool, q: T -> bool)
    ensures forall j :: 0 <= j < |Where(Where(s, p), q)| ==>
              exists m :: 0 <= m < |s| && s[m] == Where(Where(s, p), q)[j] && p(s[m]) && q(s[m])
    ensures Where(Where(s, p), q) != [] <==> exists i :: 0 <= i < |s| && p(s[i]) && q(s[i])
  {
    var mine := Where(s, p);
    var both := Where(mine, q);
    forall j | 0 <= j < |both|
      ensures exists m :: 0 <= m < |s| && s[m] == both[j] && p(s[m]) && q(s[m])
    {
      assert both[j] in mine && q(both[j]);
      var k :| 0 <= k < |mine| && mine[k] == both[j];
      assert mine[k] in s && p(mine[k]);
      var m :| 0 <= m < |s| && s[m] == mine[k];
    }
    if both != [] {
      assert exists m :: 0 <= m < |s| && s[m] == both[0] && p(s[m]) && q(s[m]);
    }
    if exists i :: 0 <= i < |s| && p(s[i]) && q(s[i]) {
      var i :| 0 <= i < |s| && p(s[i]) && q(s[i]);
      WhereComplete(s, p, i);
      var k :| 0 <= k < |mine| && mine[k] == s[i];
      WhereComplete(mine, q, k);
    }
  }

  /** The position of the first element of `s` that satisfies `p`
      (SQL `.filter_by(...).first()` and `query.get(id)`). */
  function IndexOf<T>(s: seq<T>, p: T -> bool): (r: Option<nat>)
    ensures r.None? <==> forall i :: 0 <= i < |s| ==> !p(s[i])
    ensures r.Some? ==> r.value < |s| && p(s[r.value])
    ensures r.Some? ==> forall j :: 0 <= j < r.value ==> !p(s[j])
  {
    if s == [] then None
    else if p(s[0]) then Some(0)
    else match IndexOf(s[1..], p)
      case None => None
      case Some(i) => Some(i + 1)
  }

  /** The first element of `s` that satisfies `p`, if any. */
  function First<T>(s: seq<T>, p: T -> bool): (r: Option<T>)
    ensures r.None? <==> forall i :: 0 <= i < |s| ==> !p(s[i])
    ensures r.Some? ==> r.value in s && p(r.value)
  {
    match IndexOf(s, p)
    case None => None
    case Some(i) => Some(s[i])
  }

  /** An appended element is found first when nothing before it matches. */
  lemma FirstAppended<T>(s: seq<T>, x: T, p: T -> bool)
    requires forall i :: 0 <= i < |s| ==> !p(s[i])
    requires p(x)
    ensures First(s + [x], p) == Some(x)
  {
    var all := s + [x];
    assert all[|s|] == x;
    forall i | 0 <= i < |s| ensures !p(all[i]) {
      assert all[i] == s[i];
    }
    var idx := IndexOf(all, p);
    assert idx.Some? && idx.value == |s|;
  }

  /** The number of elements of `s` that satisfy `p`. */
  function Count<T>(s: seq<T>, p: T -> bool): nat
  {
    |Where(s, p)|
  }

  /** Counting by two predicates that never hold together counts at most the whole. */
  lemma {:induction false} CountDisjoint<T>(s: seq<T>, p: T -> bool, q: T -> bool)
    requires forall i :: 0 <= i < |s| ==> !(p(s[i]) && q(s[i]))
    ensures Count(s, p) + Count(s, q) <= |s|
  {
    if s != [] {
      CountDisjoint(s[1..], p, q);
    }
  }

  /** Counting by a stronger predicate counts no more. */
  lemma {:induction false} CountMonotone<T>(s: seq<T>, p: T -> bool, q: T -> bool)
    requires forall i :: 0 <= i < |s| ==> p(s[i]) ==> q(s[i])
    ensures Count(s, p) <= Count(s, q)
  {
    if s != [] {
      CountMonotone(s[1..], p, q);
    }
  }

  /** Three counts by pairwise exclusive predicates that each imply `t`
      add up to at most the count by `t`. */
  lemma {:induction false} CountDisjoint3<T>(s: seq<T>, p: T -> bool, q: T -> bool, r: T -> bool, t: T -> bool)
    requires forall i :: 0 <= i < |s| ==> !(p(s[i]) && q(s[i])) && !(p(s[i]) && r(s[i])) && !(q(s[i]) && r(s[i]))
    requires forall i :: 0 <= i < |s| ==> (p(s[i]) || q(s[i]) || r(s[i])) ==> t(s[i])
    ensures Count(s, p) + Count(s, q) + Count(s, r) <= Count(s, t)
  {
    if s != [] {
      CountDisjoint3(s[1..], p, q, r, t);
    }
  }

  /** The set of keys of the elements of `s` (`SELECT DISTINCT key`). */
  function Image<T, K>(s: seq<T>, key: T -> K): (r: set<K>)
    ensures forall i :: 0 <= i < |s| ==> key(s[i]) in r
    ensures forall k :: k in r ==> exists i :: 0 <= i < |s| && key(s[i]) == k
  {
    if s == [] then {} else {key(s[0])} + Image(s[1..], key)
  }

  /** The keys of the selected elements, as a set comprehension over indices. */
  lemma ImageWhere<T, K>(s: seq<T>, p: T -> bool, key: T -> K)
    ensures Image(Where(s, p), key) == set i | 0 <= i < |s| && p(s[i]) :: key(s[i])
  {
    var w := Where(s, p);
    var keys := set i | 0 <= i < |s| && p(s[i]) :: key(s[i]);
    forall k | k in Image(w, key) ensures k in keys {
      var j :| 0 <= j < |w| && key(w[j]) == k;
      assert w[j] in s && p(w[j]);
      var i :| 0 <= i < |s| && s[i] == w[j];
    }
    forall k | k in keys ensures k in Image(w, key) {
      var i :| 0 <= i < |s| && p(s[i]) && key(s[i]) == k;
      WhereComplete(s, p, i);
      var j :| 0 <= j < |w| && w[j] == s[i];
    }
  }

  /** There are no more distinct keys than elements, and some when there are elements. */
  lemma {:induction false} ImageBound<T, K>(s: seq<T>, key: T -> K)
    ensures |Image(s, key)| <= |s|
    ensures s != [] ==> |Image(s, key)| > 0
  {
    if s != [] {
      ImageBound(s[1..], key);
      assert key(s[0]) in Image(s, key);
    }
  }

  /** A property of every element carries over to a sequence with the same elements. */
  lemma SameElements<T>(a: seq<T>, b: seq<T>, p: T -> bool)
    requires multiset(a) == multiset(b)
    requires forall i :: 0 <= i < |b| ==> p(b[i])
    ensures forall i :: 0 <= i < |a| ==> p(a[i])
  {
    forall i | 0 <= i < |a| ensures p(a[i]) {
      assert a[i] in multiset(b);
      var j :| 0 <= j < |b| && b[j] == a[i];
    }
  }

  /** No two elements of `s` share a `key` (a primary key or UNIQUE column). */
  predicate UniqueBy<T, K(==)>(s: seq<T>, key: T -> K)
  {
    forall i, j :: 0 <= i < j < |s| ==> key(s[i]) != key(s[j])
  }

  /** Every `key` in `s` is below `bound` (the next value of an id counter). */
  predicate BelowBy<T>(s: seq<T>, key: T -> int, bound: int)
  {
    forall i :: 0 <= i < |s| ==> key(s[i]) < bound
  }

  /** Appending an element whose key no element has keeps the keys unique. */
  lemma AppendUnique<T, K>(s: seq<T>, x: T, key: T -> K)
    requires UniqueBy(s, key)
    requires forall i :: 0 <= i < |s| ==> key(s[i]) != key(x)
    ensures UniqueBy(s + [x], key)
  {
    forall i, j | 0 <= i < j < |s| + 1 ensures key((s + [x])[i]) != key((s + [x])[j]) {
      if j == |s| {
        assert (s + [x])[i] == s[i];
      } else {
        assert (s + [x])[i] == s[i] && (s + [x])[j] == s[j];
      }
    }
  }

  /** Appending an element keyed by the counter keeps ids unique and below
      the incremented counter. */
  lemma AppendFresh<T>(s: seq<T>, x: T, key: T -> int, bound: int)
    requires UniqueBy(s, key) && BelowBy(s, key, bound) && key(x) == bound
    ensures UniqueBy(s + [x], key) && BelowBy(s + [x], key, bound + 1)
  {
    AppendUnique(s, x, key);
    forall i | 0 <= i < |s| + 1 ensures key((s + [x])[i]) < bound + 1 {
      if i < |s| {
        assert (s + [x])[i] == s[i];
      }
    }
  }

  /** Replacing an element by one with the same key keeps the keys as they were. */
  lemma ReplaceSameKey<T>(s: seq<T>, k: nat, x: T, key: T -> int, bound: int)
    requires k < |s| && key(x) == key(s[k])
    ensures UniqueBy(s, key) ==> UniqueBy(s[k := x], key)
    ensures BelowBy(s, key, bound) ==> BelowBy(s[k := x], key, bound)
  {
  }

  /** `needle` occurs in `hay` starting at index `i`. */
  predicate OccursAt(hay: string, needle: string, i: int)
  {
    0 <= i && i + |needle| <= |hay| && hay[i..i + |needle|] == needle
  }

  /** JavaScript `hay.includes(needle)`; also the model of SQL `LIKE '%needle%'`:
      `needle` is a prefix of `hay` or of one of its suffixes. */
  predicate Contains(hay: string, needle: string)
    decreases |hay|
  {
    |needle| <= |hay| && (hay[..|needle|] == needle || (hay != [] && Contains(hay[1..], needle)))
  }

  /** `Contains` holds exactly when `needle` occurs at some position. */
  lemma {:induction false} ContainsIff(hay: string, needle: string)
    ensures Contains(hay, needle) <==> exists i :: 0 <= i <= |hay| - |needle| && OccursAt(hay, needle, i)
    decreases |hay|
  {
    if |needle| <= |hay| && hay[..|needle|] != needle && hay != [] {
      ContainsIff(hay[1..], needle);
      if Contains(hay[1..], needle) {
        var i :| 0 <= i <= |hay[1..]| - |needle| && OccursAt(hay[1..], needle, i);
        assert hay[i + 1..i + 1 + |needle|] == hay[1..][i..i + |needle|];
        assert OccursAt(hay, needle, i + 1);
      }
      if exists i :: 0 <= i <= |hay| - |needle| && OccursAt(hay, needle, i) {
        var i :| 0 <= i <= |hay| - |needle| && OccursAt(hay, needle, i);
        assert i != 0;
        assert hay[1..][i - 1..i - 1 + |needle|] == hay[i..i + |needle|];
        assert OccursAt(hay[1..], needle, i - 1);
      }
    } else if |needle| <= |hay| && hay[..|needle|] == needle {
      assert OccursAt(hay, needle, 0);
    }
  }

  /** A string contains each of its suffixes. */
  lemma ContainsSuffix(prefix: string, suffix: string)
    ensures Contains(prefix + suffix, suffix)
  {
    ContainsIff(prefix + suffix, suffix);
    assert OccursAt(prefix + suffix, suffix, |prefix|);
  }

  /** The empty string occurs in every string. */
  lemma ContainsEmpty(hay: string)
    ensures Contains(hay, "")
  {
  }

  /** The decimal text of a number, as JavaScript's template literals print it. */
  function IntToString(n: nat): (r: string)
    ensures r != []
  {
    if n < 10 then [DigitChar(n)]
    else IntToString(n / 10) + [DigitChar(n % 10)]
  }

  /** The character of a decimal digit. */
  function DigitChar(d: int): (c: char)
    requires 0 <= d < 10
    ensures '0' <= c <= '9' && c as int - '0' as int == d
  {
    ('0' as int + d) as char
  }

  /** The loop `for field in required: if not data.get(field): return 400`:
      the first field whose value is falsy, or None when every field is present. */
  method FirstFalsy(fields: seq<string>, truthy: string -> bool) returns (missing: Option<string>)
    ensures missing.None? <==> forall i :: 0 <= i < |fields| ==> truthy(fields[i])
    ensures missing.Some? ==> exists k :: 0 <= k < |fields| && fields[k] == missing.value
                                && !truthy(fields[k])
                                && forall j :: 0 <= j < k ==> truthy(fields[j])
  {
    var i := 0;
    while i < |fields|
      invariant 0 <= i <= |fields|
      invariant forall j :: 0 <= j < i ==> truthy(fields[j])
    {
      if !truthy(fields[i]) {
        return Some(fields[i]);
      }
      i := i + 1;
    }
    return None;
  }
  /** Counting by three predicates, exactly one of which holds for every
      element, counts every element once. */
  lemma {:induction false} CountPartition3<T>(s: seq<T>, p: T -> bool, q: T -> bool, r: T -> bool)
    requires forall i :: 0 <= i < |s| ==> (p(s[i]) || q(s[i]) || r(s[i]))
    requires forall i :: 0 <= i < |s| ==> !(p(s[i]) && q(s[i])) && !(p(s[i]) && r(s[i])) && !(q(s[i]) && r(s[i]))
    ensures Count(s, p) + Count(s, q) + Count(s, r) == |s|
  {
    if s != [] {
      CountPartition3(s[1..], p, q, r);
    }
  }

  /** One step of a form's validation: whether it passes, and the message
      shown when it does not. */
  datatype Check = Check(passes: bool, message: string)

  /** The message of the first failing check, or None when all pass: a
      chain of guards that each set an error and return. */
  function FirstFailure(checks: seq<Check>): (r: Option<string>)
    ensures r.None? <==> forall i :: 0 <= i < |checks| ==> checks[i].passes
    ensures r.Some? ==> exists k :: 0 <= k < |checks| && !checks[k].passes && checks[k].message == r.value
                                     && forall j :: 0 <= j < k ==> checks[j].passes
  {
    if checks == [] then None
    else if !checks[0].passes then Some(checks[0].message)
    else
      var rest := FirstFailure(checks[1..]);
      assert forall i :: 1 <= i < |checks| ==> checks[i] == checks[1..][i - 1];
      rest
  }
}
