/**
 * The Python building blocks the KS3 signer leans on, on code points: an
 * insertion-ordered dict with distinct keys, ASCII `lower()`, `strip()` over
 * Python's whitespace set, string ordering and `sorted(d.items())`.
 */
module Ks3Text {
  import opened Wrappers

  /** A `dict[str, str]` in insertion order. */
  type Dict = seq<(string, string)>

  predicate DistinctKeys(d: Dict) {
    forall i, j :: 0 <= i < j < |d| ==> d[i].0 != d[j].0
  }

  /** The position of key `k`, the first one if `d` repeats it. */
  function IndexOf(d: Dict, k: string): (r: Option<nat>)
    ensures r.Some? ==> r.value < |d| && d[r.value].0 == k && forall i :: 0 <= i < r.value ==> d[i].0 != k
    ensures r.None? ==> forall i :: 0 <= i < |d| ==> d[i].0 != k
  {
    if d == [] then None
    else if d[0].0 == k then Some(0)
    else match IndexOf(d[1..], k)
      case None => None
      case Some(i) => Some(i + 1)
  }

  /** `d.get(k)`. */
  function Lookup(d: Dict, k: string): Option<string> {
    match IndexOf(d, k)
    case None => None
    case Some(i) => Some(d[i].1)
  }

  /** `d[k] = v`: an existing key keeps its place, a new one goes last. */
  function Put(d: Dict, k: string, v: string): (r: Dict)
    ensures Lookup(r, k) == Some(v)
    ensures forall k' :: k' != k ==> Lookup(r, k') == Lookup(d, k')
    ensures forall x | x in r :: x == (k, v) || x in d
    ensures DistinctKeys(d) ==> DistinctKeys(r)
    ensures |r| > 0
    ensures |r| == if IndexOf(d, k).Some? then |d| else |d| + 1
    ensures forall i :: 0 <= i < |d| ==> r[i].0 == d[i].0
    ensures IndexOf(d, k).None? ==> r[|d|] == (k, v)
  {
    match IndexOf(d, k)
    case Some(i) =>
      var r := d[i := (k, v)];
      SameKeysSameIndex(d, r, k);
      assert forall k' :: k' != k ==> IndexOf(r, k') == IndexOf(d, k') by {
        forall k' | k' != k
          ensures IndexOf(r, k') == IndexOf(d, k')
        {
          SameKeysSameIndex(d, r, k');
        }
      }
      r
    case None =>
      var r := d + [(k, v)];
      assert r[|d|] == (k, v) && forall i :: 0 <= i < |d| ==> r[i] == d[i];
      assert IndexOf(r, k) == Some(|d|);
      assert forall k' :: k' != k ==> IndexOf(r, k') == IndexOf(d, k') by {
        forall k' | k' != k
          ensures IndexOf(r, k') == IndexOf(d, k')
        {
          SameKeysSameIndex(d, r[..|d|], k');
          PrefixIndex(r, |d|, k');
        }
      }
      r
  }

  /** Two dicts with the same keys, position by position, find a key at the same place. */
  lemma SameKeysSameIndex(d: Dict, e: Dict, k: string)
    requires |d| == |e| && forall i :: 0 <= i < |d| ==> d[i].0 == e[i].0
    ensures IndexOf(d, k) == IndexOf(e, k)
  {
    match IndexOf(d, k)
    case None =>
    case Some(i) =>
  }

  /** Appending entries never changes where a key already present is found. */
  lemma PrefixIndex(d: Dict, n: nat, k: string)
    requires n <= |d|
    requires forall i :: n <= i < |d| ==> d[i].0 != k
    ensures IndexOf(d, k) == IndexOf(d[..n], k)
  {
    match IndexOf(d[..n], k)
    case None =>
    case Some(i) =>
  }

  /** With distinct keys, looking a key up and finding the pair in the dict agree. */
  lemma LookupIffMember(d: Dict, k: string, v: string)
    requires DistinctKeys(d)
    ensures Lookup(d, k) == Some(v) <==> (k, v) in d
  {
    if (k, v) in d {
      var j :| 0 <= j < |d| && d[j] == (k, v);
      assert IndexOf(d, k) == Some(j);
    }
  }

  // ---- characters and strings ----

  /** `str.lower()` on ASCII; every other code point is left as it is. */
  function LowerChar(c: char): char {
    if 'A' <= c <= 'Z' then (c as int - 'A' as int + 'a' as int) as char else c
  }

  function Lower(s: string): string {
    seq(|s|, i requires 0 <= i < |s| => LowerChar(s[i]))
  }

  lemma LowerIdempotent(s: string)
    ensures Lower(Lower(s)) == Lower(s)
  {
  }

  /** Python's `str.isspace()` code points. */
  predicate IsSpace(c: char) {
    c == ' ' || '\t' <= c <= '\r' || '\U{1c}' <= c <= '\U{1f}' || c == '\U{85}' || c == '\U{a0}'
    || c == '\U{1680}' || '\U{2000}' <= c <= '\U{200a}' || c == '\U{2028}' || c == '\U{2029}'
    || c == '\U{202f}' || c == '\U{205f}' || c == '\U{3000}'
  }

  function TrimStart(s: string): (r: string)
    ensures |r| <= |s| && r == s[|s| - |r|..]
    ensures r == [] || !IsSpace(r[0])
    ensures forall i :: 0 <= i < |s| - |r| ==> IsSpace(s[i])
  {
    if s != [] && IsSpace(s[0]) then TrimStart(s[1..]) else s
  }

  function TrimEnd(s: string): (r: string)
    ensures |r| <= |s| && r == s[..|r|]
    ensures r == [] || !IsSpace(r[|r| - 1])
    ensures forall i :: |r| <= i < |s| ==> IsSpace(s[i])
  {
    if s != [] && IsSpace(s[|s| - 1]) then TrimEnd(s[..|s| - 1]) else s
  }

  /**
   * `str.strip()`: the longest infix with no whitespace at either end; what
   * is cut off on both sides is whitespace.
   */
  function Strip(s: string): (r: string)
    ensures r == [] || (!IsSpace(r[0]) && !IsSpace(r[|r| - 1]))
    ensures exists i, j ::
      (0 <= i <= j <= |s| && r == s[i..j]
       && (forall p :: 0 <= p < i ==> IsSpace(s[p])) && (forall p :: j <= p < |s| ==> IsSpace(s[p])))
  {
    var t := TrimStart(s);
    var r := TrimEnd(t);
    assert r == s[|s| - |t|..|s| - |t| + |r|];
    r
  }

  predicate StartsWith(s: string, prefix: string) {
    |prefix| <= |s| && s[..|prefix|] == prefix
  }

  // ---- ordering ----

  /** Python's `<` on `str`: code-point lexicographic order. */
  predicate LexLess(a: string, b: string)
    decreases |a|
  {
    |b| > 0 && (|a| == 0 || a[0] < b[0] || (a[0] == b[0] && LexLess(a[1..], b[1..])))
  }

  lemma {:induction false} LexLessIrreflexive(a: string)
    ensures !LexLess(a, a)
    decreases |a|
  {
    if |a| > 0 {
      LexLessIrreflexive(a[1..]);
    }
  }

  lemma {:induction false} LexLessTotal(a: string, b: string)
    requires a != b
    ensures LexLess(a, b) || LexLess(b, a)
    decreases |a|
  {
    if |a| > 0 && |b| > 0 && a[0] == b[0] {
      assert a == [a[0]] + a[1..] && b == [b[0]] + b[1..];
      LexLessTotal(a[1..], b[1..]);
    }
  }

  lemma {:induction false} LexLessTransitive(a: string, b: string, c: string)
    requires LexLess(a, b) && LexLess(b, c)
    ensures LexLess(a, c)
    decreases |a|
  {
    if |a| > 0 && a[0] == b[0] && b[0] == c[0] {
      LexLessTransitive(a[1..], b[1..], c[1..]);
    }
  }

  /** Strictly ascending keys: what `sorted(d.items())` yields for a dict. */
  predicate SortedByKey(d: Dict) {
    forall i, j :: 0 <= i < j < |d| ==> LexLess(d[i].0, d[j].0)
  }

  function InsertByKey(d: Dict, e: (string, string)): (r: Dict)
    ensures multiset(r) == multiset(d) + multiset{e}
  {
    if d == [] then [e]
    else if LexLess(e.0, d[0].0) then [e] + d
    else
      assert d == [d[0]] + d[1..];
      [d[0]] + InsertByKey(d[1..], e)
  }

  lemma {:induction false} InsertKeepsSorted(d: Dict, e: (string, string))
    requires SortedByKey(d)
    requires forall x | x in d :: x.0 != e.0
    ensures SortedByKey(InsertByKey(d, e))
  {
    if d == [] || LexLess(e.0, d[0].0) {
      forall j | 1 <= j < |d| + 1
        ensures LexLess(e.0, ([e] + d)[j].0)
      {
        if j > 1 {
          LexLessTransitive(e.0, d[0].0, d[j - 1].0);
        }
      }
    } else {
      LexLessTotal(e.0, d[0].0);
      InsertKeepsSorted(d[1..], e);
      var rest := InsertByKey(d[1..], e);
      forall x | x in rest
        ensures LexLess(d[0].0, x.0)
      {
        assert x in multiset(rest);
      }
      var r := [d[0]] + rest;
      forall i, j | 0 <= i < j < |r|
        ensures LexLess(r[i].0, r[j].0)
      {
        if i == 0 {
          assert r[j] in rest;
        } else {
          assert r[i] == rest[i - 1] && r[j] == rest[j - 1];
        }
      }
    }
  }

  /** `sorted(d.items())` (an insertion sort on keys). */
  function SortByKey(d: Dict): (r: Dict)
    ensures multiset(r) == multiset(d)
    ensures |r| == |d|
  {
    if d == [] then []
    else
      assert d == [d[0]] + d[1..];
      InsertByKey(SortByKey(d[1..]), d[0])
  }

  /** Sorting a dict's items yields exactly its items, in strictly ascending key order. */
  lemma {:induction false} SortByKeySorts(d: Dict)
    requires DistinctKeys(d)
    ensures SortedByKey(SortByKey(d))
    ensures forall x :: x in SortByKey(d) <==> x in d
  {
    var r := SortByKey(d);
    forall x
      ensures x in r <==> x in d
    {
      assert x in r <==> x in multiset(r);
      assert x in d <==> x in multiset(d);
    }
    if d != [] {
      SortByKeySorts(d[1..]);
      var rest := SortByKey(d[1..]);
      forall x | x in rest
        ensures x.0 != d[0].0
      {
        var j :| 0 <= j < |d[1..]| && d[1..][j] == x;
        assert d[j + 1] == x;
      }
      InsertKeepsSorted(rest, d[0]);
    }
  }
}
