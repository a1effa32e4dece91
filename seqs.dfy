/** Order-preserving filters and small sequence utilities (Python list comprehensions and slices). */
module Seqs {

  /** `[x for x in s if p(x)]`. */
  function Filter<T>(p: T -> bool, s: seq<T>): (r: seq<T>)
    ensures |r| <= |s|
  {
    if s == [] then [] else (if p(s[0]) then [s[0]] else []) + Filter(p, s[1..])
  }

  /** The filter keeps elements of `s` that pass, and every element of `s` that passes. */
  lemma {:induction false} FilterMembers<T>(p: T -> bool, s: seq<T>)
    ensures forall i :: 0 <= i < |Filter(p, s)| ==> Filter(p, s)[i] in s && p(Filter(p, s)[i])
    ensures forall i :: 0 <= i < |s| && p(s[i]) ==> s[i] in Filter(p, s)
  {
    if s != [] {
      FilterMembers(p, s[1..]);
      var h := if p(s[0]) then [s[0]] else [];
      assert Filter(p, s) == h + Filter(p, s[1..]);
      forall i | 0 <= i < |s| && p(s[i]) ensures s[i] in Filter(p, s) {
        if i > 0 {
          assert s[i] == s[1..][i - 1];
        }
      }
    }
  }

  /** Filtering distributes over concatenation: together with the one-element case this pins
      down that the survivors keep their relative order. */
  lemma {:induction false} FilterAppend<T>(p: T -> bool, s: seq<T>, t: seq<T>)
    ensures Filter(p, s + t) == Filter(p, s) + Filter(p, t)
  {
    if s == [] {
      assert s + t == t;
    } else {
      var h := if p(s[0]) then [s[0]] else [];
      assert (s + t)[0] == s[0];
      assert (s + t)[1..] == s[1..] + t;
      FilterAppend(p, s[1..], t);
      assert Filter(p, s + t) == h + (Filter(p, s[1..]) + Filter(p, t));
      assert h + (Filter(p, s[1..]) + Filter(p, t)) == (h + Filter(p, s[1..])) + Filter(p, t);
    }
  }

  /** A filter keeps everything when every element passes. */
  lemma {:induction false} FilterAll<T>(p: T -> bool, s: seq<T>)
    requires forall i :: 0 <= i < |s| ==> p(s[i])
    ensures Filter(p, s) == s
  {
    if s != [] {
      FilterAll(p, s[1..]);
    }
  }

  /** A filter keeps nothing when no element passes. */
  lemma {:induction false} FilterNone<T>(p: T -> bool, s: seq<T>)
    requires forall i :: 0 <= i < |s| ==> !p(s[i])
    ensures Filter(p, s) == []
  {
    if s != [] {
      FilterNone(p, s[1..]);
    }
  }

  /** Filtering twice by the same predicate is filtering once. */
  lemma {:induction false} FilterIdempotent<T>(p: T -> bool, s: seq<T>)
    ensures Filter(p, Filter(p, s)) == Filter(p, s)
  {
    var r := Filter(p, s);
    FilterMembers(p, s);
    FilterAll(p, r);
  }

  /** Two filters commute with each other; in particular a filter by `p` of a sequence
      already filtered by `q` is the filter by `q` of the one by `p`. */
  lemma {:induction false} FilterCommute<T>(p: T -> bool, q: T -> bool, s: seq<T>)
    ensures Filter(p, Filter(q, s)) == Filter(q, Filter(p, s))
  {
    if s != [] {
      var h := [s[0]];
      calc {
        Filter(p, Filter(q, s));
        { assert s == h + s[1..]; FilterAppend(q, h, s[1..]); }
        Filter(p, Filter(q, h) + Filter(q, s[1..]));
        { FilterAppend(p, Filter(q, h), Filter(q, s[1..])); }
        Filter(p, Filter(q, h)) + Filter(p, Filter(q, s[1..]));
        { FilterCommute(p, q, s[1..]); }
        Filter(p, Filter(q, h)) + Filter(q, Filter(p, s[1..]));
        Filter(q, Filter(p, h)) + Filter(q, Filter(p, s[1..]));
        { FilterAppend(q, Filter(p, h), Filter(p, s[1..])); }
        Filter(q, Filter(p, h) + Filter(p, s[1..]));
        { assert s == h + s[1..]; FilterAppend(p, h, s[1..]); }
        Filter(q, Filter(p, s));
      }
    }
  }

  /** Filtering by `p` and then by `q` is filtering once by their conjunction `r`. */
  lemma {:induction false} FilterFilter<T>(p: T -> bool, q: T -> bool, r: T -> bool, s: seq<T>)
    requires forall x :: r(x) == (p(x) && q(x))
    ensures Filter(q, Filter(p, s)) == Filter(r, s)
  {
    if s != [] {
      FilterFilter(p, q, r, s[1..]);
      var h := [s[0]];
      assert s == h + s[1..];
      FilterAppend(p, h, s[1..]);
      FilterAppend(q, Filter(p, h), Filter(p, s[1..]));
      FilterAppend(r, h, s[1..]);
    }
  }

  /** Where the `n`-th element kept by the filter sits in `s`: the Python object
      `[x for x in s if p(x)][n]` is the element of `s` at this index. */
  function Position<T>(p: T -> bool, s: seq<T>, n: nat): (k: nat)
    requires n < |Filter(p, s)|
    ensures k < |s| && p(s[k]) && s[k] == Filter(p, s)[n]
    decreases |s|
  {
    if p(s[0]) && n == 0 then 0
    else if p(s[0]) then 1 + Position(p, s[1..], n - 1)
    else 1 + Position(p, s[1..], n)
  }

  /** Replacing that element by another that passes replaces the `n`-th survivor, and no other. */
  lemma {:induction false} FilterUpdateAt<T>(p: T -> bool, s: seq<T>, n: nat, x: T)
    requires n < |Filter(p, s)| && p(x)
    ensures Filter(p, s[Position(p, s, n) := x]) == Filter(p, s)[n := x]
    decreases |s|
  {
    var k := Position(p, s, n);
    var t := s[k := x];
    var h := if p(s[0]) then [s[0]] else [];
    var f := Filter(p, s[1..]);
    assert Filter(p, s) == h + f;
    if p(s[0]) && n == 0 {
      assert t[1..] == s[1..];
      assert Filter(p, t) == [x] + f;
    } else {
      var m := if p(s[0]) then n - 1 else n;
      FilterUpdateAt(p, s[1..], m, x);
      assert t[0] == s[0];
      assert t[1..] == s[1..][k - 1 := x];
      assert Filter(p, t) == h + f[m := x];
      assert (h + f)[n := x] == h + f[m := x];
    }
  }

  /** The list without its element at `k`. */
  function RemoveAt<T>(s: seq<T>, k: nat): (r: seq<T>)
    requires k < |s|
    ensures |r| == |s| - 1
    ensures forall j :: 0 <= j < k ==> r[j] == s[j]
    ensures forall j :: k <= j < |r| ==> r[j] == s[j + 1]
  {
    s[..k] + s[k + 1..]
  }

  /** Removing that element removes the `n`-th survivor and keeps the others in order. */
  lemma {:induction false} FilterRemoveAt<T>(p: T -> bool, s: seq<T>, n: nat)
    requires n < |Filter(p, s)|
    ensures Filter(p, s[..Position(p, s, n)] + s[Position(p, s, n) + 1..])
            == Filter(p, s)[..n] + Filter(p, s)[n + 1..]
    decreases |s|
  {
    var k := Position(p, s, n);
    var h := if p(s[0]) then [s[0]] else [];
    var f := Filter(p, s[1..]);
    assert Filter(p, s) == h + f;
    if p(s[0]) && n == 0 {
      assert s[..k] + s[k + 1..] == s[1..];
      assert (h + f)[..n] + (h + f)[n + 1..] == f;
    } else {
      var m := if p(s[0]) then n - 1 else n;
      var u := s[1..];
      FilterRemoveAt(p, u, m);
      RemoveAfterHead(s, k);
      FilterAppend(p, [s[0]], u[..k - 1] + u[k..]);
      SkipAfterHead(h, f, n, m);
    }
  }

  /** The same, with `RemoveAt`. */
  lemma FilterRemoveAtPosition<T>(p: T -> bool, s: seq<T>, n: nat)
    requires n < |Filter(p, s)|
    ensures Filter(p, RemoveAt(s, Position(p, s, n))) == RemoveAt(Filter(p, s), n)
  {
    var k := Position(p, s, n);
    var f := Filter(p, s);
    FilterRemoveAt(p, s, n);
    assert RemoveAt(s, k) == s[..k] + s[k + 1..];
    assert RemoveAt(f, n) == f[..n] + f[n + 1..];
  }

  lemma RemoveAfterHead<T>(s: seq<T>, k: nat)
    requires 1 <= k < |s|
    ensures s[..k] + s[k + 1..] == [s[0]] + (s[1..][..k - 1] + s[1..][k..])
  {
    assert s[..k] == [s[0]] + s[1..][..k - 1];
    assert s[k + 1..] == s[1..][k..];
  }

  lemma SkipAfterHead<T>(h: seq<T>, f: seq<T>, n: nat, m: nat)
    requires |h| <= 1 && n == m + |h| && m < |f|
    ensures (h + f)[..n] + (h + f)[n + 1..] == h + (f[..m] + f[m + 1..])
  {
    assert (h + f)[..n] == h + f[..m];
    assert (h + f)[n + 1..] == f[m + 1..];
  }

  /** `sum(ss, [])` / `"".join(ss)`: the parts concatenated in order. */
  function Join<T>(ss: seq<seq<T>>): seq<T> {
    if ss == [] then [] else Join(ss[..|ss| - 1]) + ss[|ss| - 1]
  }

  function Min(a: int, b: int): int {
    if a <= b then a else b
  }

  /** `s[:n]` for a non-negative `n`. */
  function Take<T>(s: seq<T>, n: nat): (r: seq<T>)
    ensures |r| == Min(n, |s|)
    ensures forall i :: 0 <= i < |r| ==> r[i] == s[i]
  {
    if n <= |s| then s[..n] else s
  }

  /** `s[a:b]` with Python's rules: negative bounds count from the end, and both bounds are
      clamped into `[0, |s|]`; a slice whose start is not before its end is empty. */
  function PySlice<T>(s: seq<T>, a: int, b: int): (r: seq<T>)
    ensures 0 <= a <= b <= |s| ==> r == s[a..b]
    ensures 0 <= a && |s| <= a ==> r == []
  {
    var lo := Clamp(if a < 0 then a + |s| else a, |s|);
    var hi := Clamp(if b < 0 then b + |s| else b, |s|);
    if lo < hi then s[lo..hi] else []
  }

  function Clamp(x: int, n: nat): (r: nat)
    ensures r <= n
  {
    if x < 0 then 0 else if x > n then n else x
  }
}
