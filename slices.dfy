/**
 * The list idioms of the Python code: `lst[:n]`, and the bounded log written as
 * `lst.append(x)` followed by `if len(lst) > n: lst = lst[-n:]`.
 */
module Slices {

  /** `s[:n]` with Python's meaning for every integer `n` (a negative `n` counts from the end). */
  function SliceTo<T>(s: seq<T>, n: int): (r: seq<T>)
    ensures n >= 0 ==> |r| == if n <= |s| then n else |s|
    ensures n < 0 ==> |r| == if -n <= |s| then |s| + n else 0
    ensures r == s[..|r|]
  {
    if n >= 0 then (if n <= |s| then s[..n] else s)
    else if -n <= |s| then s[..|s| + n] else []
  }

  /** What survives of `s` when only the newest `n` entries are kept (`s[-n:]` for `n > 0`). */
  function KeepLast<T>(s: seq<T>, n: nat): (r: seq<T>)
    ensures |r| == if |s| <= n then |s| else n
    ensures r == s[|s| - |r|..]
  {
    if |s| <= n then s else s[|s| - n..]
  }

  /** One `append` and trim on a bounded log. */
  function Push<T>(log: seq<T>, x: T, n: nat): (r: seq<T>)
    requires n > 0
    ensures 0 < |r| <= n && r[|r| - 1] == x
    ensures |log| < n ==> r == log + [x]
  {
    KeepLast(log + [x], n)
  }

  /** Pushing `xs` one at a time onto an empty bounded log. */
  function PushAll<T>(log: seq<T>, xs: seq<T>, n: nat): seq<T>
    requires n > 0
    decreases |xs|
  {
    if xs == [] then log else PushAll(Push(log, xs[0], n), xs[1..], n)
  }

  /** Trimming after every append keeps exactly the newest `n` of everything appended, in order. */
  lemma {:induction false} PushAllKeepsNewest<T>(log: seq<T>, xs: seq<T>, n: nat)
    requires n > 0 && |log| <= n
    ensures PushAll(log, xs, n) == KeepLast(log + xs, n)
    decreases |xs|
  {
    if xs != [] {
      var x, rest := xs[0], xs[1..];
      var head := log + [x];
      assert log + xs == head + rest by {
        assert xs == [x] + rest;
      }
      PushAllKeepsNewest(KeepLast(head, n), rest, n);
      KeepLastOfKeepLast(head, rest, n);
    } else {
      assert log + xs == log;
    }
  }

  /** Trimming early does not change what is left after a later trim. */
  lemma KeepLastOfKeepLast<T>(s: seq<T>, t: seq<T>, n: nat)
    ensures KeepLast(KeepLast(s, n) + t, n) == KeepLast(s + t, n)
  {
    if |s| > n {
      var k := KeepLast(s, n);
      var a := KeepLast(k + t, n);
      var b := KeepLast(s + t, n);
      assert |a| == |b| == n;
      forall i | 0 <= i < n ensures a[i] == b[i] {
        assert a[i] == (k + t)[|t| + i];
        assert b[i] == (s + t)[|s| + |t| - n + i];
        if i < n - |t| {
          assert (k + t)[|t| + i] == k[|t| + i] == s[|s| - n + |t| + i];
        } else {
          assert (k + t)[|t| + i] == t[|t| + i - n];
        }
      }
    }
  }

  /** A list comprehension with a condition, `[x for x in s if p(x)]`. */
  function Filter<T>(s: seq<T>, p: T -> bool): (r: seq<T>)
    ensures |r| <= |s|
    ensures forall i :: 0 <= i < |r| ==> p(r[i]) && r[i] in s
    ensures forall i :: 0 <= i < |s| && p(s[i]) ==> s[i] in r
    decreases |s|
  {
    if s == [] then []
    else if p(s[|s| - 1]) then Filter(s[..|s| - 1], p) + [s[|s| - 1]]
    else Filter(s[..|s| - 1], p)
  }

  /** Every element lands on exactly one side of a condition. */
  lemma {:induction false} FilterSplits<T>(s: seq<T>, p: T -> bool, q: T -> bool)
    requires forall x :: q(x) == !p(x)
    ensures |Filter(s, p)| + |Filter(s, q)| == |s|
    decreases |s|
  {
    if s != [] {
      FilterSplits(s[..|s| - 1], p, q);
    }
  }

  /** A list comprehension `[f(x) for x in s]`, built from the front. */
  function MapSeq<A, B>(s: seq<A>, f: A -> B): (r: seq<B>)
    ensures |r| == |s|
    decreases |s|
  {
    if s == [] then [] else MapSeq(s[..|s| - 1], f) + [f(s[|s| - 1])]
  }

  lemma {:induction false} MapSeqAt<A, B>(s: seq<A>, f: A -> B, j: nat)
    requires j < |s|
    ensures MapSeq(s, f)[j] == f(s[j])
    decreases |s|
  {
    var init := s[..|s| - 1];
    if j < |init| {
      MapSeqAt(init, f, j);
      assert init[j] == s[j];
    }
  }
}
