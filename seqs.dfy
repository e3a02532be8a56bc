/** Python list idioms over Dafny sequences: slicing with integer bounds and
    list comprehensions with a condition. */
module Seqs {

  function Min(a: int, b: int): int { if a <= b then a else b }

  function Max(a: int, b: int): int { if a >= b then a else b }

  /** Python `s[:n]` for a non-negative `n`. */
  function Take<T>(s: seq<T>, n: nat): (r: seq<T>)
    ensures |r| == Min(n, |s|) && r == s[..|r|]
  {
    if n <= |s| then s[..n] else s
  }

  /** Python `s[:n]` for any integer `n`: a negative bound counts from the end. */
  function PyTake<T>(s: seq<T>, n: int): (r: seq<T>)
    ensures |r| == (if n >= 0 then Min(n, |s|) else Max(0, |s| + n))
    ensures r == s[..|r|]
  {
    if n >= 0 then Take(s, n) else if |s| + n <= 0 then [] else s[..|s| + n]
  }

  /** Python `s[-n:]` for a positive `n`. */
  function TakeLast<T>(s: seq<T>, n: nat): (r: seq<T>)
    requires n >= 1
    ensures |r| == Min(n, |s|) && r == s[|s| - |r|..]
  {
    if n >= |s| then s else s[|s| - n..]
  }

  /** Python `[x for x in s if p(x)]`. */
  function Filter<T>(s: seq<T>, p: T -> bool): (r: seq<T>)
    ensures |r| <= |s|
    ensures forall i :: 0 <= i < |r| ==> p(r[i])
  {
    if s == [] then []
    else if p(s[0]) then [s[0]] + Filter(s[1..], p)
    else Filter(s[1..], p)
  }

  /** Python `[x for x in s if not p(x)]`. */
  function FilterOut<T>(s: seq<T>, p: T -> bool): (r: seq<T>)
    ensures |r| <= |s|
    ensures forall i :: 0 <= i < |r| ==> !p(r[i])
  {
    if s == [] then []
    else if p(s[0]) then FilterOut(s[1..], p)
    else [s[0]] + FilterOut(s[1..], p)
  }

  /** Filtering a concatenation filters each part. */
  lemma {:induction false} FilterAppend<T>(a: seq<T>, b: seq<T>, p: T -> bool)
    ensures Filter(a + b, p) == Filter(a, p) + Filter(b, p)
    ensures FilterOut(a + b, p) == FilterOut(a, p) + FilterOut(b, p)
  {
    if a == [] {
      assert a + b == b;
    } else {
      assert (a + b)[0] == a[0];
      assert (a + b)[1..] == a[1..] + b;
      FilterAppend(a[1..], b, p);
      if p(a[0]) {
        assert Filter(a + b, p) == [a[0]] + (Filter(a[1..], p) + Filter(b, p));
      } else {
        assert FilterOut(a + b, p) == [a[0]] + (FilterOut(a[1..], p) + FilterOut(b, p));
      }
    }
  }

  /** A sequence whose elements all meet the condition is kept whole by
      `Filter` and dropped whole by `FilterOut`. */
  lemma {:induction false} FilterAll<T>(s: seq<T>, p: T -> bool)
    requires forall i :: 0 <= i < |s| ==> p(s[i])
    ensures Filter(s, p) == s && FilterOut(s, p) == []
  {
    if s != [] {
      FilterAll(s[1..], p);
      assert s == [s[0]] + s[1..];
    }
  }

  /** A sequence whose elements all fail the condition is dropped whole by
      `Filter` and kept whole by `FilterOut`. */
  lemma {:induction false} FilterNone<T>(s: seq<T>, p: T -> bool)
    requires forall i :: 0 <= i < |s| ==> !p(s[i])
    ensures Filter(s, p) == [] && FilterOut(s, p) == s
  {
    if s != [] {
      FilterNone(s[1..], p);
      assert s == [s[0]] + s[1..];
    }
  }

  /** The elements meeting a condition and those failing it together are
      exactly the elements of the sequence. */
  lemma {:induction false} FilterSplitsMultiset<T>(s: seq<T>, p: T -> bool)
    ensures multiset(Filter(s, p)) + multiset(FilterOut(s, p)) == multiset(s)
  {
    if s != [] {
      FilterSplitsMultiset(s[1..], p);
      assert s == [s[0]] + s[1..];
      if p(s[0]) {
        assert multiset(Filter(s, p)) == multiset{s[0]} + multiset(Filter(s[1..], p));
      } else {
        assert multiset(FilterOut(s, p)) == multiset{s[0]} + multiset(FilterOut(s[1..], p));
      }
    }
  }

  /** Every element `Filter` keeps comes from the sequence, and every element
      of the sequence meeting the condition is kept. */
  lemma {:induction false} FilterMembers<T>(s: seq<T>, p: T -> bool)
    ensures forall x :: x in Filter(s, p) <==> x in s && p(x)
  {
    if s != [] {
      FilterMembers(s[1..], p);
      assert s == [s[0]] + s[1..];
    }
  }
}
