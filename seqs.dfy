// Sequence helpers shared by the list comprehensions and slices of the model.
module Seqs {
  import opened Wrappers

  /** `[x for x in s if f(x)]` */
  function Filter<T>(s: seq<T>, f: T -> bool): (r: seq<T>)
    ensures |r| <= |s|
    ensures forall x :: x in r ==> x in s && f(x)
    ensures forall x :: x in s && f(x) ==> x in r
  {
    if s == [] then [] else (if f(s[0]) then [s[0]] else []) + Filter(s[1..], f)
  }

  /** Regrouping concatenations, stated once so that callers need not unfold them. */
  lemma AppendAssoc<T>(a: seq<T>, b: seq<T>, c: seq<T>)
    ensures (a + b) + c == a + (b + c)
  {
  }

  lemma AppendRegroup<T>(h: seq<T>, a: seq<T>, b: seq<T>, c: seq<T>)
    ensures h + a + b + c == h + (a + b + c)
  {
  }

  lemma {:induction false} FilterAppend<T>(s: seq<T>, t: seq<T>, f: T -> bool)
    ensures Filter(s + t, f) == Filter(s, f) + Filter(t, f)
  {
    if s == [] {
      assert s + t == t;
    } else {
      assert (s + t)[1..] == s[1..] + t;
      FilterAppend(s[1..], t, f);
    }
  }

  lemma {:induction false} FilterAll<T>(s: seq<T>, f: T -> bool)
    requires forall x :: x in s ==> f(x)
    ensures Filter(s, f) == s
  {
    if s != [] {
      FilterAll(s[1..], f);
    }
  }

  /** `a` is `b` with some elements left out, order kept. */
  predicate IsSubsequence<T(==)>(a: seq<T>, b: seq<T>)
    decreases |b|
  {
    a == [] || (b != [] && ((a[0] == b[0] && IsSubsequence(a[1..], b[1..])) || IsSubsequence(a, b[1..])))
  }

  /** A comprehension keeps the order of its source. */
  lemma {:induction false} FilterSubsequence<T>(s: seq<T>, f: T -> bool)
    ensures IsSubsequence(Filter(s, f), s)
  {
    if s != [] {
      FilterSubsequence(s[1..], f);
      if f(s[0]) {
        assert Filter(s, f)[1..] == Filter(s[1..], f);
      } else {
        assert Filter(s, f) == Filter(s[1..], f);
      }
    }
  }

  /** `len([x for x in s if f(x)])` */
  /** Applies `f` to every element, failing as soon as one application fails. */
  function MapAll<T, U>(s: seq<T>, f: T -> Option<U>): (r: Option<seq<U>>)
    ensures r.Some? <==> forall k :: 0 <= k < |s| ==> f(s[k]).Some?
    ensures r.Some? ==> |r.value| == |s| && forall k :: 0 <= k < |s| ==> f(s[k]) == Some(r.value[k])
  {
    if s == [] then Some([])
    else match f(s[0])
      case None => None
      case Some(v) =>
        var rest := MapAll(s[1..], f);
        assert forall k :: 0 < k < |s| ==> s[k] == s[1..][k - 1];
        match rest
        case None => None
        case Some(vs) => Some([v] + vs)
  }

  /** Where every application succeeds, the result is exactly their values. */
  lemma {:induction false} MapAllEach<T, U>(s: seq<T>, f: T -> Option<U>, values: seq<U>)
    requires |s| == |values|
    requires forall k :: 0 <= k < |s| ==> f(s[k]) == Some(values[k])
    ensures MapAll(s, f) == Some(values)
  {
    if s != [] {
      assert forall k :: 0 <= k < |s| - 1 ==> s[1..][k] == s[k + 1] && values[1..][k] == values[k + 1];
      MapAllEach(s[1..], f, values[1..]);
      assert [values[0]] + values[1..] == values;
    }
  }

  function Count<T>(s: seq<T>, f: T -> bool): (n: nat)
    ensures n <= |s|
    ensures n == |Filter(s, f)|
  {
    if s == [] then 0 else (if f(s[0]) then 1 else 0) + Count(s[1..], f)
  }

  /** Python's `s[:n]`, negative `n` counting from the end. */
  function Take<T>(s: seq<T>, n: int): (r: seq<T>)
    ensures |r| <= |s| && r == s[..|r|]
    ensures 0 <= n ==> |r| == if n <= |s| then n else |s|
    ensures n < 0 ==> |r| == if |s| + n >= 0 then |s| + n else 0
  {
    if n >= 0 then (if n <= |s| then s[..n] else s)
    else if |s| + n >= 0 then s[..|s| + n]
    else []
  }

  /** Python's `s[-n:]` for a non-negative `n`; `s[-0:]` is the whole list. */
  function LastN<T>(s: seq<T>, n: nat): (r: seq<T>)
    ensures |r| <= |s| && r == s[|s| - |r|..]
    ensures n == 0 ==> r == s
    ensures 0 < n ==> |r| == if n <= |s| then n else |s|
  {
    if n == 0 || n >= |s| then s else s[|s| - n..]
  }

  function Sum(s: seq<int>): int
  {
    if s == [] then 0 else s[0] + Sum(s[1..])
  }

  function SumReal(s: seq<real>): real
  {
    if s == [] then 0.0 else s[0] + SumReal(s[1..])
  }

  lemma {:induction false} SumAppend(s: seq<int>, x: int)
    ensures Sum(s + [x]) == Sum(s) + x
  {
    if s != [] {
      assert (s + [x])[1..] == s[1..] + [x];
      SumAppend(s[1..], x);
    }
  }

  lemma {:induction false} SumRealAppend(s: seq<real>, x: real)
    ensures SumReal(s + [x]) == SumReal(s) + x
  {
    if s != [] {
      assert (s + [x])[1..] == s[1..] + [x];
      SumRealAppend(s[1..], x);
    }
  }

  function MinReal(s: seq<real>): real
    requires s != []
  {
    if |s| == 1 then s[0] else var m := MinReal(s[1..]); if s[0] <= m then s[0] else m
  }

  function MaxReal(s: seq<real>): real
    requires s != []
  {
    if |s| == 1 then s[0] else var m := MaxReal(s[1..]); if s[0] >= m then s[0] else m
  }

  lemma {:induction false} MinMaxBound(s: seq<real>)
    requires s != []
    ensures forall x :: x in s ==> MinReal(s) <= x <= MaxReal(s)
    ensures MinReal(s) in s && MaxReal(s) in s
  {
    if |s| > 1 {
      MinMaxBound(s[1..]);
      assert forall x :: x in s ==> x == s[0] || x in s[1..];
    }
  }

  /** Multiplying by a positive number keeps a strict order. */
  lemma MulStrict(a: real, b: real, v: real)
    requires v > 0.0 && a > b
    ensures a * v > b * v
  {
    assert a * v - b * v == (a - b) * v;
  }

  /** A share `(v - c) / v` of a positive `v` is at most 1, and non-negative iff `c <= v`. */
  lemma RatioBounds(v: real, c: real)
    requires v > 0.0 && c >= 0.0
    ensures (v - c) / v <= 1.0
    ensures (v - c) / v >= 0.0 <==> c <= v
  {
    var q := (v - c) / v;
    assert q * v == v - c;
    if q > 1.0 { MulStrict(q, 1.0, v); }
    if q < 0.0 { MulStrict(0.0, q, v); }
    if c > v { assert q * v < 0.0; if q >= 0.0 { if q > 0.0 { MulStrict(q, 0.0, v); } } }
  }
}
