/** The JavaScript array operations the back office composes: `slice`,
    `filter`, `push(...chunk)` flattening, and `reduce` sums. */
module JsArray {

  /** How `Array.prototype.slice` reads one of its bounds: a negative bound
      counts from the end, and the result is clamped to `0..n`. */
  function SliceBound(n: nat, x: int): (b: nat)
    ensures b <= n
    ensures 0 <= x ==> b == if x < n then x else n
  {
    if x < 0 then (if n + x < 0 then 0 else n + x) else if x < n then x else n
  }

  /** `s.slice(start, end)`. */
  function JsSlice<T>(s: seq<T>, start: int, end: int): seq<T> {
    var from, to := SliceBound(|s|, start), SliceBound(|s|, end);
    if from < to then s[from..to] else []
  }

  function Min(a: int, b: int): int {
    if a < b then a else b
  }

  /** For non-negative bounds `slice` takes the elements at `start .. end-1`
      that exist, so it never returns more than `end - start` of them. */
  lemma SliceNonNegative<T>(s: seq<T>, start: int, end: int)
    requires 0 <= start <= end
    ensures var r := JsSlice(s, start, end);
      && r == s[Min(start, |s|)..Min(end, |s|)]
      && |r| <= end - start
      && forall k :: 0 <= k < |r| ==> r[k] == s[start + k]
  {
  }

  /** `s.slice(0, k)` is the prefix of length `min(k, |s|)`. */
  lemma SlicePrefix<T>(s: seq<T>, k: int)
    requires 0 <= k
    ensures JsSlice(s, 0, k) == s[..Min(k, |s|)]
  {
  }

  /** `s.filter(p)`: the elements satisfying `p`, in their order. */
  function Filter<T>(s: seq<T>, p: T -> bool): (r: seq<T>)
    ensures |r| <= |s|
    ensures forall i :: 0 <= i < |r| ==> p(r[i])
  {
    if s == [] then []
    else if p(s[0]) then [s[0]] + Filter(s[1..], p)
    else Filter(s[1..], p)
  }

  /** `a` is `b` with some elements removed and the rest kept in order. */
  predicate IsSubsequence<T(==)>(a: seq<T>, b: seq<T>)
    decreases |b|
  {
    if a == [] then true
    else if b == [] then false
    else if a[0] == b[0] then IsSubsequence(a[1..], b[1..])
    else IsSubsequence(a, b[1..])
  }

  /** Filtering keeps the order: its result is a subsequence of its input. */
  lemma {:induction false} FilterIsSubsequence<T>(s: seq<T>, p: T -> bool)
    ensures IsSubsequence(Filter(s, p), s)
  {
    if s != [] {
      FilterIsSubsequence(s[1..], p);
    }
  }

  /** An element is kept exactly when it is in the input and satisfies `p`. */
  lemma {:induction false} FilterMembership<T>(s: seq<T>, p: T -> bool, x: T)
    ensures x in Filter(s, p) <==> x in s && p(x)
  {
    if s != [] {
      FilterMembership(s[1..], p, x);
      assert s == [s[0]] + s[1..];
    }
  }

  /** A filter that keeps everything returns its input. */
  lemma {:induction false} FilterKeepsAll<T>(s: seq<T>, p: T -> bool)
    requires forall i :: 0 <= i < |s| ==> p(s[i])
    ensures Filter(s, p) == s
  {
    if s != [] {
      FilterKeepsAll(s[1..], p);
    }
  }

  /** Filtering with a stronger condition keeps no more elements. */
  lemma {:induction false} FilterMonotone<T>(s: seq<T>, p: T -> bool, q: T -> bool)
    requires forall x :: p(x) ==> q(x)
    ensures IsSubsequence(Filter(s, p), Filter(s, q))
    ensures |Filter(s, p)| <= |Filter(s, q)|
  {
    if s != [] {
      FilterMonotone(s[1..], p, q);
    }
  }

  /** Filtering a list with one more element at the end. */
  lemma {:induction false} FilterSnoc<T>(s: seq<T>, x: T, p: T -> bool)
    ensures Filter(s + [x], p) == Filter(s, p) + (if p(x) then [x] else [])
  {
    if s == [] {
      assert s + [x] == [x];
    } else {
      assert (s + [x])[1..] == s[1..] + [x];
      FilterSnoc(s[1..], x, p);
    }
  }

  /** When the elements satisfying `c` are exactly those satisfying one of
      `a`, `b`, `d`, and no element satisfies two of them, the three filters
      together keep as many elements as the filter on `c`. */
  lemma {:induction false} FilterPartition<T>(s: seq<T>, c: T -> bool, a: T -> bool, b: T -> bool, d: T -> bool)
    requires forall i :: 0 <= i < |s| ==> (c(s[i]) <==> a(s[i]) || b(s[i]) || d(s[i]))
    requires forall i :: 0 <= i < |s| ==> !(a(s[i]) && b(s[i])) && !(a(s[i]) && d(s[i])) && !(b(s[i]) && d(s[i]))
    ensures |Filter(s, a)| + |Filter(s, b)| + |Filter(s, d)| == |Filter(s, c)|
  {
    if s != [] {
      FilterPartition(s[1..], c, a, b, d);
    }
  }

  /** `chunks.forEach(c => acc.push(...c))`: the chunks laid end to end. */
  function Flatten<T>(chunks: seq<seq<T>>): seq<T> {
    if chunks == [] then [] else Flatten(chunks[..|chunks| - 1]) + chunks[|chunks| - 1]
  }

  /** Flattening appended chunks appends their flattenings. */
  lemma {:induction false} FlattenAppend<T>(a: seq<seq<T>>, b: seq<seq<T>>)
    ensures Flatten(a + b) == Flatten(a) + Flatten(b)
    decreases |b|
  {
    if b != [] {
      var b' := b[..|b| - 1];
      assert (a + b)[..|a + b| - 1] == a + b';
      FlattenAppend(a, b');
    } else {
      assert a + b == a;
    }
  }

  /** `s.reduce((acc, x) => acc + f(x), 0)`. */
  function Sum<T>(s: seq<T>, f: T -> real): real {
    if s == [] then 0.0 else Sum(s[..|s| - 1], f) + f(s[|s| - 1])
  }
}
