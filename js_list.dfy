/** The JavaScript array operations the application relies on: `filter`,
    `slice(0, end)`, `some`, and `map` with a callback that may throw. */
module JsList {
  import opened Outcomes

  /** `r` is `s` with some elements left out, the rest kept in order. */
  ghost predicate IsSubsequence<T>(r: seq<T>, s: seq<T>)
    decreases |s|
  {
    if r == [] then true
    else if s == [] then false
    else if r[0] == s[0] then IsSubsequence(r[1..], s[1..])
    else IsSubsequence(r, s[1..])
  }

  lemma SubsequenceOfSelf<T>(s: seq<T>)
    ensures IsSubsequence(s, s)
  {
  }

  /** `s.filter(p)`. */
  function Filter<T>(s: seq<T>, p: T -> bool): (r: seq<T>)
    ensures |r| <= |s|
  {
    if s == [] then []
    else if p(s[0]) then [s[0]] + Filter(s[1..], p)
    else Filter(s[1..], p)
  }

  /** `s.filter(p)` keeps exactly the elements satisfying `p`, each as often
      as in `s`, in their original order. */
  lemma {:induction false} FilterSpec<T(!new)>(s: seq<T>, p: T -> bool)
    ensures forall i :: 0 <= i < |Filter(s, p)| ==> p(Filter(s, p)[i])
    ensures forall x :: x in Filter(s, p) <==> x in s && p(x)
    ensures forall x :: multiset(Filter(s, p))[x] == if p(x) then multiset(s)[x] else 0
    ensures IsSubsequence(Filter(s, p), s)
  {
    if s != [] {
      FilterSpec(s[1..], p);
      assert s == [s[0]] + s[1..];
    }
  }

  /** Filtering with a predicate every element satisfies keeps the sequence. */
  lemma {:induction false} FilterKeepsAll<T(!new)>(s: seq<T>, p: T -> bool)
    requires forall i :: 0 <= i < |s| ==> p(s[i])
    ensures Filter(s, p) == s
  {
    if s != [] {
      FilterKeepsAll(s[1..], p);
    }
  }

  /** Filtering twice with the same predicate is filtering once. */
  lemma FilterIdempotent<T(!new)>(s: seq<T>, p: T -> bool)
    ensures Filter(Filter(s, p), p) == Filter(s, p)
  {
    FilterSpec(s, p);
    FilterKeepsAll(Filter(s, p), p);
  }

  /** Filtering distributes over concatenation. */
  lemma {:induction false} FilterAppend<T(!new)>(a: seq<T>, b: seq<T>, p: T -> bool)
    ensures Filter(a + b, p) == Filter(a, p) + Filter(b, p)
  {
    if a == [] {
      assert a + b == b;
    } else {
      FilterAppend(a[1..], b, p);
      assert (a + b)[0] == a[0];
      assert (a + b)[1..] == a[1..] + b;
      if p(a[0]) {
        calc {
          Filter(a + b, p);
          [a[0]] + Filter(a[1..] + b, p);
          [a[0]] + (Filter(a[1..], p) + Filter(b, p));
          ([a[0]] + Filter(a[1..], p)) + Filter(b, p);
          Filter(a, p) + Filter(b, p);
        }
      }
    }
  }

  /** `s.some(p)`. */
  predicate AnyMatch<T>(s: seq<T>, p: T -> bool) {
    exists i :: 0 <= i < |s| && p(s[i])
  }

  /** The end index at which `a.slice(0, end)` stops for an array of length
      `len`: a negative `end` counts back from the end of the array, and the
      index is clamped to `0..len`. */
  function SliceEnd(end: int, len: nat): (k: nat)
    ensures k <= len
  {
    if end >= 0 then (if end < len then end else len)
    else if len + end > 0 then len + end else 0
  }

  /** `s.map(f)` whose callback may throw, started at position `start`:
      `f(x, k)` is the callback on the element `x` at position `k`, and the
      first element whose callback throws aborts the whole map with that
      error. */
  function MapOrThrow<T, U, E>(s: seq<T>, f: (T, nat) -> Result<U, E>, start: nat): Result<seq<U>, E>
  {
    if s == [] then Ok([])
    else
      match f(s[0], start)
      case Err(e) => Err(e)
      case Ok(u) =>
        match MapOrThrow(s[1..], f, start + 1)
        case Err(e) => Err(e)
        case Ok(us) => Ok([u] + us)
  }

  /** The map succeeds exactly when no callback throws. */
  lemma {:induction false} MapOrThrowOk<T, U, E>(s: seq<T>, f: (T, nat) -> Result<U, E>, start: nat)
    ensures MapOrThrow(s, f, start).Ok? <==> forall i :: 0 <= i < |s| ==> f(s[i], start + i).Ok?
  {
    if s != [] {
      var tail := s[1..];
      MapOrThrowOk(tail, f, start + 1);
      if f(s[0], start).Ok? {
        if exists k :: 0 <= k < |tail| && f(tail[k], start + 1 + k).Err? {
          var k :| 0 <= k < |tail| && f(tail[k], start + 1 + k).Err?;
          assert s[k + 1] == tail[k] && start + (k + 1) == start + 1 + k;
        } else {
          forall i | 0 <= i < |s| ensures f(s[i], start + i).Ok? {
            if i > 0 {
              assert s[i] == tail[i - 1] && start + i == start + 1 + (i - 1);
            }
          }
        }
      }
    }
  }

  /** A successful map has one element per input element, and its element
      `i` is what the callback returned for input element `i`. */
  lemma {:induction false} MapOrThrowAt<T, U, E>(s: seq<T>, f: (T, nat) -> Result<U, E>, start: nat, i: nat)
    requires MapOrThrow(s, f, start).Ok? && i < |s|
    ensures var r := MapOrThrow(s, f, start);
      |r.value| == |s| && f(s[i], start + i).Ok? && r.value[i] == f(s[i], start + i).value
  {
    var tail := s[1..];
    var rest := MapOrThrow(tail, f, start + 1);
    assert f(s[0], start).Ok? && rest.Ok?;
    assert MapOrThrow(s, f, start).value == [f(s[0], start).value] + rest.value;
    if i == 0 {
      if tail != [] {
        MapOrThrowAt(tail, f, start + 1, 0);
      }
    } else {
      var j := i - 1;
      MapOrThrowAt(tail, f, start + 1, j);
      assert s[i] == tail[j] && start + 1 + j == start + i;
    }
  }

  /** A failing map fails with the error of the first callback that
      throws. */
  lemma {:induction false} MapOrThrowErr<T, U, E>(s: seq<T>, f: (T, nat) -> Result<U, E>, start: nat)
    ensures var r := MapOrThrow(s, f, start);
      r.Err? ==>
        exists k :: 0 <= k < |s| && f(s[k], start + k).Err?
          && (forall i :: 0 <= i < k ==> f(s[i], start + i).Ok?)
          && r.error == f(s[k], start + k).error
  {
    if s != [] && f(s[0], start).Ok? {
      var tail := s[1..];
      var rest := MapOrThrow(tail, f, start + 1);
      MapOrThrowErr(tail, f, start + 1);
      if rest.Err? {
        var k :| 0 <= k < |tail| && f(tail[k], start + 1 + k).Err?
          && (forall i :: 0 <= i < k ==> f(tail[i], start + 1 + i).Ok?)
          && rest.error == f(tail[k], start + 1 + k).error;
        assert s[k + 1] == tail[k] && start + (k + 1) == start + 1 + k;
        forall i | 0 <= i < k + 1 ensures f(s[i], start + i).Ok? {
          if i > 0 {
            assert s[i] == tail[i - 1] && start + i == start + 1 + (i - 1);
          }
        }
      }
    }
  }
}
