/**
 * The JavaScript array operations the reducers are built from:
 * `findIndex`, `filter`, assignment to the first match, and the
 * `splice(i, 1)` followed by `unshift` that moves an element to the front.
 */
module ListOps {

  /** `s.findIndex(p)`: the first index whose element satisfies `p`, or -1. */
  function FindIndex<T>(s: seq<T>, p: T -> bool): (r: int)
    ensures -1 <= r < |s|
    ensures r == -1 <==> forall k :: 0 <= k < |s| ==> !p(s[k])
    ensures 0 <= r ==> p(s[r]) && forall k :: 0 <= k < r ==> !p(s[k])
  {
    if |s| == 0 then -1
    else if p(s[0]) then 0
    else
      var r' := FindIndex(s[1..], p);
      if r' == -1 then -1 else r' + 1
  }

  /**
   * `const i = s.findIndex(p); if (i !== -1) s[i] = f(s[i]);`
   * Only the first match changes; without a match nothing changes.
   */
  function UpdateFirst<T>(s: seq<T>, p: T -> bool, f: T -> T): (r: seq<T>)
    ensures |r| == |s|
    ensures (forall k :: 0 <= k < |s| ==> !p(s[k])) ==> r == s
    ensures forall k :: 0 <= k < |s| && k != FindIndex(s, p) ==> r[k] == s[k]
    ensures 0 <= FindIndex(s, p) ==> r[FindIndex(s, p)] == f(s[FindIndex(s, p)])
  {
    var i := FindIndex(s, p);
    if i == -1 then s else s[i := f(s[i])]
  }

  /**
   * `const x = s[i]; s.splice(i, 1); s.unshift(x);`
   * The element at `i` comes first and every other element keeps its
   * relative order.
   */
  function MoveToFront<T>(s: seq<T>, i: nat): (r: seq<T>)
    requires i < |s|
    ensures |r| == |s|
    ensures r[0] == s[i]
    ensures forall k :: 0 <= k < i ==> r[k + 1] == s[k]
    ensures forall k :: i < k < |s| ==> r[k] == s[k]
    ensures multiset(r) == multiset(s)
  {
    assert s == s[..i] + [s[i]] + s[i + 1..];
    [s[i]] + s[..i] + s[i + 1..]
  }

  /** `s.filter(keep)`: the elements satisfying `keep`, in their original order. */
  function Filter<T>(s: seq<T>, keep: T -> bool): (r: seq<T>)
    ensures |r| <= |s|
    ensures forall k :: 0 <= k < |r| ==> r[k] in s && keep(r[k])
    ensures forall k :: 0 <= k < |s| && keep(s[k]) ==> s[k] in r
  {
    if |s| == 0 then []
    else if keep(s[0]) then [s[0]] + Filter(s[1..], keep)
    else Filter(s[1..], keep)
  }

  /** Filtering distributes over concatenation: relative order is kept. */
  lemma {:induction false} FilterAppend<T>(a: seq<T>, b: seq<T>, keep: T -> bool)
    ensures Filter(a + b, keep) == Filter(a, keep) + Filter(b, keep)
  {
    if |a| == 0 {
      assert a + b == b;
    } else {
      assert (a + b)[1..] == a[1..] + b;
      FilterAppend(a[1..], b, keep);
    }
  }

  /** Filtering twice with the same test is filtering once. */
  lemma {:induction false} FilterIdempotent<T>(s: seq<T>, keep: T -> bool)
    ensures Filter(Filter(s, keep), keep) == Filter(s, keep)
  {
    if |s| > 0 {
      FilterIdempotent(s[1..], keep);
      if keep(s[0]) {
        assert ([s[0]] + Filter(s[1..], keep))[1..] == Filter(s[1..], keep);
      }
    }
  }

  /** Nothing is dropped when every element passes; everything is dropped when none does. */
  lemma {:induction false} FilterAllOrNone<T>(s: seq<T>, keep: T -> bool)
    ensures (forall k :: 0 <= k < |s| ==> keep(s[k])) ==> Filter(s, keep) == s
    ensures (forall k :: 0 <= k < |s| ==> !keep(s[k])) ==> Filter(s, keep) == []
  {
    if |s| > 0 {
      FilterAllOrNone(s[1..], keep);
      assert [s[0]] + s[1..] == s;
    }
  }
}
