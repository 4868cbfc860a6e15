/** Values and sequence operations shared by every part of the store:
    the null-or-value wrapper that stands for JavaScript's `null`, and the
    `Array.prototype.filter` the code uses on every stored list. */
module Common {

  /** A stored value that may be absent (`null`/`undefined` in the source). */
  datatype Option<T> = None | Some(value: T)

  /** `r` can be obtained from `s` by deleting elements, the rest keeping
      their relative order (matched greedily from the front). */
  ghost predicate SubsequenceOf<T>(r: seq<T>, s: seq<T>)
    decreases |s|
  {
    if r == [] then true
    else if s == [] then false
    else if r[0] == s[0] then SubsequenceOf(r[1..], s[1..])
    else SubsequenceOf(r, s[1..])
  }

  /** `s.filter(p)`: the elements of `s` that satisfy `p`, in their order. */
  function Filter<T>(s: seq<T>, p: T -> bool): (r: seq<T>)
    ensures |r| <= |s|
    ensures forall x :: x in r ==> x in s && p(x)
    ensures SubsequenceOf(r, s)
    decreases |s|
  {
    if s == [] then []
    else if p(s[0]) then
      var r := [s[0]] + Filter(s[1..], p);
      assert r[1..] == Filter(s[1..], p);
      r
    else
      var r := Filter(s[1..], p);
      assert r != [] ==> r[0] in r && r[0] != s[0];
      r
  }

  /** Filtering a concatenation filters each part and keeps the parts in
      order: what `filter` keeps stays in its original relative order. */
  lemma {:induction false} FilterAppend<T>(a: seq<T>, b: seq<T>, p: T -> bool)
    ensures Filter(a + b, p) == Filter(a, p) + Filter(b, p)
    decreases |a|
  {
    if a == [] {
      assert a + b == b;
    } else {
      assert (a + b)[1..] == a[1..] + b;
      FilterAppend(a[1..], b, p);
    }
  }

  /** An element survives `filter` exactly when it was there and passes. */
  lemma {:induction false} FilterMembers<T>(s: seq<T>, p: T -> bool, x: T)
    ensures x in Filter(s, p) <==> x in s && p(x)
    decreases |s|
  {
    if s != [] {
      FilterMembers(s[1..], p, x);
      assert s == [s[0]] + s[1..];
    }
  }

  /** Every occurrence of a passing element is kept, every occurrence of a
      failing one is dropped: the result is the passing part of `s` as a
      multiset, so no record is duplicated or lost. */
  lemma {:induction false} FilterMultiset<T>(s: seq<T>, p: T -> bool, x: T)
    ensures multiset(Filter(s, p))[x] == if p(x) then multiset(s)[x] else 0
    decreases |s|
  {
    if s != [] {
      FilterMultiset(s[1..], p, x);
      assert s == [s[0]] + s[1..];
      assert multiset(s) == multiset([s[0]]) + multiset(s[1..]);
    }
  }

  /** A filter that keeps everything returns the list unchanged. */
  lemma {:induction false} FilterAll<T>(s: seq<T>, p: T -> bool)
    requires forall i :: 0 <= i < |s| ==> p(s[i])
    ensures Filter(s, p) == s
    decreases |s|
  {
    if s != [] {
      FilterAll(s[1..], p);
    }
  }

  /** A filter that keeps nothing returns the empty list. */
  lemma {:induction false} FilterNone<T>(s: seq<T>, p: T -> bool)
    requires forall i :: 0 <= i < |s| ==> !p(s[i])
    ensures Filter(s, p) == []
    decreases |s|
  {
    if s != [] {
      FilterNone(s[1..], p);
    }
  }

  /** The stored list under `k`, or the empty list when nothing is stored
      (`JSON.parse(localStorage.getItem(k) || '[]')`). */
  function Stored<T>(m: map<string, seq<T>>, k: string): seq<T>
  {
    if k in m then m[k] else []
  }

  /** Appends `x` to the list stored under `k` (read, `push`, write back);
      every other stored list is left as it was. */
  function Appended<T>(m: map<string, seq<T>>, k: string, x: T): (r: map<string, seq<T>>)
    ensures Stored(r, k) == Stored(m, k) + [x]
    ensures forall j :: j != k ==> Stored(r, j) == Stored(m, j)
    ensures r.Keys == m.Keys + {k}
  {
    m[k := Stored(m, k) + [x]]
  }
}
