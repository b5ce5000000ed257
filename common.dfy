/** Small shared vocabulary: an optional value and order-preserving filtering
    (JavaScript's `Array.prototype.filter`), with the facts every user of it needs. */
module Common {

  datatype Option<+T> = None | Some(value: T)

  /** The elements of `s` that satisfy `keep`, in their original order, each as
      many times as it occurs in `s` (JavaScript's `filter`). */
  function Filter<T(!new)>(s: seq<T>, keep: T -> bool): (r: seq<T>)
    ensures |r| <= |s|
    ensures forall i :: 0 <= i < |r| ==> keep(r[i])
    ensures forall x :: x in r <==> x in s && keep(x)
    ensures forall x :: multiset(r)[x] == if keep(x) then multiset(s)[x] else 0
  {
    if s == [] then []
    else
      assert s == [s[0]] + s[1..];
      if keep(s[0]) then [s[0]] + Filter(s[1..], keep)
      else Filter(s[1..], keep)
  }

  /** The first element of `s` that satisfies `keep`, if any (JavaScript's `find`). */
  function Find<T>(s: seq<T>, keep: T -> bool): (r: Option<T>)
    ensures r.None? <==> forall i :: 0 <= i < |s| ==> !keep(s[i])
    ensures r.Some? ==> exists k :: 0 <= k < |s| && s[k] == r.value && keep(s[k])
                                    && forall j :: 0 <= j < k ==> !keep(s[j])
  {
    if s == [] then None
    else if keep(s[0]) then Some(s[0])
    else
      var r := Find(s[1..], keep);
      if r.Some? then
        ghost var k :| 0 <= k < |s[1..]| && s[1..][k] == r.value && keep(s[1..][k])
                       && forall j :: 0 <= j < k ==> !keep(s[1..][j]);
        assert s[k + 1] == r.value && forall j :: 0 <= j < k + 1 ==> !keep(s[j]);
        r
      else r
  }

  /** `a` can be obtained from `b` by deleting elements (relative order kept). */
  ghost predicate SubseqOf<T>(a: seq<T>, b: seq<T>)
    decreases |b|
  {
    if a == [] then true
    else if b == [] then false
    else if a[0] == b[0] then SubseqOf(a[1..], b[1..])
    else SubseqOf(a, b[1..])
  }

  lemma {:induction false} SubseqOfDropHead<T>(a: seq<T>, b: seq<T>)
    requires a != [] && SubseqOf(a, b)
    ensures SubseqOf(a[1..], b)
    decreases |b|, 0
  {
    if a[0] == b[0] {
      if a[1..] != [] {
        SubseqOfDropHead(a[1..], b[1..]);
        SubseqOfCons(a[1..], b[0], b[1..]);
      }
    } else {
      SubseqOfDropHead(a, b[1..]);
      if a[1..] != [] {
        SubseqOfCons(a[1..], b[0], b[1..]);
      }
    }
  }

  lemma {:induction false} SubseqOfCons<T>(a: seq<T>, x: T, b: seq<T>)
    requires SubseqOf(a, b)
    ensures SubseqOf(a, [x] + b)
    decreases |b|, 1
  {
    var xb := [x] + b;
    assert xb[1..] == b;
    if a != [] && a[0] == x {
      SubseqOfDropHead(a, b);
    }
  }

  /** Filtering keeps the relative order of what it keeps. */
  lemma {:induction false} FilterIsSubseq<T(!new)>(s: seq<T>, keep: T -> bool)
    ensures SubseqOf(Filter(s, keep), s)
  {
    if s != [] {
      FilterIsSubseq(s[1..], keep);
      if !keep(s[0]) {
        SubseqOfCons(Filter(s[1..], keep), s[0], s[1..]);
      } else {
        var r := [s[0]] + Filter(s[1..], keep);
        assert r[1..] == Filter(s[1..], keep);
      }
    }
  }

  /** Filtering by a predicate that every element satisfies changes nothing. */
  lemma {:induction false} FilterKeepsAll<T(!new)>(s: seq<T>, keep: T -> bool)
    requires forall i :: 0 <= i < |s| ==> keep(s[i])
    ensures Filter(s, keep) == s
  {
    if s != [] {
      FilterKeepsAll(s[1..], keep);
      assert [s[0]] + s[1..] == s;
    }
  }

  /** Filtering twice by the same predicate is filtering once. */
  lemma {:induction false} FilterIdempotent<T(!new)>(s: seq<T>, keep: T -> bool)
    ensures Filter(Filter(s, keep), keep) == Filter(s, keep)
  {
    var r := Filter(s, keep);
    FilterKeepsAll(r, keep);
  }
}
