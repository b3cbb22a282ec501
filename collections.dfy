/** The array operations the views derive their displayed data with:
    `filter`, `find`, `reduce` to a sum and `slice(0, n)`, together with the
    one record filter every list view instantiates. */
module Collections {
  import opened Optional

  /** `rs.filter(keep)`: the records `keep` accepts, in their original order. */
  function Filter<R>(rs: seq<R>, keep: R -> bool): (r: seq<R>)
    ensures |r| <= |rs|
    ensures forall x :: x in r ==> x in rs && keep(x)
    ensures forall x :: x in rs && keep(x) ==> x in r
    decreases |rs|
  {
    if rs == [] then []
    else (if keep(rs[0]) then [rs[0]] else []) + Filter(rs[1..], keep)
  }

  /** The elements of `b` at the positions `mask` marks, in order. */
  function Pick<R>(b: seq<R>, mask: seq<bool>): seq<R>
    requires |mask| == |b|
    decreases |b|
  {
    if b == [] then []
    else (if mask[0] then [b[0]] else []) + Pick(b[1..], mask[1..])
  }

  /** `a` is obtained from `b` by deleting elements, without reordering. */
  ghost predicate IsSubsequence<R>(a: seq<R>, b: seq<R>) {
    exists mask: seq<bool> :: |mask| == |b| && a == Pick(b, mask)
  }

  /** Which positions of `rs` a filter keeps. */
  function KeepMask<R>(rs: seq<R>, keep: R -> bool): (m: seq<bool>)
    ensures |m| == |rs|
    ensures forall i :: 0 <= i < |rs| ==> m[i] == keep(rs[i])
  {
    seq(|rs|, i requires 0 <= i < |rs| => keep(rs[i]))
  }

  lemma {:induction false} FilterPicksKeepMask<R>(rs: seq<R>, keep: R -> bool)
    ensures Filter(rs, keep) == Pick(rs, KeepMask(rs, keep))
    decreases |rs|
  {
    if rs != [] {
      FilterPicksKeepMask(rs[1..], keep);
      assert KeepMask(rs, keep)[1..] == KeepMask(rs[1..], keep);
    }
  }

  /** A filtered list is an order-preserving subsequence of its source. */
  lemma FilterIsSubsequence<R>(rs: seq<R>, keep: R -> bool)
    ensures IsSubsequence(Filter(rs, keep), rs)
  {
    FilterPicksKeepMask(rs, keep);
  }

  /** Filtering with a predicate every record satisfies returns the input
      unchanged. */
  lemma {:induction false} FilterKeepsAll<R>(rs: seq<R>, keep: R -> bool)
    requires forall x :: x in rs ==> keep(x)
    ensures Filter(rs, keep) == rs
    decreases |rs|
  {
    if rs != [] {
      FilterKeepsAll(rs[1..], keep);
    }
  }

  /** Filtering the filtered list again with the same criteria changes
      nothing. */
  lemma FilterIdempotent<R>(rs: seq<R>, keep: R -> bool)
    ensures Filter(Filter(rs, keep), keep) == Filter(rs, keep)
  {
    FilterKeepsAll(Filter(rs, keep), keep);
  }

  /** Filtering by two criteria at once is filtering by one and then by the
      other, which is how a search and each dropdown narrow a list. */
  lemma {:induction false} FilterConjunction<R>(rs: seq<R>, p: R -> bool, q: R -> bool, both: R -> bool)
    requires forall x :: both(x) == (p(x) && q(x))
    ensures Filter(rs, both) == Filter(Filter(rs, p), q)
    decreases |rs|
  {
    if rs != [] {
      FilterConjunction(rs[1..], p, q, both);
      assert Filter(rs, p) == (if p(rs[0]) then [rs[0]] else []) + Filter(rs[1..], p);
      FilterAppend(if p(rs[0]) then [rs[0]] else [], Filter(rs[1..], p), q);
    }
  }

  lemma {:induction false} FilterAppend<R>(a: seq<R>, b: seq<R>, keep: R -> bool)
    ensures Filter(a + b, keep) == Filter(a, keep) + Filter(b, keep)
    decreases |a|
  {
    if a == [] {
      assert a + b == b;
    } else {
      var head := if keep(a[0]) then [a[0]] else [];
      assert (a + b)[0] == a[0] && (a + b)[1..] == a[1..] + b;
      assert Filter(a + b, keep) == head + Filter(a[1..] + b, keep);
      assert Filter(a, keep) == head + Filter(a[1..], keep);
      FilterAppend(a[1..], b, keep);
    }
  }

  /** The index of the first record `p` accepts, or -1: `findIndex`. */
  function FindIndex<R>(rs: seq<R>, p: R -> bool): (k: int)
    ensures -1 <= k < |rs|
    ensures k == -1 <==> forall i :: 0 <= i < |rs| ==> !p(rs[i])
    ensures k >= 0 ==> p(rs[k]) && forall i :: 0 <= i < k ==> !p(rs[i])
    decreases |rs|
  {
    if rs == [] then -1
    else if p(rs[0]) then 0
    else
      var k := FindIndex(rs[1..], p);
      assert forall i :: 1 <= i < |rs| ==> rs[i] == rs[1..][i - 1];
      if k == -1 then -1 else k + 1
  }

  /** `rs.find(p)`: the first record `p` accepts, if any. */
  function Find<R>(rs: seq<R>, p: R -> bool): (r: Option<R>)
    ensures r.None? <==> forall x :: x in rs ==> !p(x)
    ensures r.Some? ==> r.value in rs && p(r.value)
    ensures r.Some? ==> exists k :: 0 <= k < |rs| && rs[k] == r.value && forall i :: 0 <= i < k ==> !p(rs[i])
  {
    var k := FindIndex(rs, p);
    if k == -1 then None else Some(rs[k])
  }

  /** `rs.reduce((sum, x) => sum + f(x), 0)`. */
  function SumOf<R>(rs: seq<R>, f: R -> int): int
    decreases |rs|
  {
    if rs == [] then 0 else f(rs[0]) + SumOf(rs[1..], f)
  }

  lemma {:induction false} SumOfAppend<R>(a: seq<R>, b: seq<R>, f: R -> int)
    ensures SumOf(a + b, f) == SumOf(a, f) + SumOf(b, f)
    decreases |a|
  {
    if a == [] {
      assert a + b == b;
    } else {
      SumOfAppend(a[1..], b, f);
      assert (a + b)[1..] == a[1..] + b;
    }
  }

  /** A total over all records splits into the total over the records a
      criterion accepts and the total over the rest. */
  lemma {:induction false} SumOfPartition<R>(rs: seq<R>, p: R -> bool, notP: R -> bool, f: R -> int)
    requires forall x :: notP(x) == !p(x)
    ensures SumOf(rs, f) == SumOf(Filter(rs, p), f) + SumOf(Filter(rs, notP), f)
    decreases |rs|
  {
    if rs != [] {
      SumOfPartition(rs[1..], p, notP, f);
      SumOfAppend(if p(rs[0]) then [rs[0]] else [], Filter(rs[1..], p), f);
      SumOfAppend(if notP(rs[0]) then [rs[0]] else [], Filter(rs[1..], notP), f);
    }
  }

  /** When every record's `f` is at most its `g`, so is the total. */
  lemma {:induction false} SumOfMonotone<R>(rs: seq<R>, f: R -> int, g: R -> int)
    requires forall x :: x in rs ==> f(x) <= g(x)
    ensures SumOf(rs, f) <= SumOf(rs, g)
    decreases |rs|
  {
    if rs != [] {
      SumOfMonotone(rs[1..], f, g);
    }
  }

  /** With no negative summand the total is non-negative and no summand
      exceeds it. */
  lemma {:induction false} SumOfNonNegative<R>(rs: seq<R>, f: R -> int)
    ensures (forall x :: x in rs ==> f(x) >= 0) ==>
              SumOf(rs, f) >= 0 && forall x :: x in rs ==> f(x) <= SumOf(rs, f)
    decreases |rs|
  {
    if rs != [] && forall x :: x in rs ==> f(x) >= 0 {
      SumOfNonNegative(rs[1..], f);
      forall x | x in rs ensures f(x) <= SumOf(rs, f) {
        if x != rs[0] {
          assert x in rs[1..];
        }
      }
    }
  }

  /** `rs.slice(0, n)` for `n >= 0`: the first `n` records, or all of them
      when there are fewer. */
  function Take<R>(rs: seq<R>, n: nat): (r: seq<R>)
    ensures |r| == if |rs| < n then |rs| else n
    ensures forall i :: 0 <= i < |r| ==> r[i] == rs[i]
  {
    if |rs| < n then rs else rs[..n]
  }

  /** A truncated list is the input itself when it is short enough, and in
      every case a subsequence of it. */
  lemma TakeIsPrefix<R>(rs: seq<R>, n: nat)
    ensures |rs| <= n ==> Take(rs, n) == rs
    ensures IsSubsequence(Take(rs, n), rs)
  {
    var k := |Take(rs, n)|;
    var mask := seq(|rs|, i requires 0 <= i < |rs| => i < k);
    PickPrefix(rs, k, mask);
  }

  lemma {:induction false} PickPrefix<R>(rs: seq<R>, k: nat, mask: seq<bool>)
    requires k <= |rs| && |mask| == |rs|
    requires forall i :: 0 <= i < |rs| ==> mask[i] == (i < k)
    ensures Pick(rs, mask) == rs[..k]
    decreases |rs|
  {
    if rs != [] {
      if k == 0 {
        PickPrefix(rs[1..], 0, mask[1..]);
      } else {
        PickPrefix(rs[1..], k - 1, mask[1..]);
        assert rs[..k] == [rs[0]] + rs[1..][..k - 1];
      }
    }
  }

  /** A dropdown filter: `selected === 'all' || value === selected`. The
      comparison is exact, so it is case-sensitive. */
  predicate MatchesFilter(selected: string, value: string) {
    selected == "all" || value == selected
  }
}
