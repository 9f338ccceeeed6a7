/** The two array operations the preset menu relies on: `filter` and
    `indexOf`, over sequences. */
module Seqs {

  /** `r` is an order-preserving sublist of `s`: deleting zero or more
      elements of `s` yields `r`. */
  predicate Sublist<T(==)>(r: seq<T>, s: seq<T>)
    decreases |s|
  {
    if |r| == 0 then true
    else if |s| == 0 then false
    else (r[0] == s[0] && Sublist(r[1..], s[1..])) || Sublist(r, s[1..])
  }

  /** Every element of a sublist occurs in the whole. */
  lemma {:induction false} SublistMembers<T>(r: seq<T>, s: seq<T>)
    requires Sublist(r, s)
    ensures forall k :: 0 <= k < |r| ==> r[k] in s
    decreases |s|
  {
    if |r| > 0 {
      if r[0] == s[0] && Sublist(r[1..], s[1..]) {
        SublistMembers(r[1..], s[1..]);
        forall k | 0 <= k < |r| ensures r[k] in s {
          if k > 0 {
            assert r[k] == r[1..][k - 1];
            assert r[k] in s[1..];
          }
        }
      } else {
        SublistMembers(r, s[1..]);
        forall k | 0 <= k < |r| ensures r[k] in s {
          assert r[k] in s[1..];
        }
      }
    }
  }

  /** `s.filter(f)`: the elements of `s` that satisfy `f`, in their order.
      `FilterMultiplicity` adds that a passing element is kept as many times
      as it occurs. */
  function Filter<T(==)>(s: seq<T>, f: T -> bool): (r: seq<T>)
    ensures |r| <= |s|
    ensures forall k :: 0 <= k < |r| ==> f(r[k])
    ensures forall k :: 0 <= k < |s| && f(s[k]) ==> s[k] in r
    ensures Sublist(r, s)
  {
    if |s| == 0 then []
    else if f(s[0]) then [s[0]] + Filter(s[1..], f)
    else Filter(s[1..], f)
  }

  /** A passing element is kept as many times as it occurs in `s`, so
      `Filter` never drops a repeated element. */
  lemma {:induction false} FilterMultiplicity<T>(s: seq<T>, f: T -> bool, v: T)
    requires f(v)
    ensures multiset(Filter(s, f))[v] == multiset(s)[v]
    decreases |s|
  {
    if |s| > 0 {
      FilterMultiplicity(s[1..], f, v);
      assert s == [s[0]] + s[1..];
    }
  }

  /** Filtering commutes with concatenation, so the result keeps the
      relative order of the kept elements. */
  lemma {:induction false} FilterConcat<T>(s: seq<T>, t: seq<T>, f: T -> bool)
    ensures Filter(s + t, f) == Filter(s, f) + Filter(t, f)
    decreases |s|
  {
    if |s| == 0 {
      assert s + t == t;
    } else {
      assert (s + t)[1..] == s[1..] + t;
      FilterConcat(s[1..], t, f);
    }
  }

  /** A filter every element passes keeps the whole sequence. */
  lemma {:induction false} FilterAll<T>(s: seq<T>, f: T -> bool)
    requires forall k :: 0 <= k < |s| ==> f(s[k])
    ensures Filter(s, f) == s
    decreases |s|
  {
    if |s| > 0 {
      assert f(s[0]);
      FilterAll(s[1..], f);
    }
  }

  /** A filter no element passes keeps nothing. */
  lemma {:induction false} FilterNone<T>(s: seq<T>, f: T -> bool)
    requires forall k :: 0 <= k < |s| ==> !f(s[k])
    ensures Filter(s, f) == []
    decreases |s|
  {
    if |s| > 0 {
      assert !f(s[0]);
      FilterNone(s[1..], f);
    }
  }

  /** Two filters whose predicates disagree on every element of `s` split
      `s` between them: their lengths add up to `|s|`. */
  lemma {:induction false} FilterSplit<T>(s: seq<T>, f: T -> bool, g: T -> bool)
    requires forall k :: 0 <= k < |s| ==> f(s[k]) != g(s[k])
    ensures |Filter(s, f)| + |Filter(s, g)| == |s|
    decreases |s|
  {
    if |s| > 0 {
      assert f(s[0]) != g(s[0]);
      assert forall k :: 0 <= k < |s[1..]| ==> s[1..][k] == s[k + 1];
      FilterSplit(s[1..], f, g);
    }
  }

  /** `s.indexOf(v)`: the first position of `v` in `s`, or -1. */
  function IndexOf<T(==)>(s: seq<T>, v: T): (r: int)
    ensures r == -1 <==> v !in s
    ensures r != -1 ==> 0 <= r < |s| && s[r] == v
    ensures forall j :: 0 <= j < r ==> s[j] != v
  {
    if |s| == 0 then -1
    else if s[0] == v then 0
    else
      var k := IndexOf(s[1..], v);
      if k == -1 then -1 else k + 1
  }

  /** In a sequence without repeats, `indexOf` recovers the position of
      every element. */
  lemma {:induction false} IndexOfDistinct<T>(s: seq<T>, i: int)
    requires 0 <= i < |s|
    requires forall j, k :: 0 <= j < k < |s| ==> s[j] != s[k]
    ensures IndexOf(s, s[i]) == i
  {
    assert s[i] in s;
  }
}
