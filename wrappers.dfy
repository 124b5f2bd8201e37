/** Optional values and the array searches (`find`, `filter`) the bridge uses everywhere. */
module Wrappers {

  /** JavaScript `undefined` versus a present value. */
  datatype Option<+T> = None | Some(value: T)

  /** The outcome of an asynchronous call: it resolves to a value, or it throws. */
  datatype Attempt<+T> = Done(value: T) | Threw

  /** JavaScript truthiness of an optional string: present and not the empty string. */
  predicate Truthy(s: Option<string>)
  {
    s.Some? && s.value != ""
  }

  /** The index of the first element that satisfies `p` (`Array.prototype.findIndex`). */
  function Find<T>(s: seq<T>, p: T -> bool): (r: Option<nat>)
    ensures r.Some? ==> r.value < |s| && p(s[r.value])
    ensures r.Some? ==> forall j :: 0 <= j < r.value ==> !p(s[j])
    ensures r.None? <==> forall j :: 0 <= j < |s| ==> !p(s[j])
  {
    if s == [] then None
    else if p(s[0]) then Some(0)
    else
      match Find(s[1..], p)
      case None => None
      case Some(i) => Some(i + 1)
  }

  /** The first element that satisfies `p` (`Array.prototype.find`). */
  function First<T>(s: seq<T>, p: T -> bool): (r: Option<T>)
    ensures r.Some? <==> exists i :: 0 <= i < |s| && p(s[i])
    ensures r.Some? ==> p(r.value) && exists i :: 0 <= i < |s| && s[i] == r.value && forall j :: 0 <= j < i ==> !p(s[j])
  {
    match Find(s, p)
    case None => None
    case Some(i) => Some(s[i])
  }

  /** The elements that satisfy `p`, in their original order (`Array.prototype.filter`). */
  function Filter<T>(s: seq<T>, p: T -> bool): (r: seq<T>)
    ensures |r| <= |s|
    ensures forall i :: 0 <= i < |r| ==> r[i] in s && p(r[i])
    ensures forall i :: 0 <= i < |s| && p(s[i]) ==> s[i] in r
  {
    if s == [] then []
    else if p(s[0]) then [s[0]] + Filter(s[1..], p)
    else Filter(s[1..], p)
  }

  /** Filtering keeps the order: a sequence ranked strictly increasingly stays so. */
  lemma {:induction false} FilterKeepsOrder<T>(s: seq<T>, p: T -> bool, rank: T -> int)
    requires forall i, j :: 0 <= i < j < |s| ==> rank(s[i]) < rank(s[j])
    ensures forall i, j :: 0 <= i < j < |Filter(s, p)| ==> rank(Filter(s, p)[i]) < rank(Filter(s, p)[j])
  {
    if s != [] {
      FilterKeepsOrder(s[1..], p, rank);
      var rest := Filter(s[1..], p);
      if p(s[0]) {
        forall k | 0 <= k < |rest|
          ensures rank(s[0]) < rank(rest[k])
        {
          var m :| 0 <= m < |s[1..]| && s[1..][m] == rest[k];
          assert s[m + 1] == rest[k];
        }
        assert Filter(s, p) == [s[0]] + rest;
      }
    }
  }

  /** Finding in a filtered array is finding the first element that passes both tests. */
  lemma {:induction false} FirstOfFilter<T>(s: seq<T>, p: T -> bool, q: T -> bool)
    ensures First(Filter(s, p), q) == First(s, x => p(x) && q(x))
  {
    if s != [] {
      FirstOfFilter(s[1..], p, q);
      var pq := x => p(x) && q(x);
      if p(s[0]) {
        assert Filter(s, p) == [s[0]] + Filter(s[1..], p);
        if !q(s[0]) {
          assert Filter(s, p)[1..] == Filter(s[1..], p);
          FirstOfTail(Filter(s, p), q);
          FirstOfTail(s, pq);
        }
      } else {
        FirstOfTail(s, pq);
      }
    }
  }

  /** Skipping a head that fails the test does not change the first match. */
  lemma FirstOfTail<T>(s: seq<T>, p: T -> bool)
    requires s != [] && !p(s[0])
    ensures First(s, p) == First(s[1..], p)
  {
  }

  /** `Promise.all` over calls that each resolved gives their values, in order. */
  lemma {:induction false} MapAllOfValues<A, B>(xs: seq<A>, f: A -> Attempt<B>, ys: seq<B>)
    requires |ys| == |xs| && forall i :: 0 <= i < |xs| ==> f(xs[i]) == Done(ys[i])
    ensures MapAll(xs, f) == Done(ys)
  {
    if xs != [] {
      MapAllOfValues(xs[..|xs| - 1], f, ys[..|ys| - 1]);
      assert ys == ys[..|ys| - 1] + [ys[|ys| - 1]];
    }
  }

  /**
   * `Promise.all(xs.map(f))`: every call's value, in order, unless one of the calls throws.
   */
  function MapAll<A, B>(xs: seq<A>, f: A -> Attempt<B>): (r: Attempt<seq<B>>)
    ensures r.Done? ==> |r.value| == |xs| && forall i :: 0 <= i < |xs| ==> f(xs[i]) == Done(r.value[i])
    ensures r.Threw? <==> exists i :: 0 <= i < |xs| && f(xs[i]).Threw?
  {
    if xs == [] then Done([])
    else
      match MapAll(xs[..|xs| - 1], f)
      case Threw => Threw
      case Done(front) =>
        match f(xs[|xs| - 1])
        case Threw => Threw
        case Done(y) => Done(front + [y])
  }
}
