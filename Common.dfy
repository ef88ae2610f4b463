/** Small generic building blocks shared by the components: an Option type and the
    array operations the components use (filter, slice(0, n), find, flattening). */
module Common {

  datatype Option<+T> = None | Some(value: T)

  /** Array.prototype.filter: the elements of `s` that satisfy `p`, in their original order. */
  function Filter<T>(s: seq<T>, p: T -> bool): (r: seq<T>)
    ensures |r| <= |s|
    ensures forall x :: x in r ==> x in s && p(x)
    ensures forall x :: x in s && p(x) ==> x in r
  {
    if s == [] then [] else if p(s[0]) then [s[0]] + Filter(s[1..], p) else Filter(s[1..], p)
  }

  /** Filtering distributes over concatenation: the relative order of kept elements is unchanged. */
  lemma {:induction false} FilterAppend<T>(a: seq<T>, b: seq<T>, p: T -> bool)
    ensures Filter(a + b, p) == Filter(a, p) + Filter(b, p)
  {
    if a == [] {
      assert a + b == b;
    } else {
      assert (a + b)[1..] == a[1..] + b;
      FilterAppend(a[1..], b, p);
    }
  }

  /** Keeping what `p` keeps and then what `q` keeps from the rest: when no element satisfies both,
      the two filters together take exactly as many elements as the one filter on `p || q`. */
  lemma {:induction false} FilterCountsAdd<T>(s: seq<T>, p: T -> bool, q: T -> bool)
    requires forall x :: x in s ==> !(p(x) && q(x))
    ensures |Filter(s, p)| + |Filter(s, q)| == |Filter(s, x => p(x) || q(x))|
    ensures multiset(Filter(s, p)) + multiset(Filter(s, q)) == multiset(Filter(s, x => p(x) || q(x)))
  {
    if s != [] {
      FilterCountsAdd(s[1..], p, q);
    }
  }

  /** A filter with a predicate that holds everywhere keeps the whole sequence. */
  lemma {:induction false} FilterAll<T>(s: seq<T>, p: T -> bool)
    requires forall x :: x in s ==> p(x)
    ensures Filter(s, p) == s
  {
    if s != [] {
      FilterAll(s[1..], p);
    }
  }

  /** No element occurs twice. */
  predicate Distinct<T(==)>(s: seq<T>)
  {
    forall i, j :: 0 <= i < j < |s| ==> s[i] != s[j]
  }

  /** Filtering keeps a duplicate-free list duplicate-free. */
  lemma {:induction false} FilterDistinct<T>(s: seq<T>, p: T -> bool)
    requires Distinct(s)
    ensures Distinct(Filter(s, p))
  {
    if s != [] {
      assert Distinct(s[1..]) by {
        forall i, j | 0 <= i < j < |s[1..]| ensures s[1..][i] != s[1..][j] {
          assert s[1..][i] == s[i + 1] && s[1..][j] == s[j + 1];
        }
      }
      FilterDistinct(s[1..], p);
      if p(s[0]) {
        var rest := Filter(s[1..], p);
        assert s[0] !in s[1..];
        assert s[0] !in rest;
        var r := [s[0]] + rest;
        forall i, j | 0 <= i < j < |r| ensures r[i] != r[j] {
          if i == 0 {
            assert r[j] == rest[j - 1];
          } else {
            assert r[i] == rest[i - 1] && r[j] == rest[j - 1];
          }
        }
      }
    }
  }

  /** Regrouping a concatenation that starts with one element. */
  /** The three parts of a concatenation, read back by position. */
  lemma ThreeParts<T>(a: seq<T>, b: seq<T>, c: seq<T>)
    ensures (a + b + c)[..|a|] == a
    ensures (a + b + c)[|a|..|a| + |b|] == b
    ensures (a + b + c)[|a| + |b|..] == c
  {
  }

  lemma ConsAppend<T>(c: T, t: seq<T>, r: seq<T>)
    ensures ([c] + t) + r == [c] + (t + r)
  {
  }

  /** Array.prototype.slice(0, n): the first min(n, |s|) elements. */
  function Take<T>(s: seq<T>, n: nat): (r: seq<T>)
    ensures |r| == if n < |s| then n else |s|
    ensures r <= s
  {
    if n < |s| then s[..n] else s
  }

  /** Array.prototype.findIndex: the first index whose element satisfies `p`, if any. */
  function FindFirst<T>(s: seq<T>, p: T -> bool): (r: Option<nat>)
    ensures r.Some? ==> r.value < |s| && p(s[r.value]) && forall j :: 0 <= j < r.value ==> !p(s[j])
    ensures r.None? ==> forall j :: 0 <= j < |s| ==> !p(s[j])
  {
    if s == [] then None
    else if p(s[0]) then Some(0)
    else match FindFirst(s[1..], p)
      case None => None
      case Some(i) => Some(i + 1)
  }

  /** Array.prototype.find: the first element that satisfies `p`, if any. */
  function Find<T>(s: seq<T>, p: T -> bool): (r: Option<T>)
    ensures r.Some? ==> r.value in s && p(r.value)
    ensures r.None? <==> forall x :: x in s ==> !p(x)
  {
    match FindFirst(s, p)
    case None => None
    case Some(i) => Some(s[i])
  }

  /** No element before index `k` satisfies `p`, stated one index at a time. */
  predicate NoneBefore<T>(s: seq<T>, p: T -> bool, k: nat)
    requires k <= |s|
  {
    k == 0 || (!p(s[k - 1]) && NoneBefore(s, p, k - 1))
  }

  /** One more index without a match extends `NoneBefore`. */
  lemma NoneBeforeStep<T>(s: seq<T>, p: T -> bool, k: nat)
    requires k < |s| && NoneBefore(s, p, k) && !p(s[k])
    ensures NoneBefore(s, p, k + 1)
  {
  }

  lemma {:induction false} NoneBeforeAll<T>(s: seq<T>, p: T -> bool, k: nat)
    requires k <= |s| && NoneBefore(s, p, k)
    ensures forall j :: 0 <= j < k ==> !p(s[j])
  {
    if k > 0 {
      NoneBeforeAll(s, p, k - 1);
    }
  }

  /** `find` returns the element at the first index whose element satisfies `p`. */
  lemma FindAt<T>(s: seq<T>, p: T -> bool, k: nat)
    requires k < |s| && p(s[k]) && NoneBefore(s, p, k)
    ensures FindFirst(s, p) == Some(k) && Find(s, p) == Some(s[k])
  {
    NoneBeforeAll(s, p, k);
  }

  /** `find` returns nothing when no element satisfies `p`. */
  lemma FindNone<T>(s: seq<T>, p: T -> bool)
    requires NoneBefore(s, p, |s|)
    ensures Find(s, p) == None
  {
    NoneBeforeAll(s, p, |s|);
  }

  /** The value of an option as a list of at most one element. */
  function Present<T>(o: Option<T>): seq<T>
  {
    if o.Some? then [o.value] else []
  }

  /** A map-then-drop-missing pass: `f` applied to each element in order, keeping the present
      results (a loop that pushes `f(x)` whenever there is one). */
  function FilterMap<T, U>(s: seq<T>, f: T -> Option<U>): seq<U>
  {
    if s == [] then [] else Present(f(s[0])) + FilterMap(s[1..], f)
  }

  /** The pass keeps input order: it distributes over concatenation. */
  lemma {:induction false} FilterMapAppend<T, U>(a: seq<T>, b: seq<T>, f: T -> Option<U>)
    ensures FilterMap(a + b, f) == FilterMap(a, f) + FilterMap(b, f)
  {
    if a == [] {
      assert a + b == b;
    } else {
      assert (a + b)[1..] == a[1..] + b;
      FilterMapAppend(a[1..], b, f);
    }
  }

  /** A single element with a present result yields just that result. */
  lemma FilterMapOne<T, U>(x: T, f: T -> Option<U>, y: U)
    requires f(x) == Some(y)
    ensures FilterMap([x], f) == [y]
  {
    assert [x][1..] == [];
  }

  /** Two elements with the same present result yield that result twice. */
  lemma FilterMapPair<T, U>(a: T, b: T, f: T -> Option<U>, y: U)
    requires f(a) == Some(y) && f(b) == Some(y)
    ensures FilterMap([a, b], f) == [y, y]
  {
    assert [a, b][1..] == [b];
    FilterMapOne(b, f, y);
  }

  /** One more element extends the pass by that element's present result. */
  lemma FilterMapStep<T, U>(s: seq<T>, i: nat, f: T -> Option<U>)
    requires i < |s|
    ensures FilterMap(s[..i + 1], f) == FilterMap(s[..i], f) + Present(f(s[i]))
  {
    assert s[..i + 1] == s[..i] + [s[i]];
    FilterMapAppend(s[..i], [s[i]], f);
  }

  /** The pass never yields more than it is given, and everything it yields is a present result. */
  lemma {:induction false} FilterMapBounds<T, U>(s: seq<T>, f: T -> Option<U>)
    ensures |FilterMap(s, f)| <= |s|
    ensures forall y :: y in FilterMap(s, f) ==> exists x :: x in s && f(x) == Some(y)
  {
    if s != [] {
      FilterMapBounds(s[1..], f);
      forall y | y in FilterMap(s, f)
        ensures exists x :: x in s && f(x) == Some(y)
      {
        if y in FilterMap(s[1..], f) {
          var x :| x in s[1..] && f(x) == Some(y);
          assert x in s;
        } else {
          assert f(s[0]) == Some(y);
        }
      }
    }
  }

  /** Concatenation of a list of lists, in order ([...acc, ...page] over all pages). */
  function Flatten<T>(pages: seq<seq<T>>): (r: seq<T>)
  {
    if pages == [] then [] else Flatten(pages[..|pages| - 1]) + pages[|pages| - 1]
  }

  /** Sum of the page sizes. */
  function TotalLength<T>(pages: seq<seq<T>>): nat
  {
    if pages == [] then 0 else TotalLength(pages[..|pages| - 1]) + |pages[|pages| - 1]|
  }

  /** The flattening of two runs of pages is the concatenation of their flattenings (page order). */
  lemma {:induction false} FlattenAppend<T>(a: seq<seq<T>>, b: seq<seq<T>>)
    ensures Flatten(a + b) == Flatten(a) + Flatten(b)
  {
    if b == [] {
      assert a + b == a;
    } else {
      var front := b[..|b| - 1];
      var last := b[|b| - 1];
      FlattenAppend(a, front);
      calc {
        Flatten(a + b);
        { assert (a + b)[..|a + b| - 1] == a + front && (a + b)[|a + b| - 1] == last; }
        Flatten(a + front) + last;
        (Flatten(a) + Flatten(front)) + last;
        Flatten(a) + (Flatten(front) + last);
        Flatten(a) + Flatten(b);
      }
    }
  }

  /** Flattening keeps every element: the result is as long as all pages together. */
  lemma {:induction false} FlattenLength<T>(pages: seq<seq<T>>)
    ensures |Flatten(pages)| == TotalLength(pages)
  {
    if pages != [] {
      FlattenLength(pages[..|pages| - 1]);
    }
  }

  /** The outcome of one request: it failed (the fetch was rejected or the body was not JSON), or
      it loaded, with a `results` list or without one. */
  datatype Response<T> = Failed | Loaded(results: Option<seq<T>>)

  /** `data.results || []`. */
  function Payload<T>(r: Response<T>): seq<T>
  {
    if r.Loaded? && r.results.Some? then r.results.value else []
  }

  function Payloads<T>(pages: seq<Response<T>>): (r: seq<seq<T>>)
    ensures |r| == |pages|
    ensures forall k :: 0 <= k < |pages| ==> r[k] == Payload(pages[k])
  {
    seq(|pages|, k requires 0 <= k < |pages| => Payload(pages[k]))
  }
}
