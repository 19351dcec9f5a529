/** Generic sequence helpers: a filter-and-transform pass (the shape of a
    Python list comprehension with an `if`) and a sum of reals, with the
    facts about concatenation and permutation the rest of the model uses. */
module Seqs {
  import opened Wrappers

  /** Keeps, in order, the images of the elements that `f` maps to `Some`. */
  function FilterMap<A, B>(f: A -> Option<B>, s: seq<A>): (r: seq<B>)
    ensures |r| <= |s|
  {
    if |s| == 0 then []
    else
      match f(s[0])
      case Some(b) => [b] + FilterMap(f, s[1..])
      case None => FilterMap(f, s[1..])
  }

  /** Filtering distributes over concatenation: the output keeps input order. */
  lemma {:induction false} FilterMapConcat<A, B>(f: A -> Option<B>, a: seq<A>, b: seq<A>)
    ensures FilterMap(f, a + b) == FilterMap(f, a) + FilterMap(f, b)
  {
    if |a| == 0 {
      assert a + b == b;
    } else {
      assert (a + b)[0] == a[0];
      assert (a + b)[1..] == a[1..] + b;
      FilterMapConcat(f, a[1..], b);
    }
  }

  /** A prefix one longer is the prefix followed by the next element. */
  lemma TakeNext<A>(s: seq<A>, i: nat)
    requires i < |s|
    ensures s[..i + 1] == s[..i] + [s[i]]
  {
  }

  /** Two non-empty sequences with the same head and the same tail are equal. */
  lemma SameHeadTail<A>(a: seq<A>, b: seq<A>)
    requires |a| > 0 && |b| > 0 && a[0] == b[0] && a[1..] == b[1..]
    ensures a == b
  {
    assert a == [a[0]] + a[1..];
    assert b == [b[0]] + b[1..];
  }

  /** Removing the head of both of two permutations with equal heads leaves
      permutations. */
  lemma TailPermutation<A>(a: seq<A>, b: seq<A>)
    requires multiset(a) == multiset(b) && |a| > 0 && |b| > 0 && a[0] == b[0]
    ensures multiset(a[1..]) == multiset(b[1..])
  {
    RemoveFront(a, b, 0);
    assert b[..0] + b[1..] == b[1..];
  }

  /** Filtering one more element appends its image, if any. */
  lemma FilterMapSnoc<A, B>(f: A -> Option<B>, s: seq<A>, x: A)
    ensures FilterMap(f, s + [x]) == FilterMap(f, s) + (if f(x).Some? then [f(x).value] else [])
  {
    FilterMapConcat(f, s, [x]);
    assert [x][1..] == [];
  }

  /** Filtering a prefix one element longer appends that element's image, if any. */
  lemma FilterMapTakeNext<A, B>(f: A -> Option<B>, s: seq<A>, i: nat)
    requires i < |s|
    ensures FilterMap(f, s[..i + 1]) == FilterMap(f, s[..i]) + (if f(s[i]).Some? then [f(s[i]).value] else [])
  {
    TakeNext(s, i);
    FilterMapSnoc(f, s[..i], s[i]);
  }

  /** An output value is present exactly when some input element maps to it. */
  lemma {:induction false} FilterMapMembership<A, B>(f: A -> Option<B>, s: seq<A>, y: B)
    ensures y in FilterMap(f, s) <==> exists i :: 0 <= i < |s| && f(s[i]) == Some(y)
  {
    if |s| > 0 {
      FilterMapMembership(f, s[1..], y);
      if y in FilterMap(f, s[1..]) {
        var i :| 0 <= i < |s[1..]| && f(s[1..][i]) == Some(y);
        assert f(s[i + 1]) == Some(y);
      }
      if exists i :: 0 <= i < |s| && f(s[i]) == Some(y) {
        var i :| 0 <= i < |s| && f(s[i]) == Some(y);
        if i > 0 {
          assert f(s[1..][i - 1]) == Some(y);
        }
      }
    }
  }

  /** Every output element is the image of some input element. */
  lemma FilterMapOrigins<A, B>(f: A -> Option<B>, s: seq<A>)
    ensures forall k :: 0 <= k < |FilterMap(f, s)| ==>
      exists i :: 0 <= i < |s| && f(s[i]) == Some(FilterMap(f, s)[k])
  {
    var r := FilterMap(f, s);
    forall k | 0 <= k < |r|
      ensures exists i :: 0 <= i < |s| && f(s[i]) == Some(r[k])
    {
      FilterMapMembership(f, s, r[k]);
      assert r[k] in r;
    }
  }

  /** The output is empty exactly when no element is kept. */
  lemma {:induction false} FilterMapEmpty<A, B>(f: A -> Option<B>, s: seq<A>)
    ensures FilterMap(f, s) == [] <==> forall i :: 0 <= i < |s| ==> f(s[i]).None?
  {
    if |s| > 0 {
      FilterMapEmpty(f, s[1..]);
      assert forall i :: 0 < i < |s| ==> s[i] == s[1..][i - 1];
    }
  }

  /** A pass that keeps every element unchanged is the identity. */
  lemma {:induction false} FilterMapIdentity<A>(f: A -> Option<A>, s: seq<A>)
    requires forall i :: 0 <= i < |s| ==> f(s[i]) == Some(s[i])
    ensures FilterMap(f, s) == s
  {
    if |s| > 0 {
      assert forall i :: 0 <= i < |s[1..]| ==> s[1..][i] == s[i + 1];
      FilterMapIdentity(f, s[1..]);
    }
  }

  /** Taking the same element out of two permutations of each other, at the
      front of one and at index `j` of the other, leaves permutations. */
  lemma RemoveFront<A>(a: seq<A>, b: seq<A>, j: nat)
    requires multiset(a) == multiset(b)
    requires |a| > 0 && j < |b| && b[j] == a[0]
    ensures b == b[..j] + [a[0]] + b[j + 1..]
    ensures multiset(a[1..]) == multiset(b[..j] + b[j + 1..])
  {
    var x := a[0];
    assert a == [x] + a[1..];
    assert b == b[..j] + [x] + b[j + 1..];
    calc {
      multiset(a[1..]);
      multiset(a) - multiset{x};
      multiset(b) - multiset{x};
      multiset(b[..j]) + multiset(b[j + 1..]);
      multiset(b[..j] + b[j + 1..]);
    }
  }

  /** The multiset of outputs depends only on the multiset of inputs. */
  lemma {:induction false} FilterMapPermutation<A, B>(f: A -> Option<B>, a: seq<A>, b: seq<A>)
    requires multiset(a) == multiset(b)
    ensures multiset(FilterMap(f, a)) == multiset(FilterMap(f, b))
    decreases |a|
  {
    if |a| == 0 {
      assert |b| == |multiset(b)| == 0;
    } else {
      var x := a[0];
      assert x in multiset(b);
      var j :| 0 <= j < |b| && b[j] == x;
      RemoveFront(a, b, j);
      var rest := b[..j] + b[j + 1..];
      FilterMapPermutation(f, a[1..], rest);
      FilterMapConcat(f, b[..j], b[j + 1..]);
      FilterMapConcat(f, b[..j] + [x], b[j + 1..]);
      FilterMapConcat(f, b[..j], [x]);
      FilterMapConcat(f, [x], a[1..]);
    }
  }

  /** The sum of a sequence of reals, zero for the empty sequence. */
  function Sum(s: seq<real>): real
  {
    if |s| == 0 then 0.0 else s[0] + Sum(s[1..])
  }

  lemma {:induction false} SumConcat(a: seq<real>, b: seq<real>)
    ensures Sum(a + b) == Sum(a) + Sum(b)
  {
    if |a| == 0 {
      assert a + b == b;
    } else {
      assert (a + b)[1..] == a[1..] + b;
      SumConcat(a[1..], b);
    }
  }

  /** Over exact arithmetic a sum does not depend on the order of its terms. */
  lemma {:induction false} SumPermutation(a: seq<real>, b: seq<real>)
    requires multiset(a) == multiset(b)
    ensures Sum(a) == Sum(b)
    decreases |a|
  {
    if |a| == 0 {
      assert |b| == |multiset(b)| == 0;
    } else {
      var x := a[0];
      assert x in multiset(b);
      var j :| 0 <= j < |b| && b[j] == x;
      RemoveFront(a, b, j);
      var rest := b[..j] + b[j + 1..];
      SumPermutation(a[1..], rest);
      SumConcat(b[..j], b[j + 1..]);
      SumConcat(b[..j] + [x], b[j + 1..]);
      SumConcat(b[..j], [x]);
    }
  }

  /** A sum of terms that each lie in [lo, hi] lies in [n*lo, n*hi]. */
  lemma {:induction false} SumBounds(s: seq<real>, lo: real, hi: real)
    requires forall i :: 0 <= i < |s| ==> lo <= s[i] <= hi
    ensures |s| as real * lo <= Sum(s) <= |s| as real * hi
  {
    if |s| > 0 {
      assert forall i :: 0 <= i < |s[1..]| ==> s[1..][i] == s[i + 1];
      SumBounds(s[1..], lo, hi);
      var m := |s[1..]| as real;
      var rest := Sum(s[1..]);
      assert m * lo <= rest <= m * hi;
      assert Sum(s) == s[0] + rest;
      assert lo <= s[0] <= hi;
      assert |s| as real == m + 1.0;
      assert (m + 1.0) * lo == m * lo + lo;
      assert (m + 1.0) * hi == m * hi + hi;
    }
  }
}
