/** `Array.prototype.map` and `Array.prototype.filter`, and how they interact with permutations. */
module Seqs {

  function Map<A, B>(f: A -> B, s: seq<A>): (r: seq<B>)
    ensures |r| == |s|
    ensures forall i :: 0 <= i < |s| ==> r[i] == f(s[i])
  {
    seq(|s|, i requires 0 <= i < |s| => f(s[i]))
  }

  /** The elements of `s` that satisfy `p`, in their original order. */
  function Filter<A>(p: A -> bool, s: seq<A>): (r: seq<A>)
    ensures |r| <= |s|
    ensures forall i :: 0 <= i < |r| ==> r[i] in s && p(r[i])
    ensures forall i :: 0 <= i < |s| && p(s[i]) ==> s[i] in r
    ensures multiset(r) <= multiset(s)
  {
    if s == [] then []
    else
      assert s == [s[0]] + s[1..];
      (if p(s[0]) then [s[0]] else []) + Filter(p, s[1..])
  }

  /** The number of elements of `s` that satisfy `p`. */
  function Count<A>(p: A -> bool, s: seq<A>): nat
  {
    |Filter(p, s)|
  }

  lemma MapAppend<A, B>(f: A -> B, s: seq<A>, t: seq<A>)
    ensures Map(f, s + t) == Map(f, s) + Map(f, t)
  {
  }

  lemma {:induction false} FilterAppend<A>(p: A -> bool, s: seq<A>, t: seq<A>)
    ensures Filter(p, s + t) == Filter(p, s) + Filter(p, t)
  {
    if s != [] {
      assert (s + t)[0] == s[0];
      assert (s + t)[1..] == s[1..] + t;
      FilterAppend(p, s[1..], t);
    } else {
      assert s + t == t;
    }
  }

  /** The last element of `s` sits at some index `k` of a permutation `t`; removing each leaves permutations. */
  lemma RemoveLast<A>(s: seq<A>, t: seq<A>) returns (k: nat)
    requires s != [] && multiset(s) == multiset(t)
    ensures k < |t| && t[k] == s[|s| - 1]
    ensures multiset(s[..|s| - 1]) == multiset(t[..k] + t[k + 1..])
  {
    var x, init := s[|s| - 1], s[..|s| - 1];
    assert s == init + [x];
    assert x in multiset(t);
    k :| 0 <= k < |t| && t[k] == x;
    var rest := t[..k] + t[k + 1..];
    assert t == t[..k] + [x] + t[k + 1..];
    assert multiset(rest) + multiset{x} == multiset(init) + multiset{x};
    assert multiset(rest) == multiset(init) by {
      forall y ensures multiset(rest)[y] == multiset(init)[y] {
        assert (multiset(rest) + multiset{x})[y] == (multiset(init) + multiset{x})[y];
      }
    }
  }

  /** Mapping two permutations of each other gives two permutations of each other. */
  lemma {:induction false} MapPermutation<A, B>(f: A -> B, s: seq<A>, t: seq<A>)
    requires multiset(s) == multiset(t)
    ensures multiset(Map(f, s)) == multiset(Map(f, t))
    decreases |s|
  {
    if s != [] {
      var x, init := s[|s| - 1], s[..|s| - 1];
      var k := RemoveLast(s, t);
      var rest := t[..k] + t[k + 1..];
      assert s == init + [x];
      assert t == t[..k] + [x] + t[k + 1..];
      MapPermutation(f, init, rest);
      MapAppend(f, init, [x]);
      MapAppend(f, t[..k], [x]);
      MapAppend(f, t[..k] + [x], t[k + 1..]);
      MapAppend(f, t[..k], t[k + 1..]);
    }
  }

  /** Filtering two permutations of each other keeps as many elements from each. */
  lemma {:induction false} CountPermutation<A>(p: A -> bool, s: seq<A>, t: seq<A>)
    requires multiset(s) == multiset(t)
    ensures Count(p, s) == Count(p, t)
    decreases |s|
  {
    if s != [] {
      var x, init := s[|s| - 1], s[..|s| - 1];
      var k := RemoveLast(s, t);
      var rest := t[..k] + t[k + 1..];
      assert s == init + [x];
      assert t == t[..k] + [x] + t[k + 1..];
      CountPermutation(p, init, rest);
      FilterAppend(p, init, [x]);
      FilterAppend(p, t[..k], [x]);
      FilterAppend(p, t[..k] + [x], t[k + 1..]);
      FilterAppend(p, t[..k], t[k + 1..]);
    }
  }

  /** Every element satisfies `p` or its complement `q`, never both: the two counts add up to the length. */
  lemma {:induction false} CountComplement<A>(p: A -> bool, q: A -> bool, s: seq<A>)
    requires forall x :: q(x) == !p(x)
    ensures Count(p, s) + Count(q, s) == |s|
  {
    if s != [] {
      CountComplement(p, q, s[1..]);
    }
  }

  /** Counting mapped elements by `p` is counting the originals by any `q` that agrees with `p` after `f`. */
  lemma {:induction false} CountMap<A, B>(p: B -> bool, f: A -> B, q: A -> bool, s: seq<A>)
    requires forall x :: p(f(x)) == q(x)
    ensures Count(p, Map(f, s)) == Count(q, s)
  {
    if s != [] {
      assert Map(f, s)[0] == f(s[0]);
      assert Map(f, s)[1..] == Map(f, s[1..]);
      CountMap(p, f, q, s[1..]);
    }
  }

  /** A filter that every element passes keeps the whole sequence. */
  lemma {:induction false} FilterAll<A>(p: A -> bool, s: seq<A>)
    requires forall i :: 0 <= i < |s| ==> p(s[i])
    ensures Filter(p, s) == s
  {
    if s != [] {
      FilterAll(p, s[1..]);
      assert s == [s[0]] + s[1..];
    }
  }

  /** A filter that no element passes keeps nothing. */
  lemma {:induction false} FilterNone<A>(p: A -> bool, s: seq<A>)
    requires forall i :: 0 <= i < |s| ==> !p(s[i])
    ensures Filter(p, s) == []
  {
    if s != [] {
      FilterNone(p, s[1..]);
    }
  }
}
