/** Sequence combinators. Each is defined on the LAST element of its input, so
    that a loop that has handled s[..i] extends the result by the i-th element. */
module Seqs {

  /** The concatenation of f(x) for every x of s, in order: the list that a
      `foreach` loop calling `Add` for each produced element builds. */
  function Flatten<T, U>(s: seq<T>, f: T -> seq<U>): seq<U>
  {
    if s == [] then [] else Flatten(s[..|s| - 1], f) + f(s[|s| - 1])
  }

  /** The elements of s for which p holds, in order: no more than s holds,
      each of them an element of s for which p holds. */
  function Filter<T>(s: seq<T>, p: T -> bool): (r: seq<T>)
    ensures |r| <= |s|
    ensures forall k :: 0 <= k < |r| ==> p(r[k]) && r[k] in s
  {
    if s == [] then []
    else Filter(s[..|s| - 1], p) + (if p(s[|s| - 1]) then [s[|s| - 1]] else [])
  }

  /** a can be obtained from b by deleting elements. */
  ghost predicate IsSubsequence<T>(a: seq<T>, b: seq<T>)
  {
    a == [] ||
    (b != [] &&
     ((a[|a| - 1] == b[|b| - 1] && IsSubsequence(a[..|a| - 1], b[..|b| - 1])) ||
      IsSubsequence(a, b[..|b| - 1])))
  }

  /** One more loop iteration: handling s[i] extends the flattened prefix by f(s[i]). */
  lemma FlattenSnoc<T, U>(s: seq<T>, i: nat, f: T -> seq<U>)
    requires i < |s|
    ensures Flatten(s[..i + 1], f) == Flatten(s[..i], f) + f(s[i])
  {
    assert s[..i + 1][..i] == s[..i];
  }

  /** Appending f(s[i]) to acc + Flatten(s[..i], f) gives acc + Flatten(s[..i + 1], f). */
  lemma FlattenExtend<T, U>(acc: seq<U>, s: seq<T>, i: nat, f: T -> seq<U>)
    requires i < |s|
    ensures acc + Flatten(s[..i], f) + f(s[i]) == acc + Flatten(s[..i + 1], f)
  {
    FlattenSnoc(s, i, f);
  }

  /** One more loop iteration of a filter. */
  lemma FilterSnoc<T>(s: seq<T>, i: nat, p: T -> bool)
    requires i < |s|
    ensures Filter(s[..i + 1], p) == Filter(s[..i], p) + (if p(s[i]) then [s[i]] else [])
  {
    assert s[..i + 1][..i] == s[..i];
  }

  lemma {:induction false} FlattenAppend<T, U>(a: seq<T>, b: seq<T>, f: T -> seq<U>)
    ensures Flatten(a + b, f) == Flatten(a, f) + Flatten(b, f)
    decreases |b|
  {
    if b == [] {
      assert a + b == a;
    } else {
      var b' := b[..|b| - 1];
      assert (a + b)[..|a + b| - 1] == a + b';
      FlattenAppend(a, b', f);
    }
  }

  /** An element of Flatten(s, f) comes from f applied to some element of s, and
      every element so produced is there. */
  lemma {:induction false} FlattenMember<T, U>(s: seq<T>, f: T -> seq<U>, u: U)
    ensures u in Flatten(s, f) <==> exists k :: 0 <= k < |s| && u in f(s[k])
  {
    if s != [] {
      var s' := s[..|s| - 1];
      FlattenMember(s', f, u);
      if u in Flatten(s', f) {
        var k :| 0 <= k < |s'| && u in f(s'[k]);
        assert s[k] == s'[k];
      }
      if exists k :: 0 <= k < |s| && u in f(s[k]) {
        var k :| 0 <= k < |s| && u in f(s[k]);
        if k < |s'| {
          assert s'[k] == s[k];
        }
      }
    }
  }

  /** When every element produces exactly one value, Flatten is a map. */
  lemma {:induction false} FlattenSingletons<T, U>(s: seq<T>, f: T -> seq<U>, g: T -> U)
    requires forall x :: f(x) == [g(x)]
    ensures |Flatten(s, f)| == |s|
    ensures forall k :: 0 <= k < |s| ==> Flatten(s, f)[k] == g(s[k])
  {
    if s != [] {
      var s' := s[..|s| - 1];
      FlattenSingletons(s', f, g);
      assert forall k :: 0 <= k < |s'| ==> s[k] == s'[k];
    }
  }

  /** Elements that fail p and produce nothing can be dropped beforehand. */
  lemma {:induction false} FlattenSkipsEmpty<T, U>(s: seq<T>, f: T -> seq<U>, p: T -> bool)
    requires forall x :: !p(x) ==> f(x) == []
    ensures Flatten(s, f) == Flatten(Filter(s, p), f)
  {
    if s != [] {
      var s' := s[..|s| - 1];
      var x := s[|s| - 1];
      FlattenSkipsEmpty(s', f, p);
      FilterSnoc(s, |s| - 1, p);
      assert s[..|s| - 1] == s' && s[..|s|] == s;
      if p(x) {
        FlattenAppend(Filter(s', p), [x], f);
        assert [x][..0] == [];
        assert Flatten([x], f) == f(x);
      } else {
        assert Filter(s, p) == Filter(s', p);
        FlattenSnoc(s, |s| - 1, f);
      }
    }
  }

  /** Filter keeps each value exactly as often as s holds it, when p holds of it. */
  lemma {:induction false} FilterMultiplicity<T>(s: seq<T>, p: T -> bool, x: T)
    ensures multiset(Filter(s, p))[x] == if p(x) then multiset(s)[x] else 0
  {
    if s != [] {
      var s' := s[..|s| - 1];
      FilterMultiplicity(s', p, x);
      assert s == s' + [s[|s| - 1]];
    }
  }

  lemma FilterMember<T>(s: seq<T>, p: T -> bool, x: T)
    ensures x in Filter(s, p) <==> x in s && p(x)
  {
    FilterMultiplicity(s, p, x);
    assert x in Filter(s, p) <==> multiset(Filter(s, p))[x] > 0;
    assert x in s <==> multiset(s)[x] > 0;
  }

  /** Filter keeps the relative order of what it keeps. */
  lemma {:induction false} FilterIsSubsequence<T>(s: seq<T>, p: T -> bool)
    ensures IsSubsequence(Filter(s, p), s)
  {
    if s != [] {
      var s' := s[..|s| - 1];
      FilterIsSubsequence(s', p);
      var x := s[|s| - 1];
      var r := Filter(s, p);
      if p(x) {
        assert r == Filter(s', p) + [x];
        assert r[..|r| - 1] == Filter(s', p);
      } else {
        assert r == Filter(s', p);
        assert IsSubsequence(r, s[..|s| - 1]);
      }
    }
  }
}
