/**
 * Sequence helpers shared by the pipeline stages: order-preserving filters
 * (Python list comprehensions with an `if`), subsequences,
 * first-occurrence de-duplication and `str.join`.
 */
module Seqs {

  /** The elements of `s` that satisfy `p`, in their original order. */
  function Filter<T>(p: T -> bool, s: seq<T>): (r: seq<T>)
    ensures |r| <= |s|
    ensures forall k :: 0 <= k < |r| ==> p(r[k])
  {
    if s == [] then []
    else Filter(p, s[..|s| - 1]) + (if p(s[|s| - 1]) then [s[|s| - 1]] else [])
  }

  /** `a` is `b` with some elements deleted (the order of the survivors is kept). */
  predicate IsSubseq<T(==)>(a: seq<T>, b: seq<T>)
    decreases |b|
  {
    a == [] ||
    (b != [] &&
     ((a[|a| - 1] == b[|b| - 1] && IsSubseq(a[..|a| - 1], b[..|b| - 1])) ||
      IsSubseq(a, b[..|b| - 1])))
  }

  /** A subsequence of a subsequence of `c` is a subsequence of `c`. */
  lemma {:induction false} SubseqTrans<T>(a: seq<T>, b: seq<T>, c: seq<T>)
    requires IsSubseq(a, b) && IsSubseq(b, c)
    ensures IsSubseq(a, c)
    decreases |c|
  {
    if a != [] {
      var a', b', c' := a[..|a| - 1], b[..|b| - 1], c[..|c| - 1];
      if IsSubseq(b, c') {
        SubseqTrans(a, b, c');
      } else if a[|a| - 1] == b[|b| - 1] && IsSubseq(a', b') {
        SubseqTrans(a', b', c');
      } else {
        SubseqTrans(a, b', c');
      }
    }
  }

  /** A subsequence has no element its sequence lacks. */
  lemma {:induction false} SubseqMember<T>(a: seq<T>, b: seq<T>, x: T)
    requires IsSubseq(a, b) && x in a
    ensures x in b
    decreases |b|
  {
    var a', b' := a[..|a| - 1], b[..|b| - 1];
    assert a == a' + [a[|a| - 1]] && b == b' + [b[|b| - 1]];
    if a[|a| - 1] == b[|b| - 1] && IsSubseq(a', b') {
      if x != a[|a| - 1] {
        SubseqMember(a', b', x);
      }
    } else {
      SubseqMember(a, b', x);
    }
  }

  lemma {:induction false} FilterAppend<T>(p: T -> bool, a: seq<T>, b: seq<T>)
    ensures Filter(p, a + b) == Filter(p, a) + Filter(p, b)
    decreases |b|
  {
    if b == [] {
      assert a + b == a;
    } else {
      var b' := b[..|b| - 1];
      assert (a + b)[..|a + b| - 1] == a + b';
      FilterAppend(p, a, b');
    }
  }

  /** An element survives the filter exactly when it is in `s` and satisfies `p`. */
  lemma {:induction false} FilterMember<T>(p: T -> bool, s: seq<T>, x: T)
    ensures x in Filter(p, s) <==> x in s && p(x)
    decreases |s|
  {
    if s != [] {
      var s' := s[..|s| - 1];
      FilterMember(p, s', x);
      assert s == s' + [s[|s| - 1]];
    }
  }

  /** The filter keeps the original order: its result is a subsequence of its input. */
  lemma {:induction false} FilterIsSubseq<T>(p: T -> bool, s: seq<T>)
    ensures IsSubseq(Filter(p, s), s)
    decreases |s|
  {
    if s != [] {
      var s' := s[..|s| - 1];
      FilterIsSubseq(p, s');
      var r := Filter(p, s);
      assert s[..|s| - 1] == s';
      if p(s[|s| - 1]) {
        assert r == Filter(p, s') + [s[|s| - 1]];
        assert r[..|r| - 1] == Filter(p, s');
      } else {
        assert r == Filter(p, s');
      }
    }
  }

  /** The elements of `s` in order of first occurrence, each once. */
  function Dedup<T(==, !new)>(s: seq<T>): (r: seq<T>)
    ensures forall i, j :: 0 <= i < j < |r| ==> r[i] != r[j]
    ensures forall x :: x in r <==> x in s
  {
    if s == [] then []
    else
      var d := Dedup(s[..|s| - 1]);
      if s[|s| - 1] in d then d else d + [s[|s| - 1]]
  }

  /** De-duplication keeps the order of first occurrences. */
  lemma {:induction false} DedupIsSubseq<T(!new)>(s: seq<T>)
    ensures IsSubseq(Dedup(s), s)
    decreases |s|
  {
    if s != [] {
      var s' := s[..|s| - 1];
      DedupIsSubseq(s');
      var d := Dedup(s);
      if s[|s| - 1] !in Dedup(s') {
        assert d[..|d| - 1] == Dedup(s');
      }
    }
  }

  /** `t` occurs in `s` as a contiguous block. */
  ghost predicate IsInfix<T>(t: seq<T>, s: seq<T>)
  {
    exists i :: InfixAt(t, s, i)
  }

  /** `t` occurs in `s` starting at index `i`. */
  ghost predicate InfixAt<T>(t: seq<T>, s: seq<T>, i: int)
  {
    0 <= i <= |s| - |t| && s[i..i + |t|] == t
  }

  /** A block of `m` is also a block of `a + m + c`. */
  lemma InfixAround<T>(t: seq<T>, a: seq<T>, m: seq<T>, c: seq<T>)
    requires IsInfix(t, m)
    ensures IsInfix(t, a + m + c)
  {
    var i :| InfixAt(t, m, i);
    assert (a + m + c)[|a| + i..|a| + i + |t|] == m[i..i + |t|];
    assert InfixAt(t, a + m + c, |a| + i);
  }

  lemma InfixSelf<T>(t: seq<T>)
    ensures IsInfix(t, t)
  {
    assert t[0..|t|] == t;
    assert InfixAt(t, t, 0);
  }

  lemma InfixExtend<T>(t: seq<T>, a: seq<T>, b: seq<T>)
    ensures IsInfix(t, a) ==> IsInfix(t, a + b)
    ensures IsInfix(t, b) ==> IsInfix(t, a + b)
  {
    if IsInfix(t, a) {
      var i :| InfixAt(t, a, i);
      assert (a + b)[i..i + |t|] == t;
      assert InfixAt(t, a + b, i);
    }
    if IsInfix(t, b) {
      var i :| InfixAt(t, b, i);
      assert (a + b)[|a| + i..|a| + i + |t|] == t;
      assert InfixAt(t, a + b, |a| + i);
    }
  }

  /** Python's `sep.join(parts)`. */
  function Join<T>(sep: seq<T>, parts: seq<seq<T>>): seq<T>
  {
    if parts == [] then []
    else if |parts| == 1 then parts[0]
    else Join(sep, parts[..|parts| - 1]) + sep + parts[|parts| - 1]
  }

  /** Every part is embedded, unbroken, in the joined text. */
  lemma {:induction false} JoinContains<T>(sep: seq<T>, parts: seq<seq<T>>, k: nat)
    requires k < |parts|
    ensures IsInfix(parts[k], Join(sep, parts))
    decreases |parts|
  {
    if |parts| == 1 {
      assert Join(sep, parts)[0..|parts[k]|] == parts[k];
      assert InfixAt(parts[k], Join(sep, parts), 0);
    } else {
      var init := parts[..|parts| - 1];
      if k < |parts| - 1 {
        JoinContains(sep, init, k);
        InfixExtend(parts[k], Join(sep, init), sep + parts[|parts| - 1]);
        assert Join(sep, init) + (sep + parts[|parts| - 1]) == Join(sep, parts);
      } else {
        assert parts[k][0..|parts[k]|] == parts[k];
        assert InfixAt(parts[k], parts[k], 0);
        InfixExtend(parts[k], Join(sep, init) + sep, parts[k]);
      }
    }
  }
}
