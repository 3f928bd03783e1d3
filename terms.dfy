/**
 Index terms and the order in which a block lists them.

 Python compares `str` values lexicographically by code point, a proper
 prefix coming first; `sorted` returns the ascending permutation of its input.
 */
module Terms {

  type Term = string

  /**
   Python's `a < b` on strings: the first differing character decides, and
   a proper prefix comes first (`LessPrefix`). No string is below itself.
   */
  function Less(a: Term, b: Term): (r: bool)
    ensures r ==> a != b
    decreases |a|
  {
    if |a| == 0 then |b| > 0
    else if |b| == 0 then false
    else if a[0] != b[0] then a[0] < b[0]
    else Less(a[1..], b[1..])
  }

  /** A proper prefix comes before the longer string. */
  lemma {:induction false} LessPrefix(a: Term, b: Term)
    requires |a| < |b| && a == b[..|a|]
    ensures Less(a, b)
    decreases |a|
  {
    if |a| > 0 {
      assert a[0] == b[0];
      assert a[1..] == b[1..][..|a| - 1];
      LessPrefix(a[1..], b[1..]);
    }
  }

  lemma {:induction false} LessAsymmetric(a: Term, b: Term)
    ensures Less(a, b) ==> !Less(b, a)
    decreases |a|
  {
    if |a| > 0 && |b| > 0 && a[0] == b[0] {
      LessAsymmetric(a[1..], b[1..]);
    }
  }

  lemma {:induction false} LessTransitive(a: Term, b: Term, c: Term)
    ensures Less(a, b) && Less(b, c) ==> Less(a, c)
    decreases |a|
  {
    if |a| > 0 && |b| > 0 && |c| > 0 && a[0] == b[0] == c[0] {
      LessTransitive(a[1..], b[1..], c[1..]);
    }
  }

  /** Any two different strings are ordered one way or the other. */
  lemma {:induction false} LessTotal(a: Term, b: Term)
    ensures a != b ==> Less(a, b) || Less(b, a)
    decreases |a|
  {
    if |a| > 0 && |b| > 0 && a[0] == b[0] {
      LessTotal(a[1..], b[1..]);
      if a[1..] == b[1..] {
        assert a == [a[0]] + a[1..] && b == [b[0]] + b[1..];
      }
    }
  }

  /** `b` is not below `a`: Python's `a <= b`. */
  predicate LessEq(a: Term, b: Term)
  {
    !Less(b, a)
  }

  lemma LessEqTransitive(a: Term, b: Term, c: Term)
    ensures LessEq(a, b) && LessEq(b, c) ==> LessEq(a, c)
  {
    LessTotal(a, b);
    LessTotal(b, c);
    LessTransitive(a, b, c);
    LessAsymmetric(a, c);
  }

  predicate Ascending(s: seq<Term>)
  {
    forall i, j :: 0 <= i < j < |s| ==> LessEq(s[i], s[j])
  }

  predicate StrictlyAscending(s: seq<Term>)
  {
    forall i, j :: 0 <= i < j < |s| ==> Less(s[i], s[j])
  }

  /** No term occurs twice. */
  predicate Distinct(s: seq<Term>)
  {
    forall i, j :: 0 <= i < j < |s| ==> s[i] != s[j]
  }

  /** Places `x` in front of the first element not below it. */
  function Insert(x: Term, s: seq<Term>): (r: seq<Term>)
    requires Ascending(s)
    ensures Ascending(r)
    ensures multiset(r) == multiset(s) + multiset{x}
  {
    if s == [] then [x]
    else if Less(s[0], x) then
      var rest := Insert(x, s[1..]);
      assert s == [s[0]] + s[1..];
      forall k | 0 <= k < |rest| ensures LessEq(s[0], rest[k]) {
        assert rest[k] in multiset(rest);
        if rest[k] == x {
          LessAsymmetric(s[0], x);
        } else {
          assert rest[k] in s[1..];
        }
      }
      [s[0]] + rest
    else
      forall k | 0 <= k < |s| ensures LessEq(x, s[k]) {
        LessEqTransitive(x, s[0], s[k]);
      }
      [x] + s
  }

  /** Python's `sorted` on a list of strings. */
  function Sort(s: seq<Term>): (r: seq<Term>)
    ensures Ascending(r)
    ensures multiset(r) == multiset(s)
  {
    if s == [] then []
    else
      assert s == [s[0]] + s[1..];
      Insert(s[0], Sort(s[1..]))
  }

  /** Two equal elements at different positions count twice in the multiset. */
  lemma {:induction false} RepeatedElement(s: seq<Term>, i: nat, j: nat)
    requires i < j < |s| && s[i] == s[j]
    ensures multiset(s)[s[i]] >= 2
  {
    assert s == s[..j] + s[j..];
    assert s[i] in s[..j];
    assert s[j] in s[j..];
  }

  lemma {:induction false} DistinctOnce(s: seq<Term>, x: Term)
    requires Distinct(s)
    ensures multiset(s)[x] <= 1
    decreases |s|
  {
    if s != [] {
      var init := s[..|s|-1];
      assert s == init + [s[|s|-1]];
      assert Distinct(init);
      DistinctOnce(init, x);
      if x == s[|s|-1] {
        assert x !in init;
      }
    }
  }

  /** Sorting a list without repetitions yields a strictly ascending list of the same terms. */
  lemma SortDistinct(s: seq<Term>)
    requires Distinct(s)
    ensures StrictlyAscending(Sort(s))
    ensures Distinct(Sort(s))
    ensures |Sort(s)| == |s|
    ensures forall t :: t in Sort(s) <==> t in s
  {
    var r := Sort(s);
    assert |r| == |multiset(r)| == |multiset(s)| == |s|;
    forall t ensures t in r <==> t in s {
      assert t in r <==> t in multiset(r);
    }
    forall i, j | 0 <= i < j < |r| ensures Less(r[i], r[j]) {
      if r[i] == r[j] {
        RepeatedElement(r, i, j);
        DistinctOnce(s, r[i]);
      }
      LessTotal(r[i], r[j]);
    }
  }
}
