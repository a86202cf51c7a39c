/**
 * Order-preserving filters over sequences, and the facts every snapshot of the
 * airdrop tool relies on when it pushes each holder into exactly one of several
 * result arrays.
 */
module Lists {

  /** `s.filter(p)`: the elements of `s` satisfying `p`, in their original order. */
  function Filter<T>(s: seq<T>, p: T -> bool): (r: seq<T>)
    ensures |r| <= |s|
  {
    if s == [] then []
    else (if p(s[0]) then [s[0]] else []) + Filter(s[1..], p)
  }

  /** What a filter keeps is exactly the members of `s` that satisfy `p`. */
  lemma {:induction false} FilterMembers<T>(s: seq<T>, p: T -> bool)
    ensures forall x :: x in Filter(s, p) <==> x in s && p(x)
  {
    if s != [] {
      FilterMembers(s[1..], p);
      assert s == [s[0]] + s[1..];
    }
  }

  /** Filtering distributes over concatenation: pushing in order is the same as filtering the whole. */
  lemma {:induction false} FilterAppend<T>(a: seq<T>, b: seq<T>, p: T -> bool)
    ensures Filter(a + b, p) == Filter(a, p) + Filter(b, p)
  {
    if a == [] {
      assert a + b == b;
    } else {
      var ab := a + b;
      assert ab[0] == a[0] && ab[1..] == a[1..] + b;
      FilterAppend(a[1..], b, p);
      var h := if p(a[0]) then [a[0]] else [];
      calc {
        Filter(ab, p);
        h + Filter(a[1..] + b, p);
        h + (Filter(a[1..], p) + Filter(b, p));
        (h + Filter(a[1..], p)) + Filter(b, p);
      }
    }
  }

  /** Pushing one element: it lands at the end of the filter when it satisfies `p`. */
  lemma FilterSnoc<T>(a: seq<T>, x: T, p: T -> bool)
    ensures Filter(a + [x], p) == if p(x) then Filter(a, p) + [x] else Filter(a, p)
  {
    FilterAppend(a, [x], p);
  }

  /** `x` satisfies exactly one of the three predicates. */
  predicate ExactlyOne<T>(x: T, a: T -> bool, b: T -> bool, c: T -> bool) {
    if a(x) then !b(x) && !c(x) else if b(x) then !c(x) else c(x)
  }

  lemma FilterKeepsHead<T>(s: seq<T>, p: T -> bool)
    requires s != [] && p(s[0])
    ensures multiset(Filter(s, p)) == multiset{s[0]} + multiset(Filter(s[1..], p))
  {
    assert Filter(s, p) == [s[0]] + Filter(s[1..], p);
  }

  /**
   * A three-way split where every element satisfies exactly one of the predicates
   * loses and duplicates nothing: the three lists together are a permutation of `s`.
   */
  lemma {:induction false} ThreeWaySplit<T>(s: seq<T>, a: T -> bool, b: T -> bool, c: T -> bool)
    requires forall i :: 0 <= i < |s| ==> ExactlyOne(s[i], a, b, c)
    ensures multiset(Filter(s, a)) + multiset(Filter(s, b)) + multiset(Filter(s, c)) == multiset(s)
    ensures |Filter(s, a)| + |Filter(s, b)| + |Filter(s, c)| == |s|
  {
    var notA := (x: T) => !a(x);
    var split := (x: T) => b(x) != c(x);
    TwoWaySplit(s, a, notA);
    FilterAll(s, notA, split);
    var rest := Filter(s, notA);
    assert forall i :: 0 <= i < |rest| ==> b(rest[i]) != c(rest[i]) by {
      forall i | 0 <= i < |rest| ensures b(rest[i]) != c(rest[i]) { assert split(rest[i]); }
    }
    TwoWaySplit(rest, b, c);
    FilterNarrow(s, notA, b);
    FilterNarrow(s, notA, c);
    var ma, mb, mc := multiset(Filter(s, a)), multiset(Filter(s, b)), multiset(Filter(s, c));
    assert ma + (mb + mc) == multiset(s);
    assert ma + mb + mc == ma + (mb + mc);
    ThreeWayLength(s, a, b, c);
  }

  lemma {:induction false} ThreeWayLength<T>(s: seq<T>, a: T -> bool, b: T -> bool, c: T -> bool)
    requires forall i :: 0 <= i < |s| ==> ExactlyOne(s[i], a, b, c)
    ensures |Filter(s, a)| + |Filter(s, b)| + |Filter(s, c)| == |s|
  {
    if s != [] {
      assert forall i :: 0 <= i < |s[1..]| ==> s[1..][i] == s[i + 1];
      ThreeWayLength(s[1..], a, b, c);
      assert ExactlyOne(s[0], a, b, c);
    }
  }

  /** Every element a filter by `p` keeps satisfies `q` when `p` implies `q` on `s`. */
  lemma {:induction false} FilterAll<T>(s: seq<T>, p: T -> bool, q: T -> bool)
    requires forall i :: 0 <= i < |s| ==> p(s[i]) ==> q(s[i])
    ensures forall i :: 0 <= i < |Filter(s, p)| ==> q(Filter(s, p)[i])
  {
    if s != [] {
      assert forall i :: 0 <= i < |s[1..]| ==> s[1..][i] == s[i + 1];
      FilterAll(s[1..], p, q);
      var h: seq<T> := if p(s[0]) then [s[0]] else [];
      assert Filter(s, p) == h + Filter(s[1..], p);
      forall i | 0 <= i < |Filter(s, p)| ensures q(Filter(s, p)[i]) {
        if i < |h| {
          assert Filter(s, p)[i] == s[0];
        } else {
          assert Filter(s, p)[i] == Filter(s[1..], p)[i - |h|];
        }
      }
    }
  }

  /** Filtering by `q` after `p` is filtering by `q` alone, when `q` implies `p`. */
  lemma {:induction false} FilterNarrow<T>(s: seq<T>, p: T -> bool, q: T -> bool)
    requires forall i :: 0 <= i < |s| ==> q(s[i]) ==> p(s[i])
    ensures Filter(Filter(s, p), q) == Filter(s, q)
  {
    if s != [] {
      assert forall i :: 0 <= i < |s[1..]| ==> s[1..][i] == s[i + 1];
      FilterNarrow(s[1..], p, q);
      if p(s[0]) {
        assert Filter(s, p) == [s[0]] + Filter(s[1..], p);
        assert Filter(s, p)[1..] == Filter(s[1..], p);
      } else {
        assert Filter(s, p) == Filter(s[1..], p);
      }
    }
  }

  /** Two filters with exclusive predicates never share an element. */
  lemma FiltersDisjoint<T>(s: seq<T>, a: T -> bool, b: T -> bool)
    requires forall i :: 0 <= i < |s| ==> !(a(s[i]) && b(s[i]))
    ensures forall x :: x in Filter(s, a) ==> x !in Filter(s, b)
  {
    FilterMembers(s, a);
    FilterMembers(s, b);
  }

  /** Two exclusive predicates, one of which every element satisfies, split `s`'s length between them. */
  lemma {:induction false} TwoWayCount<T>(s: seq<T>, a: T -> bool, b: T -> bool)
    requires forall i :: 0 <= i < |s| ==> a(s[i]) != b(s[i])
    ensures |Filter(s, a)| + |Filter(s, b)| == |s|
  {
    if s != [] {
      assert forall i :: 0 <= i < |s[1..]| ==> s[1..][i] == s[i + 1];
      TwoWayCount(s[1..], a, b);
    }
  }

  /** The same split as a permutation: the two filters together hold exactly the elements of `s`. */
  lemma {:induction false} TwoWaySplit<T>(s: seq<T>, a: T -> bool, b: T -> bool)
    requires forall i :: 0 <= i < |s| ==> a(s[i]) != b(s[i])
    ensures multiset(Filter(s, a)) + multiset(Filter(s, b)) == multiset(s)
  {
    if s != [] {
      var t := s[1..];
      assert forall i :: 0 <= i < |t| ==> t[i] == s[i + 1];
      TwoWaySplit(t, a, b);
      assert s == [s[0]] + t;
      assert multiset(s) == multiset{s[0]} + multiset(t);
      if a(s[0]) {
        FilterKeepsHead(s, a);
      } else {
        FilterKeepsHead(s, b);
      }
    }
  }

  /** When `p` holds exactly where one of the exclusive `q`, `r` holds, its count is the sum of theirs. */
  lemma {:induction false} RefinedCount<T>(s: seq<T>, p: T -> bool, q: T -> bool, r: T -> bool)
    requires forall i :: 0 <= i < |s| ==> (p(s[i]) <==> q(s[i]) || r(s[i])) && !(q(s[i]) && r(s[i]))
    ensures |Filter(s, p)| == |Filter(s, q)| + |Filter(s, r)|
  {
    if s != [] {
      assert forall i :: 0 <= i < |s[1..]| ==> s[1..][i] == s[i + 1];
      RefinedCount(s[1..], p, q, r);
    }
  }

  /** Predicates that agree on every element of `s` filter it alike. */
  lemma {:induction false} FilterCongruent<T>(s: seq<T>, p: T -> bool, q: T -> bool)
    requires forall i :: 0 <= i < |s| ==> p(s[i]) == q(s[i])
    ensures Filter(s, p) == Filter(s, q)
  {
    if s != [] {
      assert forall i :: 0 <= i < |s[1..]| ==> s[1..][i] == s[i + 1];
      FilterCongruent(s[1..], p, q);
    }
  }

  /** The head of a filter is the first element satisfying the predicate. */
  lemma {:induction false} FirstFiltered<T>(s: seq<T>, p: T -> bool)
    ensures |Filter(s, p)| > 0 <==> exists i :: 0 <= i < |s| && p(s[i])
    ensures |Filter(s, p)| > 0 ==> exists i :: 0 <= i < |s| && p(s[i]) && (forall j :: 0 <= j < i ==> !p(s[j]))
                                               && Filter(s, p)[0] == s[i]
  {
    if s != [] {
      FirstFiltered(s[1..], p);
      if !p(s[0]) && |Filter(s[1..], p)| > 0 {
        var i :| 0 <= i < |s[1..]| && p(s[1..][i]) && (forall j :: 0 <= j < i ==> !p(s[1..][j])) && Filter(s[1..], p)[0] == s[1..][i];
        assert p(s[i + 1]) && forall j :: 0 <= j < i + 1 ==> !p(s[j]);
      }
      if exists i :: 0 <= i < |s| && p(s[i]) {
        var i :| 0 <= i < |s| && p(s[i]);
        if i > 0 && !p(s[0]) {
          assert p(s[1..][i - 1]);
        }
      }
    }
  }
}
