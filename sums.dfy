/** Sums of decimals over a sequence, and the fact that a sum does not
    depend on the order in which its terms are taken. Java's `HashSet`
    hands out its elements in an order the language leaves unspecified;
    these lemmas are what make a result computed along that order a
    function of the set alone. */
module DecimalSums {
  import opened Decimals

  /** A left fold of `BigDecimal.add` starting from `BigDecimal.ZERO`,
      adding `f(x)` for every `x` of `s` in turn. */
  function SumBy<T>(s: seq<T>, f: T -> Decimal): (r: Decimal)
    ensures Value(r) == ValueSum(s, f)
  {
    if |s| == 0 then Zero else Add(SumBy(s[..|s| - 1], f), f(s[|s| - 1]))
  }

  /** The same sum taken over the numbers the terms denote. */
  ghost function ValueSum<T>(s: seq<T>, f: T -> Decimal): real
  {
    if |s| == 0 then 0.0 else ValueSum(s[..|s| - 1], f) + Value(f(s[|s| - 1]))
  }

  lemma {:induction false} SumByConcat<T>(a: seq<T>, b: seq<T>, f: T -> Decimal)
    ensures SumBy(a + b, f) == Add(SumBy(a, f), SumBy(b, f))
    decreases |b|
  {
    if |b| == 0 {
      assert a + b == a;
      ZeroIsAddIdentity(SumBy(a, f));
    } else {
      var b' := b[..|b| - 1];
      var y := b[|b| - 1];
      assert (a + b)[..|a + b| - 1] == a + b';
      SumByConcat(a, b', f);
      AddAssociates(SumBy(a, f), SumBy(b', f), f(y));
    }
  }

  /** Pulling one term out of the middle of a sum. */
  lemma SumByExtract<T>(a: seq<T>, x: T, b: seq<T>, f: T -> Decimal)
    ensures SumBy(a + [x] + b, f) == Add(SumBy(a + b, f), f(x))
  {
    var sa, sb, fx := SumBy(a, f), SumBy(b, f), f(x);
    SumByConcat(a + [x], b, f);
    assert (a + [x])[..|a + [x]| - 1] == a;
    assert SumBy([x], f) == fx by {
      assert [x][..0] == [];
      ZeroIsAddIdentity(fx);
    }
    SumByConcat(a, b, f);
    calc {
      SumBy(a + [x] + b, f);
      Add(Add(sa, fx), sb);
      { AddAssociates(sa, fx, sb); }
      Add(sa, Add(fx, sb));
      { AddCommutes(fx, sb); }
      Add(sa, Add(sb, fx));
      { AddAssociates(sa, sb, fx); }
      Add(Add(sa, sb), fx);
    }
  }

  /** Sums over two arrangements of the same terms are the same decimal:
      same unscaled value and same scale. */
  lemma {:induction false} SumByPermutation<T>(s1: seq<T>, s2: seq<T>, f: T -> Decimal)
    requires multiset(s1) == multiset(s2)
    ensures SumBy(s1, f) == SumBy(s2, f)
    decreases |s1|
  {
    if |s1| == 0 {
      assert multiset(s2) == multiset{};
    } else {
      var n := |s1| - 1;
      var x := s1[n];
      assert s1 == s1[..n] + [x];
      assert x in multiset(s2);
      var i :| 0 <= i < |s2| && s2[i] == x;
      var a, b := s2[..i], s2[i + 1..];
      assert s2 == a + [x] + b;
      CancelOne(s1[..n], x, a, b);
      SumByPermutation(s1[..n], a + b, f);
      SumByExtract(a, x, b, f);
    }
  }

  /** Removing one occurrence of the same term from two arrangements of
      the same terms leaves arrangements of the same terms. */
  lemma CancelOne<T>(s: seq<T>, x: T, a: seq<T>, b: seq<T>)
    requires multiset(s + [x]) == multiset(a + [x] + b)
    ensures multiset(s) == multiset(a + b)
  {
    calc {
      multiset(s);
      multiset(s) + multiset{x} - multiset{x};
      multiset(s + [x]) - multiset{x};
      multiset(a + [x] + b) - multiset{x};
      multiset(a) + multiset(b) + multiset{x} - multiset{x};
      multiset(a + b);
    }
  }

  predicate NoDuplicates<T(==)>(s: seq<T>)
  {
    forall i, j :: 0 <= i < j < |s| ==> s[i] != s[j]
  }

  /** A sequence without duplicates holds each of its elements once. */
  lemma {:induction false} MultisetOfDistinct<T>(s: seq<T>)
    requires NoDuplicates(s)
    ensures forall x :: multiset(s)[x] == if x in s then 1 else 0
  {
    if |s| > 0 {
      var n := |s| - 1;
      assert s == s[..n] + [s[n]];
      MultisetOfDistinct(s[..n]);
      assert s[n] !in s[..n];
    }
  }

  /** Two duplicate-free sequences with the same elements are arrangements
      of each other. */
  lemma {:induction false} DistinctSameElements<T>(s1: seq<T>, s2: seq<T>)
    requires NoDuplicates(s1) && NoDuplicates(s2)
    requires forall x :: x in s1 <==> x in s2
    ensures multiset(s1) == multiset(s2)
  {
    MultisetOfDistinct(s1);
    MultisetOfDistinct(s2);
    assert forall x :: multiset(s1)[x] == multiset(s2)[x];
  }
}
