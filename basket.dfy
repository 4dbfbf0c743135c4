/** `Basket`: a customer id and the set of requested lines. The Java
    constructor and the getters `getCustomerId` and `getEntries` are the
    datatype's constructor and its two fields. Because `entries` is a set,
    lines are kept by value: the order in which they were added is lost and
    a line added twice is kept once, while two lines for the same article
    with different quantities are two members. */
module Baskets {
  import opened Decimals
  import opened JavaLang
  import opened Entries

  datatype Basket = Basket(customerId: string, entries: set<BasketEntry>)
  {
    /** `Basket.equals`: false for `null` and for another class, otherwise
        equal customer ids and equal entry sets (`Set.equals`). */
    function Equals(o: Ref<Basket>): (r: bool)
      ensures r <==> o == Instance(this)
    {
      match o
      case Null => false
      case OtherClass => false
      case Instance(that) => customerId == that.customerId && entries == that.entries
    }

    /** `Basket.hashCode`: `31 * h(customerId) + h(entries)` in `int`
        arithmetic, with the hash functions of `String` and `Set` as
        parameters. */
    function HashCode(stringHash: string -> Int32, setHash: set<BasketEntry> -> Int32): (h: Int32)
      ensures (h - (31 * stringHash(customerId) + setHash(entries))) % TwoTo32 == 0
    {
      HashCombine(stringHash(customerId), setHash(entries))
    }
  }

  /** The entry set built by adding the request lines one after another
      to an empty `Set`. */
  function CollectLines(lines: seq<BasketEntry>): (s: set<BasketEntry>)
    ensures forall e :: e in s <==> e in lines
  {
    if |lines| == 0 then {}
    else CollectLines(lines[..|lines| - 1]) + {lines[|lines| - 1]}
  }

  lemma EqualsReflexive(b: Basket)
    ensures b.Equals(Instance(b))
  {
  }

  lemma EqualsRejectsNullAndOtherClasses(b: Basket)
    ensures !b.Equals(Null) && !b.Equals(OtherClass)
  {
  }

  /** Two baskets are equal exactly when their customer ids are equal and
      their entry sets hold the same entries. */
  lemma EqualsIffFieldsEqual(b: Basket, c: Basket)
    ensures b.Equals(Instance(c)) <==>
      b.customerId == c.customerId && (forall e :: e in b.entries <==> e in c.entries)
  {
    if b.customerId == c.customerId && (forall e :: e in b.entries <==> e in c.entries) {
      assert b.entries == c.entries;
    }
  }

  lemma EqualsSymmetric(b: Basket, c: Basket)
    ensures b.Equals(Instance(c)) == c.Equals(Instance(b))
  {
  }

  lemma HashCodeConsistentWithEquals(b: Basket, c: Basket,
                                     stringHash: string -> Int32, setHash: set<BasketEntry> -> Int32)
    requires b.Equals(Instance(c))
    ensures b.HashCode(stringHash, setHash) == c.HashCode(stringHash, setHash)
  {
  }

  /** Baskets built from the same lines in any order, and with any line
      repeated any number of times, are equal. */
  lemma {:induction false} SameLinesMakeEqualBaskets(customerId: string, lines1: seq<BasketEntry>, lines2: seq<BasketEntry>)
    requires forall e :: e in lines1 <==> e in lines2
    ensures Basket(customerId, CollectLines(lines1)).Equals(Instance(Basket(customerId, CollectLines(lines2))))
  {
    assert CollectLines(lines1) == CollectLines(lines2);
  }

  /** In particular a permutation of the lines gives an equal basket. */
  lemma {:induction false} LineOrderIsIrrelevant(customerId: string, lines1: seq<BasketEntry>, lines2: seq<BasketEntry>)
    requires multiset(lines1) == multiset(lines2)
    ensures Basket(customerId, CollectLines(lines1)) == Basket(customerId, CollectLines(lines2))
  {
    forall e
      ensures e in lines1 <==> e in lines2
    {
      assert e in lines1 <==> e in multiset(lines1);
    }
    SameLinesMakeEqualBaskets(customerId, lines1, lines2);
  }

  /** A line added twice is kept once: the entry set is the same as if it
      had been added once. */
  lemma {:induction false} IdenticalLinesCollapse(lines: seq<BasketEntry>, e: BasketEntry)
    ensures CollectLines(lines + [e, e]) == CollectLines(lines + [e])
    ensures CollectLines([e, e]) == {e}
  {
    assert (lines + [e, e])[..|lines| + 1] == lines + [e];
    assert [e, e][..1] == [e];
    assert [e][..0] == [];
  }

  /** Two lines for the same article with quantities that are not
      `BigDecimal.equals` stay two members of the entry set. */
  lemma SameArticleDifferentQuantitiesStayDistinct(articleId: string, q1: Decimal, q2: Decimal)
    requires q1 != q2
    ensures |CollectLines([BasketEntry(articleId, q1), BasketEntry(articleId, q2)])| == 2
  {
    var e1, e2 := BasketEntry(articleId, q1), BasketEntry(articleId, q2);
    assert CollectLines([e1, e2]) == {e1, e2};
  }
}
