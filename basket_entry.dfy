/** `BasketEntry`: one requested line of a basket, an article id and a
    quantity. The Java constructor and the getters `getArticleId` and
    `getQuantity` are the datatype's constructor and its two fields: a
    value built from two arguments gives back exactly those two. */
module Entries {
  import opened Decimals
  import opened JavaLang

  datatype BasketEntry = BasketEntry(articleId: string, quantity: Decimal)
  {
    /** `BasketEntry.equals`: false for `null` and for another class,
        otherwise equal article ids (`String.equals`) and equal quantities
        (`BigDecimal.equals`). The `this == o` shortcut is subsumed, since
        an object is field-wise equal to itself. */
    function Equals(o: Ref<BasketEntry>): (r: bool)
      ensures r <==> o == Instance(this)
    {
      match o
      case Null => false
      case OtherClass => false
      case Instance(that) =>
        articleId == that.articleId && DecimalEquals(quantity, that.quantity)
    }

    /** `BasketEntry.hashCode`: `31 * h(articleId) + h(quantity)` in `int`
        arithmetic. The hash functions of `String` and `BigDecimal` are
        parameters; any functions will do. */
    function HashCode(stringHash: string -> Int32, decimalHash: Decimal -> Int32): (h: Int32)
      ensures (h - (31 * stringHash(articleId) + decimalHash(quantity))) % TwoTo32 == 0
    {
      HashCombine(stringHash(articleId), decimalHash(quantity))
    }
  }

  lemma EqualsReflexive(e: BasketEntry)
    ensures e.Equals(Instance(e))
  {
  }

  lemma EqualsRejectsNullAndOtherClasses(e: BasketEntry)
    ensures !e.Equals(Null) && !e.Equals(OtherClass)
  {
  }

  /** Two entries are equal exactly when their article ids are equal and
      their quantities have the same unscaled value and the same scale. */
  lemma EqualsIffFieldsEqual(e: BasketEntry, f: BasketEntry)
    ensures e.Equals(Instance(f)) <==>
      e.articleId == f.articleId
      && e.quantity.unscaled == f.quantity.unscaled
      && e.quantity.scale == f.quantity.scale
  {
  }

  lemma EqualsSymmetric(e: BasketEntry, f: BasketEntry)
    ensures e.Equals(Instance(f)) == f.Equals(Instance(e))
  {
  }

  lemma EqualsTransitive(e: BasketEntry, f: BasketEntry, g: BasketEntry)
    requires e.Equals(Instance(f)) && f.Equals(Instance(g))
    ensures e.Equals(Instance(g))
  {
  }

  /** Equal entries have equal hash codes, whatever the hash functions of
      `String` and `BigDecimal` are. */
  lemma HashCodeConsistentWithEquals(e: BasketEntry, f: BasketEntry,
                                     stringHash: string -> Int32, decimalHash: Decimal -> Int32)
    requires e.Equals(Instance(f))
    ensures e.HashCode(stringHash, decimalHash) == f.HashCode(stringHash, decimalHash)
  {
  }

  /** A quantity of 4 and a quantity of 4.00 make different entries, even
      though they are the same number. */
  lemma ScaleDistinguishesEntries(articleId: string)
    ensures !BasketEntry(articleId, Decimal(4, 0)).Equals(Instance(BasketEntry(articleId, Decimal(400, 2))))
    ensures Value(Decimal(4, 0)) == Value(Decimal(400, 2))
  {
    EqualsIsStricterThanValue(Decimal(4, 0), Decimal(400, 2));
  }
}
