/** The baskets of the calculator's integration tests, stated for every
    price list (and every article and customer id) that has the prices the
    tests read from the repository, followed by the same baskets on one
    concrete price list. */
module CalculatorScenarios {
  import opened Decimals
  import opened DecimalSums
  import opened Entries
  import opened Baskets
  import opened Pricing

  /** The decimal 1, as `new BigDecimal(1)` or the JSON quantity `1`. */
  const One: Decimal := Decimal(1, 0)

  lemma SumOfOne<T>(x: T, f: T -> Decimal)
    ensures SumBy([x], f) == f(x)
  {
    assert [x][..0] == [];
    ZeroIsAddIdentity(f(x));
  }

  lemma SumOfTwo<T>(x: T, y: T, f: T -> Decimal)
    ensures SumBy([x, y], f) == Add(f(x), f(y))
  {
    assert [x, y][..1] == [x];
    SumOfOne(x, f);
  }

  lemma DistinctArticlesOfOne(e: BasketEntry)
    ensures DistinctArticles([e]) == [e.articleId]
  {
    assert [e][..0] == [];
    assert DistinctArticles([]) == [];
  }

  lemma DistinctArticlesOfTwo(e1: BasketEntry, e2: BasketEntry)
    ensures DistinctArticles([e1, e2])
      == if e1.articleId == e2.articleId then [e1.articleId] else [e1.articleId, e2.articleId]
  {
    assert [e1, e2][..1] == [e1];
    DistinctArticlesOfOne(e1);
  }

  /** A basket of one line costs the article's price for the customer
      times the quantity, and that amount rounded to cents in total. */
  lemma {:induction false} SingleLineBasket(customerId: string, e: BasketEntry, prices: PriceLookup)
    requires PriceForArticleAndCustomer(prices, e.articleId, customerId).Success?
    ensures var p := PriceForArticleAndCustomer(prices, e.articleId, customerId).value;
      CalculateBasket(Basket(customerId, {e}), [e], prices)
        == Success(BasketCalculationResult(customerId, map[e.articleId := Mul(p, e.quantity)],
                                           SetScaleHalfUp(Mul(p, e.quantity), 2)))
  {
    var p := PriceForArticleAndCustomer(prices, e.articleId, customerId).value;
    var b := Basket(customerId, {e});
    assert ArticleIds(b.entries) == {e.articleId};
    SumOfOne(e, QuantityOf(e.articleId));
    var lines := LineAmounts(b, [e], prices);
    assert lines == map[e.articleId := Mul(p, e.quantity)];
    DistinctArticlesOfOne(e);
    SumOfOne(e.articleId, AmountOf(lines));
  }

  /** testCalculateBasket: one unit of an article, for a customer whose
      price is the standard price less 10 %, rounded half-up to cents. The
      answer echoes the customer, prices the article at exactly the
      customer's price, and totals exactly that price. */
  lemma {:induction false} CalculateBasketOneUnit(customerId: string, articleId: string, prices: PriceLookup)
    requires articleId in prices.standardPrices
    requires (articleId, customerId) in prices.customerPrices
    requires prices.customerPrices[(articleId, customerId)]
      == SetScaleHalfUp(Mul(prices.standardPrices[articleId], Decimal(9, 1)), 2)
    ensures var r := CalculateBasket(Basket(customerId, {BasketEntry(articleId, One)}), [BasketEntry(articleId, One)], prices);
      var price := prices.customerPrices[(articleId, customerId)];
      && r == Success(BasketCalculationResult(customerId, map[articleId := price], price))
      && r.value.totalAmount == SetScaleHalfUp(Mul(prices.standardPrices[articleId], Decimal(9, 1)), 2)
  {
    var price := prices.customerPrices[(articleId, customerId)];
    SingleLineBasket(customerId, BasketEntry(articleId, One), prices);
    assert Mul(price, One) == price;
    assert Pow10(0) == 1;
  }

  /** What `CalculateBasket` answers once its line amounts and its exact
      total are known. */
  lemma CalculateBasketFromParts(basket: Basket, order: seq<BasketEntry>, prices: PriceLookup,
                                 lines: map<string, Decimal>, exact: Decimal)
    requires IsEnumeration(order, basket.entries)
    requires AllArticlesPriced(basket, prices)
    requires LineAmounts(basket, order, prices) == lines
    requires ExactTotal(order, lines) == exact
    ensures CalculateBasket(basket, order, prices)
      == Success(BasketCalculationResult(basket.customerId, lines, SetScaleHalfUp(exact, 2)))
  {
  }

  lemma {:induction false} TwoArticlesParts(customerId: string, a1: string, q1: Decimal, a2: string, q2: Decimal, prices: PriceLookup)
    requires a1 != a2
    requires PriceForArticleAndCustomer(prices, a1, customerId).Success?
    requires PriceForArticleAndCustomer(prices, a2, customerId).Success?
    ensures var b := Basket(customerId, {BasketEntry(a1, q1), BasketEntry(a2, q2)});
      var o := [BasketEntry(a1, q1), BasketEntry(a2, q2)];
      var p1 := PriceForArticleAndCustomer(prices, a1, customerId).value;
      var p2 := PriceForArticleAndCustomer(prices, a2, customerId).value;
      && IsEnumeration(o, b.entries)
      && AllArticlesPriced(b, prices)
      && LineAmounts(b, o, prices) == map[a1 := Mul(p1, q1), a2 := Mul(p2, q2)]
      && ExactTotal(o, map[a1 := Mul(p1, q1), a2 := Mul(p2, q2)]) == Add(Mul(p1, q1), Mul(p2, q2))
  {
    var p1 := PriceForArticleAndCustomer(prices, a1, customerId).value;
    var p2 := PriceForArticleAndCustomer(prices, a2, customerId).value;
    var e1, e2 := BasketEntry(a1, q1), BasketEntry(a2, q2);
    var b := Basket(customerId, {e1, e2});
    var o := [e1, e2];
    assert IsEnumeration(o, b.entries);
    assert ArticleIds(b.entries) == {a1, a2};
    assert TotalQuantity(o, a1) == q1 by {
      SumOfTwo(e1, e2, QuantityOf(a1));
      ZeroIsAddIdentity(q1);
    }
    assert TotalQuantity(o, a2) == q2 by {
      SumOfTwo(e1, e2, QuantityOf(a2));
      ZeroIsAddIdentity(q2);
    }
    var lines := map[a1 := Mul(p1, q1), a2 := Mul(p2, q2)];
    assert LineAmounts(b, o, prices) == lines;
    assert ExactTotal(o, lines) == Add(Mul(p1, q1), Mul(p2, q2)) by {
      DistinctArticlesOfTwo(e1, e2);
      SumOfTwo(a1, a2, AmountOf(lines));
    }
  }

  /** testCalculateBasketWithMultipleItems: two different articles. Each
      article is priced at its own unit price times its quantity, and the
      total is the half-up rounding of the exact sum of the two amounts,
      in whatever order the set is iterated. */
  lemma {:induction false} CalculateBasketTwoArticles(customerId: string, a1: string, q1: Decimal, a2: string, q2: Decimal,
                                                      order: seq<BasketEntry>, prices: PriceLookup)
    requires a1 != a2
    requires PriceForArticleAndCustomer(prices, a1, customerId).Success?
    requires PriceForArticleAndCustomer(prices, a2, customerId).Success?
    requires IsEnumeration(order, {BasketEntry(a1, q1), BasketEntry(a2, q2)})
    ensures var p1 := PriceForArticleAndCustomer(prices, a1, customerId).value;
      var p2 := PriceForArticleAndCustomer(prices, a2, customerId).value;
      CalculateBasket(Basket(customerId, {BasketEntry(a1, q1), BasketEntry(a2, q2)}), order, prices)
        == Success(BasketCalculationResult(customerId, map[a1 := Mul(p1, q1), a2 := Mul(p2, q2)],
                                           SetScaleHalfUp(Add(Mul(p1, q1), Mul(p2, q2)), 2)))
  {
    var p1 := PriceForArticleAndCustomer(prices, a1, customerId).value;
    var p2 := PriceForArticleAndCustomer(prices, a2, customerId).value;
    var b := Basket(customerId, {BasketEntry(a1, q1), BasketEntry(a2, q2)});
    var o := [BasketEntry(a1, q1), BasketEntry(a2, q2)];
    TwoArticlesParts(customerId, a1, q1, a2, q2, prices);
    CalculateBasketOrderIndependent(b, order, o, prices);
    CalculateBasketFromParts(b, o, prices, map[a1 := Mul(p1, q1), a2 := Mul(p2, q2)], Add(Mul(p1, q1), Mul(p2, q2)));
  }

  lemma {:induction false} SameArticleTwiceParts(customerId: string, a: string, q1: Decimal, q2: Decimal, prices: PriceLookup)
    requires q1 != q2
    requires PriceForArticleAndCustomer(prices, a, customerId).Success?
    ensures var b := Basket(customerId, {BasketEntry(a, q1), BasketEntry(a, q2)});
      var o := [BasketEntry(a, q1), BasketEntry(a, q2)];
      var p := PriceForArticleAndCustomer(prices, a, customerId).value;
      && IsEnumeration(o, b.entries)
      && AllArticlesPriced(b, prices)
      && LineAmounts(b, o, prices) == map[a := Mul(p, Add(q1, q2))]
      && ExactTotal(o, map[a := Mul(p, Add(q1, q2))]) == Mul(p, Add(q1, q2))
  {
    var p := PriceForArticleAndCustomer(prices, a, customerId).value;
    var e1, e2 := BasketEntry(a, q1), BasketEntry(a, q2);
    var b := Basket(customerId, {e1, e2});
    var o := [e1, e2];
    assert IsEnumeration(o, b.entries);
    assert ArticleIds(b.entries) == {a};
    var lines := map[a := Mul(p, Add(q1, q2))];
    assert LineAmounts(b, o, prices) == lines by {
      SumOfTwo(e1, e2, QuantityOf(a));
    }
    assert ExactTotal(o, lines) == Mul(p, Add(q1, q2)) by {
      DistinctArticlesOfTwo(e1, e2);
      SumOfOne(a, AmountOf(lines));
    }
  }

  /** testCalculateBasketWithSameItemRepeated: two lines for one article
      with different quantities. The article appears once, priced at unit
      price times the summed quantity, which is the very decimal obtained
      by pricing the two lines separately and adding; the total rounds that
      sum. */
  lemma {:induction false} CalculateBasketSameArticleTwice(customerId: string, a: string, q1: Decimal, q2: Decimal,
                                                           order: seq<BasketEntry>, prices: PriceLookup)
    requires q1 != q2
    requires PriceForArticleAndCustomer(prices, a, customerId).Success?
    requires IsEnumeration(order, {BasketEntry(a, q1), BasketEntry(a, q2)})
    ensures var p := PriceForArticleAndCustomer(prices, a, customerId).value;
      && Mul(p, Add(q1, q2)) == Add(Mul(p, q1), Mul(p, q2))
      && CalculateBasket(Basket(customerId, {BasketEntry(a, q1), BasketEntry(a, q2)}), order, prices)
        == Success(BasketCalculationResult(customerId, map[a := Mul(p, Add(q1, q2))],
                                           SetScaleHalfUp(Add(Mul(p, q1), Mul(p, q2)), 2)))
  {
    var p := PriceForArticleAndCustomer(prices, a, customerId).value;
    var b := Basket(customerId, {BasketEntry(a, q1), BasketEntry(a, q2)});
    var o := [BasketEntry(a, q1), BasketEntry(a, q2)];
    SameArticleTwiceParts(customerId, a, q1, q2, prices);
    CalculateBasketOrderIndependent(b, order, o, prices);
    MulDistributesOverAdd(p, q1, q2);
    CalculateBasketFromParts(b, o, prices, map[a := Mul(p, Add(q1, q2))], Mul(p, Add(q1, q2)));
  }

  /** The quantities 4 and 5 of that test: the amount is unit price times
      9, and rounding price x 4 + price x 5 is rounding price x 9. */
  lemma {:induction false} CalculateBasketFourAndFive(customerId: string, a: string, order: seq<BasketEntry>, prices: PriceLookup)
    requires PriceForArticleAndCustomer(prices, a, customerId).Success?
    requires IsEnumeration(order, {BasketEntry(a, Decimal(4, 0)), BasketEntry(a, Decimal(5, 0))})
    ensures var p := PriceForArticleAndCustomer(prices, a, customerId).value;
      var r := CalculateBasket(Basket(customerId, {BasketEntry(a, Decimal(4, 0)), BasketEntry(a, Decimal(5, 0))}), order, prices);
      && r.Success?
      && r.value.pricedBasketEntries == map[a := Mul(p, Decimal(9, 0))]
      && r.value.totalAmount == SetScaleHalfUp(Add(Mul(p, Decimal(4, 0)), Mul(p, Decimal(5, 0))), 2)
      && r.value.totalAmount == SetScaleHalfUp(Mul(p, Decimal(9, 0)), 2)
  {
    CalculateBasketSameArticleTwice(customerId, a, Decimal(4, 0), Decimal(5, 0), order, prices);
    assert Add(Decimal(4, 0), Decimal(5, 0)) == Decimal(9, 0);
  }

  /** Two identical lines are one member of the entry set, so the article
      is charged for one line's quantity, not for twice that quantity. */
  lemma {:induction false} IdenticalLinesChargedOnce(customerId: string, e: BasketEntry, prices: PriceLookup)
    requires PriceForArticleAndCustomer(prices, e.articleId, customerId).Success?
    ensures var p := PriceForArticleAndCustomer(prices, e.articleId, customerId).value;
      var r := CalculateBasket(Basket(customerId, CollectLines([e, e])), [e], prices);
      r.Success? && r.value.pricedBasketEntries == map[e.articleId := Mul(p, e.quantity)]
  {
    assert CollectLines([e, e]) == {e} by {
      IdenticalLinesCollapse([], e);
    }
    SingleLineBasket(customerId, e, prices);
  }

  /** testCalculateBasketWithUnregisteredCustomer: a customer with no
      customer-specific prices pays the standard price, with no error: the
      line is that price, and so is the total's value. */
  lemma {:induction false} CalculateBasketUnregisteredCustomer(customerId: string, articleId: string, prices: PriceLookup)
    requires forall a :: (a, customerId) !in prices.customerPrices
    requires articleId in prices.standardPrices
    requires prices.standardPrices[articleId].scale <= 2
    ensures var r := CalculateBasket(Basket(customerId, {BasketEntry(articleId, One)}), [BasketEntry(articleId, One)], prices);
      var price := prices.standardPrices[articleId];
      && r == Success(BasketCalculationResult(customerId, map[articleId := price], SetScaleHalfUp(price, 2)))
      && Value(r.value.totalAmount) == Value(price)
  {
    var price := prices.standardPrices[articleId];
    UnregisteredCustomerPaysStandardPrice(prices, articleId, customerId);
    SingleLineBasket(customerId, BasketEntry(articleId, One), prices);
    assert Mul(price, One) == price;
    SetScaleIsExactWhenRaising(price, 2);
  }

  /** A concrete price list: article1 costs 10.00 and article2 5.55;
      customer-1 has both 10 % cheaper, rounded half-up to cents. */
  const Sample: PriceLookup := PriceLookup(
    map["article1" := Decimal(1000, 2), "article2" := Decimal(555, 2)],
    map[("article1", "customer-1") := Decimal(900, 2), ("article2", "customer-1") := Decimal(500, 2)])

  /** customer-1's prices in the sample are the standard prices times 0.9,
      rounded half-up to cents; for article2 that is the tie 4.995, which
      rounds up to 5.00. */
  lemma SampleCustomerPricesAreDiscounted()
    ensures forall a :: a in ["article1", "article2"] ==>
      Sample.customerPrices[(a, "customer-1")] == SetScaleHalfUp(Mul(Sample.standardPrices[a], Decimal(9, 1)), 2)
  {
    assert Mul(Decimal(1000, 2), Decimal(9, 1)) == Decimal(9000, 3);
    assert Pow10(1) == 10;
    assert DivHalfUp(9000, 10) == 900;
    assert DivHalfUp(4995, 10) == 500;
  }

  /** customer-1 buys one article1: 9.00. */
  lemma SampleOneUnit()
    ensures CalculateBasket(Basket("customer-1", {BasketEntry("article1", One)}), [BasketEntry("article1", One)], Sample)
      == Success(BasketCalculationResult("customer-1", map["article1" := Decimal(900, 2)], Decimal(900, 2)))
  {
    SingleLineBasket("customer-1", BasketEntry("article1", One), Sample);
    assert Pow10(0) == 1;
  }

  /** customer-1 buys 4 article1 and 5 article2: 36.00 + 25.00 = 61.00. */
  lemma SampleTwoArticles(order: seq<BasketEntry>)
    requires IsEnumeration(order, {BasketEntry("article1", Decimal(4, 0)), BasketEntry("article2", Decimal(5, 0))})
    ensures CalculateBasket(Basket("customer-1", {BasketEntry("article1", Decimal(4, 0)), BasketEntry("article2", Decimal(5, 0))}), order, Sample)
      == Success(BasketCalculationResult("customer-1",
                   map["article1" := Decimal(3600, 2), "article2" := Decimal(2500, 2)], Decimal(6100, 2)))
  {
    assert "article1" != "article2" by {
      assert "article1"[7] != "article2"[7];
    }
    assert PriceForArticleAndCustomer(Sample, "article1", "customer-1").value == Decimal(900, 2);
    assert PriceForArticleAndCustomer(Sample, "article2", "customer-1").value == Decimal(500, 2);
    CalculateBasketTwoArticles("customer-1", "article1", Decimal(4, 0), "article2", Decimal(5, 0), order, Sample);
    assert Pow10(0) == 1;
    assert Mul(Decimal(900, 2), Decimal(4, 0)) == Decimal(3600, 2);
    assert Mul(Decimal(500, 2), Decimal(5, 0)) == Decimal(2500, 2);
    assert Add(Decimal(3600, 2), Decimal(2500, 2)) == Decimal(6100, 2);
    assert SetScaleHalfUp(Decimal(6100, 2), 2) == Decimal(6100, 2);
  }

  /** customer-1 buys article1 on two lines, 4 and 5: 81.00. */
  lemma SampleSameArticleTwice(order: seq<BasketEntry>)
    requires IsEnumeration(order, {BasketEntry("article1", Decimal(4, 0)), BasketEntry("article1", Decimal(5, 0))})
    ensures CalculateBasket(Basket("customer-1", {BasketEntry("article1", Decimal(4, 0)), BasketEntry("article1", Decimal(5, 0))}), order, Sample)
      == Success(BasketCalculationResult("customer-1", map["article1" := Decimal(8100, 2)], Decimal(8100, 2)))
  {
    CalculateBasketFourAndFive("customer-1", "article1", order, Sample);
    assert Pow10(0) == 1;
  }

  /** customer-3, who has no prices of their own, buys one article1 at
      the standard 10.00. */
  lemma SampleUnregisteredCustomer()
    ensures CalculateBasket(Basket("customer-3", {BasketEntry("article1", One)}), [BasketEntry("article1", One)], Sample)
      == Success(BasketCalculationResult("customer-3", map["article1" := Decimal(1000, 2)], Decimal(1000, 2)))
  {
    assert ("article1", "customer-3") !in Sample.customerPrices by {
      assert "customer-3"[9] != "customer-1"[9];
    }
    SingleLineBasket("customer-3", BasketEntry("article1", One), Sample);
    assert Pow10(0) == 1;
  }
}
