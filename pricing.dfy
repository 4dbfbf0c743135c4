/** The basket calculation behind `POST /calculator/calculate-basket`:
    group the basket's lines by article, price each article for the
    basket's customer, multiply by the article's total quantity, and round
    the exact sum of the line amounts once, to two places, half-up.

    Java iterates the entry `Set` in an order the language leaves open. The
    model takes that order as a parameter, `order`, constrained only to list
    every entry exactly once, and proves that the result does not depend on
    it (`CalculateBasketOrderIndependent`). */
module Pricing {
  import opened Decimals
  import opened DecimalSums
  import opened Entries
  import opened Baskets

  /** The price repository's failure for an article it has no price for. */
  datatype PricingError = ArticleNotFound

  datatype Result<T> = Success(value: T) | Failure(error: PricingError)

  /** The price repository as the calculator reads it: a standard price
      per article id, and customer-specific prices per (article id,
      customer id). */
  datatype PriceLookup = PriceLookup(
    standardPrices: map<string, Decimal>,
    customerPrices: map<(string, string), Decimal>)

  /** The JSON body of the answer: the customer id, the amount per
      article id, and the total. */
  datatype BasketCalculationResult = BasketCalculationResult(
    customerId: string,
    pricedBasketEntries: map<string, Decimal>,
    totalAmount: Decimal)

  /** The standard price of an article; unknown articles fail. */
  function PriceForArticle(prices: PriceLookup, articleId: string): (r: Result<Decimal>)
    ensures r.Success? <==> articleId in prices.standardPrices
    ensures r.Success? ==> r.value == prices.standardPrices[articleId]
    ensures r.Failure? ==> r.error == ArticleNotFound
  {
    if articleId in prices.standardPrices then Success(prices.standardPrices[articleId])
    else Failure(ArticleNotFound)
  }

  /** The customer's own price for an article if there is one, and the
      standard price otherwise. */
  function PriceForArticleAndCustomer(prices: PriceLookup, articleId: string, customerId: string): (r: Result<Decimal>)
    ensures (articleId, customerId) in prices.customerPrices ==>
      r == Success(prices.customerPrices[(articleId, customerId)])
    ensures (articleId, customerId) !in prices.customerPrices && articleId in prices.standardPrices ==>
      r == Success(prices.standardPrices[articleId])
    ensures (articleId, customerId) !in prices.customerPrices && articleId !in prices.standardPrices ==>
      r == Failure(ArticleNotFound)
  {
    if (articleId, customerId) in prices.customerPrices then Success(prices.customerPrices[(articleId, customerId)])
    else PriceForArticle(prices, articleId)
  }

  /** A customer without any customer-specific price pays the standard
      price of every article, and an article without a standard price
      fails for them. */
  lemma {:induction false} UnregisteredCustomerPaysStandardPrice(prices: PriceLookup, articleId: string, customerId: string)
    requires forall a :: (a, customerId) !in prices.customerPrices
    ensures PriceForArticleAndCustomer(prices, articleId, customerId).Success? <==> articleId in prices.standardPrices
    ensures articleId in prices.standardPrices ==>
      PriceForArticleAndCustomer(prices, articleId, customerId) == Success(prices.standardPrices[articleId])
  {
    assert (articleId, customerId) !in prices.customerPrices;
  }

  /** `order` lists every entry of the set exactly once: one of the orders
      in which Java may iterate the set. */
  ghost predicate IsEnumeration(order: seq<BasketEntry>, entries: set<BasketEntry>)
  {
    NoDuplicates(order) && forall e :: e in order <==> e in entries
  }

  /** The distinct article ids of a basket's entries. */
  function ArticleIds(entries: set<BasketEntry>): set<string>
  {
    set e | e in entries :: e.articleId
  }

  /** The quantity an entry contributes to an article's total. */
  function QuantityOf(articleId: string): BasketEntry -> Decimal
  {
    (e: BasketEntry) => if e.articleId == articleId then e.quantity else Zero
  }

  /** The exact sum of the quantities of all lines for one article. */
  function TotalQuantity(order: seq<BasketEntry>, articleId: string): (q: Decimal)
    ensures Value(q) == ValueSum(order, QuantityOf(articleId))
  {
    SumBy(order, QuantityOf(articleId))
  }

  /** One more line adds its quantity to its own article's total and
      leaves every other article's total the same decimal. */
  lemma TotalQuantityAppend(order: seq<BasketEntry>, e: BasketEntry, articleId: string)
    ensures e.articleId == articleId ==>
      TotalQuantity(order + [e], articleId) == Add(TotalQuantity(order, articleId), e.quantity)
    ensures e.articleId != articleId ==>
      TotalQuantity(order + [e], articleId) == TotalQuantity(order, articleId)
  {
    assert (order + [e])[..|order|] == order;
    ZeroIsAddIdentity(TotalQuantity(order, articleId));
  }

  /** An article without lines totals exactly `BigDecimal.ZERO`. */
  lemma {:induction false} TotalQuantityOfAbsentArticle(order: seq<BasketEntry>, articleId: string)
    requires forall e | e in order :: e.articleId != articleId
    ensures TotalQuantity(order, articleId) == Zero
  {
    if |order| > 0 {
      var n := |order| - 1;
      assert order == order[..n] + [order[n]];
      TotalQuantityOfAbsentArticle(order[..n], articleId);
      TotalQuantityAppend(order[..n], order[n], articleId);
    }
  }

  /** The article ids of the lines, each once, in order of first
      appearance. */
  function DistinctArticles(order: seq<BasketEntry>): (r: seq<string>)
    ensures NoDuplicates(r)
    ensures forall a :: a in r <==> exists e :: e in order && e.articleId == a
  {
    if |order| == 0 then []
    else
      var rest := DistinctArticles(order[..|order| - 1]);
      var a := order[|order| - 1].articleId;
      if a in rest then rest else rest + [a]
  }

  /** The amount a map holds for an article, zero where it holds none. */
  function AmountOf(lines: map<string, Decimal>): string -> Decimal
  {
    (a: string) => if a in lines then lines[a] else Zero
  }

  /** The exact, unrounded sum of the line amounts, taken over the
      articles in the order the lines were visited. */
  function ExactTotal(order: seq<BasketEntry>, lines: map<string, Decimal>): (t: Decimal)
    ensures Value(t) == ValueSum(DistinctArticles(order), AmountOf(lines))
  {
    SumBy(DistinctArticles(order), AmountOf(lines))
  }

  predicate AllArticlesPriced(basket: Basket, prices: PriceLookup)
  {
    forall a :: a in ArticleIds(basket.entries) ==>
      PriceForArticleAndCustomer(prices, a, basket.customerId).Success?
  }

  /** Each article's unit price for the basket's customer, times the total
      quantity of its lines, exact. */
  function LineAmounts(basket: Basket, order: seq<BasketEntry>, prices: PriceLookup): (lines: map<string, Decimal>)
    requires AllArticlesPriced(basket, prices)
    ensures lines.Keys == ArticleIds(basket.entries)
  {
    map a | a in ArticleIds(basket.entries) ::
      Mul(PriceForArticleAndCustomer(prices, a, basket.customerId).value, TotalQuantity(order, a))
  }

  /** Prices a basket. It fails exactly when one of its articles has no
      price; otherwise it echoes the customer id, maps every article of the
      basket (and nothing else) to unit price times total quantity, and
      gives as total the half-up rounding to two places of the exact sum of
      those amounts. */
  function CalculateBasket(basket: Basket, order: seq<BasketEntry>, prices: PriceLookup): (r: Result<BasketCalculationResult>)
    requires IsEnumeration(order, basket.entries)
    ensures r.Success? <==> AllArticlesPriced(basket, prices)
    ensures r.Failure? ==> r.error == ArticleNotFound
    ensures r.Success? ==> r.value.customerId == basket.customerId
    ensures r.Success? ==> r.value.pricedBasketEntries.Keys == ArticleIds(basket.entries)
    ensures r.Success? ==> forall a :: a in r.value.pricedBasketEntries ==>
      r.value.pricedBasketEntries[a]
        == Mul(PriceForArticleAndCustomer(prices, a, basket.customerId).value, TotalQuantity(order, a))
    ensures r.Success? ==>
      && r.value.totalAmount.scale == 2
      && RoundsHalfUp(Value(ExactTotal(order, r.value.pricedBasketEntries)), r.value.totalAmount.unscaled, 2)
  {
    if AllArticlesPriced(basket, prices) then
      var lines := LineAmounts(basket, order, prices);
      Success(BasketCalculationResult(basket.customerId, lines, SetScaleHalfUp(ExactTotal(order, lines), 2)))
    else
      Failure(ArticleNotFound)
  }

  /** The exact total is the sum of the result's amounts taken over any
      listing of its articles, so the total rounds the sum of the amounts
      the answer shows, however they are ordered. */
  lemma {:induction false} ExactTotalOverAnyListing(basket: Basket, order: seq<BasketEntry>, lines: map<string, Decimal>, articles: seq<string>)
    requires IsEnumeration(order, basket.entries)
    requires NoDuplicates(articles) && forall a :: a in articles <==> a in ArticleIds(basket.entries)
    ensures ExactTotal(order, lines) == SumBy(articles, AmountOf(lines))
  {
    var listed := DistinctArticles(order);
    forall a
      ensures a in listed <==> a in articles
    {
      if a in ArticleIds(basket.entries) {
        var e :| e in basket.entries && e.articleId == a;
        assert e in order;
      }
    }
    DistinctSameElements(listed, articles);
    SumByPermutation(listed, articles, AmountOf(lines));
  }

  /** Rounding once, at the total, is not rounding every line: two lines
      of 0.005 total 0.01, while two lines rounded to 0.01 each would total
      0.02. */
  lemma RoundingOnceDiffersFromRoundingEachLine()
    ensures var x := Decimal(5, 3);
      && SetScaleHalfUp(Add(x, x), 2) == Decimal(1, 2)
      && Add(SetScaleHalfUp(x, 2), SetScaleHalfUp(x, 2)) == Decimal(2, 2)
  {
    var x := Decimal(5, 3);
    assert Pow10(0) == 1 && Pow10(1) == 10;
    assert Add(x, x) == Decimal(10, 3);
    assert DivHalfUp(10, 10) == 1;
    assert DivHalfUp(5, 10) == 1;
  }

  /** Two enumerations of the same entry set have the same elements, each
      once. */
  lemma {:induction false} EnumerationsArePermutations(o1: seq<BasketEntry>, o2: seq<BasketEntry>, entries: set<BasketEntry>)
    requires IsEnumeration(o1, entries) && IsEnumeration(o2, entries)
    ensures multiset(o1) == multiset(o2)
    ensures multiset(DistinctArticles(o1)) == multiset(DistinctArticles(o2))
  {
    DistinctSameElements(o1, o2);
    DistinctSameElements(DistinctArticles(o1), DistinctArticles(o2));
  }

  /** The total quantity of an article does not depend on the order in
      which the lines are visited. */
  lemma {:induction false} TotalQuantityOrderIndependent(o1: seq<BasketEntry>, o2: seq<BasketEntry>, articleId: string)
    requires multiset(o1) == multiset(o2)
    ensures TotalQuantity(o1, articleId) == TotalQuantity(o2, articleId)
  {
    SumByPermutation(o1, o2, QuantityOf(articleId));
  }

  /** The priced lines do not depend on the order in which the entries
      are visited. */
  lemma {:induction false} LineAmountsOrderIndependent(basket: Basket, o1: seq<BasketEntry>, o2: seq<BasketEntry>, prices: PriceLookup)
    requires multiset(o1) == multiset(o2)
    requires AllArticlesPriced(basket, prices)
    ensures LineAmounts(basket, o1, prices) == LineAmounts(basket, o2, prices)
  {
    var lines1 := LineAmounts(basket, o1, prices);
    var lines2 := LineAmounts(basket, o2, prices);
    forall a | a in ArticleIds(basket.entries)
      ensures lines1[a] == lines2[a]
    {
      TotalQuantityOrderIndependent(o1, o2, a);
    }
  }

  /** The result is the same for every order in which Java may iterate
      the entry set: amounts and total are the same decimals. */
  lemma {:induction false} CalculateBasketOrderIndependent(basket: Basket, o1: seq<BasketEntry>, o2: seq<BasketEntry>, prices: PriceLookup)
    requires IsEnumeration(o1, basket.entries) && IsEnumeration(o2, basket.entries)
    ensures CalculateBasket(basket, o1, prices) == CalculateBasket(basket, o2, prices)
  {
    if AllArticlesPriced(basket, prices) {
      EnumerationsArePermutations(o1, o2, basket.entries);
      LineAmountsOrderIndependent(basket, o1, o2, prices);
      var lines := LineAmounts(basket, o1, prices);
      SumByPermutation(DistinctArticles(o1), DistinctArticles(o2), AmountOf(lines));
    }
  }

  /** Baskets that are `equals` price to the same result, whatever order
      each of them is iterated in. */
  lemma {:induction false} EqualBasketsPriceEqually(b1: Basket, b2: Basket, o1: seq<BasketEntry>, o2: seq<BasketEntry>, prices: PriceLookup)
    requires b1.Equals(JavaLang.Instance(b2))
    requires IsEnumeration(o1, b1.entries) && IsEnumeration(o2, b2.entries)
    ensures CalculateBasket(b1, o1, prices) == CalculateBasket(b2, o2, prices)
  {
    CalculateBasketOrderIndependent(b1, o1, o2, prices);
  }

  /** Every entry set can be iterated, so every basket has a result. */
  lemma {:induction false} EnumerationExists(entries: set<BasketEntry>)
    ensures exists order :: IsEnumeration(order, entries)
    decreases |entries|
  {
    if entries == {} {
      assert IsEnumeration([], entries);
    } else {
      var e :| e in entries;
      EnumerationExists(entries - {e});
      var rest :| IsEnumeration(rest, entries - {e});
      assert IsEnumeration(rest + [e], entries);
    }
  }

  /** The empty basket costs 0.00 and has no amounts. */
  lemma EmptyBasketCostsNothing(customerId: string, prices: PriceLookup)
    ensures CalculateBasket(Basket(customerId, {}), [], prices)
      == Success(BasketCalculationResult(customerId, map[], Decimal(0, 2)))
  {
    var b := Basket(customerId, {});
    assert ArticleIds(b.entries) == {};
    assert LineAmounts(b, [], prices) == map[];
  }

  /** Two price lists that quote the same price, or the same absence of
      one, for every article to the basket's customer price the basket the
      same. */
  lemma {:induction false} SameQuotesSameLines(basket: Basket, order: seq<BasketEntry>, p1: PriceLookup, p2: PriceLookup)
    requires forall a :: PriceForArticleAndCustomer(p1, a, basket.customerId) == PriceForArticleAndCustomer(p2, a, basket.customerId)
    requires AllArticlesPriced(basket, p1)
    ensures AllArticlesPriced(basket, p2)
    ensures LineAmounts(basket, order, p1) == LineAmounts(basket, order, p2)
  {
    var lines1 := LineAmounts(basket, order, p1);
    var lines2 := LineAmounts(basket, order, p2);
    assert forall a | a in lines1 :: lines1[a] == lines2[a];
  }

  /** A customer without customer-specific prices is charged exactly what
      a price list of standard prices alone would charge. */
  lemma {:induction false} UnregisteredCustomerPricedAtStandard(basket: Basket, order: seq<BasketEntry>, prices: PriceLookup)
    requires IsEnumeration(order, basket.entries)
    requires forall a :: (a, basket.customerId) !in prices.customerPrices
    ensures CalculateBasket(basket, order, prices)
      == CalculateBasket(basket, order, PriceLookup(prices.standardPrices, map[]))
  {
    var standard := PriceLookup(prices.standardPrices, map[]);
    forall a
      ensures PriceForArticleAndCustomer(prices, a, basket.customerId)
        == PriceForArticleAndCustomer(standard, a, basket.customerId)
    {
      UnregisteredCustomerPaysStandardPrice(prices, a, basket.customerId);
    }
    if AllArticlesPriced(basket, prices) {
      SameQuotesSameLines(basket, order, prices, standard);
    }
  }
}
