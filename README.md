# Basket pricing calculator — a Dafny model

The repository is a small pricing service. A client sends a **basket**: a
customer id and a set of **basket entries**, each an article id and a
`BigDecimal` quantity. The service looks up a price for every article —
the customer's own price when one is registered for that customer and
article, the article's standard price otherwise — and answers with the
customer id echoed back, a map from each article to its price times the
quantity bought, and a total amount: the exact sum of those amounts,
rounded once, half up, to two decimal places. An unknown article is an
error.

This project models that core as pure Dafny:

- `decimals.dfy` (`Decimals`): `BigDecimal` as an unscaled integer and a
  scale, with `add`, `multiply`, `equals` and `setScale(n, ROUND_HALF_UP)`,
  each specified against the exact rational value it denotes.
- `sums.dfy` (`DecimalSums`): sums of decimals along a sequence, and the
  proof that such a sum does not depend on the order of its terms.
- `java_lang.dfy` (`JavaLang`): the argument of `equals(Object)` (null, an
  instance of the same class, or an object of another class) and Java's
  32-bit `int` arithmetic used by `hashCode`.
- `basket_entry.dfy` (`Entries`) and `basket.dfy` (`Baskets`): the two
  value classes, their `equals` and `hashCode`, and what building a basket
  from a list of lines yields when the entries form a `Set`.
- `pricing.dfy` (`Pricing`): the basket calculation as one function,
  `CalculateBasket`, parameterised by the order in which the entry set is
  enumerated, and the proof that the answer is the same for every order.
- `scenarios.dfy` (`CalculatorScenarios`): the behaviours the integration
  tests pin down, proved for every price table that meets their premises,
  then computed on a sample price table.

## Model

Paths are relative to the repository root; `BasketEntry.java`,
`Basket.java` and `BasketCalculatorIT.java` live under
`src/main/java/digital/metro/pricing/calculator/` and
`src/test/java/digital/metro/pricing/calculator/`.

| member | source | states |
|---|---|---|
| Decimals.DecimalEquals | src/main/java/digital/metro/pricing/calculator/BasketEntry.java:31 | `BigDecimal.equals` holds exactly when unscaled value and scale both agree |
| Decimals.EqualsIsStricterThanValue | src/main/java/digital/metro/pricing/calculator/BasketEntry.java:31 | equal decimals denote the same number, but 4 and 4.00 denote the same number and are not equal |
| Decimals.Pow10Add | src/test/java/digital/metro/pricing/calculator/BasketCalculatorIT.java:58-59 | 10^(a+b) = 10^a · 10^b, the fact that aligns scales in add and multiply |
| Decimals.Add | src/test/java/digital/metro/pricing/calculator/BasketCalculatorIT.java:58-59 | the sum has the larger of the two scales and denotes the exact sum of the values |
| Decimals.Mul | src/test/java/digital/metro/pricing/calculator/BasketCalculatorIT.java:41 | the product has the sum of the scales and denotes the exact product of the values |
| Decimals.Rescale | src/test/java/digital/metro/pricing/calculator/BasketCalculatorIT.java:58-59 | multiplying the unscaled value by 10^k and raising the scale by k keeps the value |
| Decimals.SameScaleSameValue | src/test/java/digital/metro/pricing/calculator/BasketCalculatorIT.java:58-59 | two decimals of the same scale and value are the same decimal |
| Decimals.AddCommutes | src/test/java/digital/metro/pricing/calculator/BasketCalculatorIT.java:80-81 | add is commutative, scale included |
| Decimals.AddAssociates | src/test/java/digital/metro/pricing/calculator/BasketCalculatorIT.java:80-81 | add is associative, scale included |
| Decimals.ZeroIsAddIdentity | src/test/java/digital/metro/pricing/calculator/BasketCalculatorIT.java:58-59 | adding `BigDecimal.ZERO` on either side returns the other operand unchanged |
| Decimals.MulDistributesOverAdd | src/test/java/digital/metro/pricing/calculator/BasketCalculatorIT.java:80-81 | p·(q1+q2) is the same decimal as p·q1 + p·q2, scale included |
| Decimals.RoundsHalfUpUnique | src/test/java/digital/metro/pricing/calculator/BasketCalculatorIT.java:73 | at most one unscaled value is the half-up rounding of a number at a given scale |
| Decimals.DivHalfUp | src/test/java/digital/metro/pricing/calculator/BasketCalculatorIT.java:73 | the quotient is the integer nearest u/p, ties away from zero, for either sign of u |
| Decimals.DivHalfUpBounds | src/test/java/digital/metro/pricing/calculator/BasketCalculatorIT.java:73 | the half-up quotient lies within half a unit of u/p on the side the tie rule picks |
| Decimals.SetScaleHalfUp | src/test/java/digital/metro/pricing/calculator/BasketCalculatorIT.java:41-42 | the result has the requested scale and is the half-up rounding of the operand's value at that scale |
| Decimals.RaiseScaleRounds | src/test/java/digital/metro/pricing/calculator/BasketCalculatorIT.java:41-42 | raising the scale is an exact rounding |
| Decimals.LowerScaleRounds | src/test/java/digital/metro/pricing/calculator/BasketCalculatorIT.java:41-42 | lowering the scale by dividing half up is a half-up rounding of the value |
| Decimals.SetScaleDependsOnlyOnValue | src/test/java/digital/metro/pricing/calculator/BasketCalculatorIT.java:92-93 | two decimals with the same value round to the same decimal |
| Decimals.SetScaleIsExactWhenRaising | src/test/java/digital/metro/pricing/calculator/BasketCalculatorIT.java:107 | setting a scale no smaller than the current one keeps the value |
| DecimalSums.SumBy | src/test/java/digital/metro/pricing/calculator/BasketCalculatorIT.java:58-59 | a fold of add from zero denotes the exact sum of the terms' values |
| DecimalSums.SumByConcat | src/test/java/digital/metro/pricing/calculator/BasketCalculatorIT.java:58-59 | the sum over a concatenation is the sum of the two sums |
| DecimalSums.SumByExtract | src/test/java/digital/metro/pricing/calculator/BasketCalculatorIT.java:58-59 | one term can be taken out of the middle of a sum and added last |
| DecimalSums.SumByPermutation | src/main/java/digital/metro/pricing/calculator/Basket.java:8 | sums over any two arrangements of the same terms are the same decimal |
| DecimalSums.MultisetOfDistinct | src/main/java/digital/metro/pricing/calculator/Basket.java:8 | a duplicate-free sequence holds each of its elements exactly once |
| DecimalSums.DistinctSameElements | src/main/java/digital/metro/pricing/calculator/Basket.java:8 | two duplicate-free sequences with the same elements are permutations of each other |
| JavaLang.Wrap32 | src/main/java/digital/metro/pricing/calculator/BasketEntry.java:37 | the result is an `int` congruent to the argument modulo 2^32, and equal to it when it fits |
| JavaLang.HashCombine | src/main/java/digital/metro/pricing/calculator/BasketEntry.java:36-38 | `31 * h1 + h2` in `int` arithmetic is congruent to the exact value modulo 2^32 |
| Entries.BasketEntry.Equals | src/main/java/digital/metro/pricing/calculator/BasketEntry.java:23-32 | true exactly when the argument is a basket entry of the same class with the same article id and an equal quantity; false for null and other classes |
| Entries.BasketEntry.HashCode | src/main/java/digital/metro/pricing/calculator/BasketEntry.java:34-39 | the hash is 31 · hash(articleId) + hash(quantity), wrapped to 32 bits |
| Entries.EqualsReflexive | src/main/java/digital/metro/pricing/calculator/BasketEntry.java:25 | every entry equals itself |
| Entries.EqualsRejectsNullAndOtherClasses | src/main/java/digital/metro/pricing/calculator/BasketEntry.java:26 | null and objects of another class are never equal to an entry |
| Entries.EqualsIffFieldsEqual | src/main/java/digital/metro/pricing/calculator/BasketEntry.java:30-31 | entries are equal exactly when article ids, unscaled quantities and quantity scales agree |
| Entries.EqualsSymmetric | src/main/java/digital/metro/pricing/calculator/BasketEntry.java:23-32 | equality of entries is symmetric |
| Entries.EqualsTransitive | src/main/java/digital/metro/pricing/calculator/BasketEntry.java:23-32 | equality of entries is transitive |
| Entries.HashCodeConsistentWithEquals | src/main/java/digital/metro/pricing/calculator/BasketEntry.java:34-39 | equal entries have equal hash codes for any string and decimal hash functions |
| Entries.ScaleDistinguishesEntries | src/main/java/digital/metro/pricing/calculator/BasketEntry.java:31 | quantities 4 and 4.00 make different entries although they denote the same number |
| Baskets.Basket.Equals | src/main/java/digital/metro/pricing/calculator/Basket.java:23-32 | true exactly when the argument is a basket with the same customer id and the same entry set; false for null and other classes |
| Baskets.Basket.HashCode | src/main/java/digital/metro/pricing/calculator/Basket.java:34-39 | the hash is 31 · hash(customerId) + hash(entries), wrapped to 32 bits |
| Baskets.CollectLines | src/main/java/digital/metro/pricing/calculator/Basket.java:8 | collecting lines into the entry set keeps exactly the entries that occur among the lines |
| Baskets.EqualsReflexive | src/main/java/digital/metro/pricing/calculator/Basket.java:25 | every basket equals itself |
| Baskets.EqualsRejectsNullAndOtherClasses | src/main/java/digital/metro/pricing/calculator/Basket.java:26 | null and objects of another class are never equal to a basket |
| Baskets.EqualsIffFieldsEqual | src/main/java/digital/metro/pricing/calculator/Basket.java:30-31 | baskets are equal exactly when customer ids agree and the entry sets have the same members |
| Baskets.EqualsSymmetric | src/main/java/digital/metro/pricing/calculator/Basket.java:23-32 | equality of baskets is symmetric |
| Baskets.HashCodeConsistentWithEquals | src/main/java/digital/metro/pricing/calculator/Basket.java:34-39 | equal baskets have equal hash codes for any string and set hash functions |
| Baskets.SameLinesMakeEqualBaskets | src/main/java/digital/metro/pricing/calculator/Basket.java:10-13 | two line lists with the same entries make equal baskets |
| Baskets.LineOrderIsIrrelevant | src/main/java/digital/metro/pricing/calculator/Basket.java:10-13 | rearranging the lines does not change the basket |
| Baskets.IdenticalLinesCollapse | src/main/java/digital/metro/pricing/calculator/Basket.java:8 | a line repeated with the same article and the same quantity is kept once |
| Baskets.SameArticleDifferentQuantitiesStayDistinct | src/main/java/digital/metro/pricing/calculator/Basket.java:8 | two lines for one article with different quantities remain two entries |
| Pricing.PriceForArticle | src/test/java/digital/metro/pricing/calculator/BasketCalculatorIT.java:31 | the article's standard price when it has one, else ArticleNotFound |
| Pricing.PriceForArticleAndCustomer | src/test/java/digital/metro/pricing/calculator/BasketCalculatorIT.java:30-31 | the customer's own price for the article when present, else the standard price, else ArticleNotFound |
| Pricing.UnregisteredCustomerPaysStandardPrice | src/test/java/digital/metro/pricing/calculator/BasketCalculatorIT.java:96-108 | for a customer with no own prices an article is priced exactly when it has a standard price, and at that price |
| Pricing.TotalQuantity | src/test/java/digital/metro/pricing/calculator/BasketCalculatorIT.java:76-94 | the exact sum of the quantities of one article's lines; other articles' lines add nothing |
| Pricing.TotalQuantityAppend | src/test/java/digital/metro/pricing/calculator/BasketCalculatorIT.java:76-94 | one more line adds its quantity to its own article's total and leaves every other article's total the same decimal |
| Pricing.TotalQuantityOfAbsentArticle | src/test/java/digital/metro/pricing/calculator/BasketCalculatorIT.java:76-94 | an article with no lines totals exactly zero |
| Pricing.ExactTotal | src/test/java/digital/metro/pricing/calculator/BasketCalculatorIT.java:58-59 | the exact, unrounded sum of the line amounts, one term per article |
| Pricing.DistinctArticles | src/test/java/digital/metro/pricing/calculator/BasketCalculatorIT.java:76-94 | the article ids of the entries, each listed once |
| Pricing.LineAmounts | src/test/java/digital/metro/pricing/calculator/BasketCalculatorIT.java:68-71 | the priced lines have one key per article of the basket |
| Pricing.CalculateBasket | src/test/java/digital/metro/pricing/calculator/BasketCalculatorIT.java:28-108 | succeeds exactly when every article has a price, else fails with article-not-found; echoes the customer id; prices every article and nothing else at unit price times its summed quantity, exactly; the total has scale 2 and is the half-up rounding of the exact sum of those amounts |
| Pricing.ExactTotalOverAnyListing | src/test/java/digital/metro/pricing/calculator/BasketCalculatorIT.java:58-59 | the exact total is the sum of the priced amounts over any duplicate-free listing of the basket's articles |
| Pricing.RoundingOnceDiffersFromRoundingEachLine | src/test/java/digital/metro/pricing/calculator/BasketCalculatorIT.java:58-73 | two amounts of 0.005 total 0.01 when rounded once, but 0.02 when each is rounded first |
| Pricing.EnumerationsArePermutations | src/main/java/digital/metro/pricing/calculator/Basket.java:8 | two enumerations of one entry set are permutations of each other, and so are their article listings |
| Pricing.TotalQuantityOrderIndependent | src/test/java/digital/metro/pricing/calculator/BasketCalculatorIT.java:76-94 | an article's summed quantity does not depend on the order of the entries |
| Pricing.LineAmountsOrderIndependent | src/main/java/digital/metro/pricing/calculator/Basket.java:8 | the priced lines are the same for any two arrangements of the entries |
| Pricing.CalculateBasketOrderIndependent | src/main/java/digital/metro/pricing/calculator/Basket.java:8 | the answer is the same for every enumeration order of the entry set |
| Pricing.EqualBasketsPriceEqually | src/main/java/digital/metro/pricing/calculator/Basket.java:23-32 | baskets equal under `equals` get the same answer |
| Pricing.EnumerationExists | src/main/java/digital/metro/pricing/calculator/Basket.java:8 | every entry set has an enumeration, so the calculation applies to every basket |
| Pricing.EmptyBasketCostsNothing | src/test/java/digital/metro/pricing/calculator/BasketCalculatorIT.java:28-43 | a basket without entries succeeds with no priced lines and a total of 0.00 |
| Pricing.SameQuotesSameLines | src/test/java/digital/metro/pricing/calculator/BasketCalculatorIT.java:96-108 | two price lists that quote the same for every article to the customer price the same articles and give the same lines |
| Pricing.UnregisteredCustomerPricedAtStandard | src/test/java/digital/metro/pricing/calculator/BasketCalculatorIT.java:96-108 | a customer with no own prices gets the answer computed from the standard prices alone |
| CalculatorScenarios.SingleLineBasket | src/test/java/digital/metro/pricing/calculator/BasketCalculatorIT.java:28-43 | one line is priced at unit price times quantity and the total rounds that amount |
| CalculatorScenarios.CalculateBasketOneUnit | src/test/java/digital/metro/pricing/calculator/BasketCalculatorIT.java:28-43 | one unit at a customer price equal to the standard price times 0.9 rounded half up to two places: the answer echoes the customer, its only line is exactly that price, and the total is exactly that price |
| CalculatorScenarios.CalculateBasketFromParts | src/test/java/digital/metro/pricing/calculator/BasketCalculatorIT.java:52-74 | the answer is assembled from the priced lines and the rounded exact total |
| CalculatorScenarios.CalculateBasketTwoArticles | src/test/java/digital/metro/pricing/calculator/BasketCalculatorIT.java:52-74 | two articles are priced price1·q1 and price2·q2, and the total is their sum rounded half up to two places, in any enumeration order |
| CalculatorScenarios.CalculateBasketSameArticleTwice | src/test/java/digital/metro/pricing/calculator/BasketCalculatorIT.java:76-94 | two lines of one article are priced as one line at price·(q1+q2), which is the decimal price·q1 + price·q2 |
| CalculatorScenarios.CalculateBasketFourAndFive | src/test/java/digital/metro/pricing/calculator/BasketCalculatorIT.java:76-94 | quantities 4 and 5 of one article give the line price·9 and the rounding of price·4 + price·5 |
| CalculatorScenarios.IdenticalLinesChargedOnce | src/main/java/digital/metro/pricing/calculator/Basket.java:8 | the same line sent twice is charged once, because the entry set keeps it once |
| CalculatorScenarios.CalculateBasketUnregisteredCustomer | src/test/java/digital/metro/pricing/calculator/BasketCalculatorIT.java:96-108 | an unregistered customer buying one unit succeeds; the only line is exactly the standard price and the total is that price at scale 2, the same number |
| CalculatorScenarios.SampleCustomerPricesAreDiscounted | src/test/java/digital/metro/pricing/calculator/BasketCalculatorIT.java:41-42 | the sample customer prices are the standard prices times 0.9 rounded half up to two places |
| CalculatorScenarios.SampleOneUnit | src/test/java/digital/metro/pricing/calculator/BasketCalculatorIT.java:28-43 | on the sample prices one unit of article1 for customer-1 costs 9.00 |
| CalculatorScenarios.SampleTwoArticles | src/test/java/digital/metro/pricing/calculator/BasketCalculatorIT.java:52-74 | on the sample prices 4 × article1 and 5 × article2 cost 36.00 and 25.00, total 61.00 |
| CalculatorScenarios.SampleSameArticleTwice | src/test/java/digital/metro/pricing/calculator/BasketCalculatorIT.java:76-94 | on the sample prices 4 and 5 units of article1 are one line of 81.00, total 81.00 |
| CalculatorScenarios.SampleUnregisteredCustomer | src/test/java/digital/metro/pricing/calculator/BasketCalculatorIT.java:96-108 | on the sample prices customer-3 pays the standard 10.00 |

## Left out

- The HTTP layer: the endpoint, JSON (de)serialisation, content types and
  status codes, including the bad-request answer to a missing body
  (`BasketCalculatorIT.java:45-50`) and the single-article price endpoints
  (`BasketCalculatorIT.java:110-140`).
- The conversions to `double` that the tests apply before comparing JSON
  numbers; the model compares exact decimals.
- The price repository and its concrete prices: prices are a parameter
  (`PriceLookup`, a standard map and a per-customer map). The sample table
  in `CalculatorScenarios` is one illustrative instance, not the
  repository's data.
- The calculator service's Java source is not part of this model; the
  calculation is modelled from the behaviour its integration tests fix.
- Pricing.CalculateBasket: the error names no article, so that the answer
  stays the same whichever unknown article an enumeration meets first.
- Pricing.CalculateBasket: the order in which a `HashSet` yields its
  entries is a parameter constrained only to enumerate the set once.
- Entries.BasketEntry.HashCode: the concrete hash functions of `String`
  and `BigDecimal` are parameters; only the combining arithmetic is modelled.
- Baskets.Basket.HashCode: the concrete hash functions of `String` and
  `Set` are parameters; only the combining arithmetic is modelled.
- Entries.BasketEntry.Equals: the identity shortcut `this == o` is not
  modelled separately; values have no identity and the result agrees.
- Null fields, object aliasing and mutation of the entry set after
  construction: fields are values.
- Negative `BigDecimal` scales are not modelled (`scale` is a `nat`). A
  quantity written with an exponent, such as `1E+2`, has a negative scale,
  and the repository's prices are not part of this model. The structural
  equalities (`BigDecimal.ZERO` as identity of add, so a line amount being
  exactly `Mul(p, q)`) are proved only for scales of zero or more; the
  numeric values are unaffected.
