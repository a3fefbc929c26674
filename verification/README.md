# Ordering domain values and the shopping-cart item, in Dafny

A model of the value objects and the one mutable entity of the ordering
bounded context of AlgaShop:

- **Money**: a non-negative `BigDecimal` with scale 2. The constructor
  rounds any decimal to two places with `RoundingMode.HALF_EVEN` and then
  rejects a negative result; `add`, `multiply(Quantity)` and `divide`
  all build their result through that constructor. A Money is held as its
  number of hundredths (`cents: nat`); a `BigDecimal` is held as
  `Decimal(unscaled, scale)`, meaning unscaled × 10^(-scale).
- **Quantity**: a non-negative Java `int`. `Quantity.ZERO` holds 1.
  `add` uses the 32-bit `Integer.sum`, so a sum above 2^31-1 wraps to a
  negative int and the constructor rejects it.
- **Phone**: a string that `String.isBlank` does not reject, kept untrimmed.
- **ShoppingCartItem**: a class whose fields the mutators `changeQuantity`,
  `refresh` and `recalculateTotals` overwrite in place; after each of them
  returns normally, `totalAmount` is `price × quantity`.

Exceptions are values: `Result` (a value or an error) for functions and
constructors that throw, `Outcome` for void methods. The error kinds are
`IllegalArgument`, `ArithmeticError` (BigDecimal division by zero) and
`IncompatibleProduct`.

Files: `errors.dfy` (module DomainErrors), `decimal.dfy` (Decimal: powers
of ten, HALF_EVEN rounding, `setScale(2, HALF_EVEN)`), `quantity.dfy`,
`money.dfy`, `phone.dfy`, `product.dfy` (ids, product name, the product
snapshot) and `shopping_cart_item.dfy`.

Two behaviours of the code are kept as written and reported under Findings.
The guard of `changeQuantity` (ShoppingCartItem.java:51-53) rejects
`Quantity.ZERO` with the message "Quantity must be greater than zero.", but
that constant holds 1 (Quantity.java:6), so quantity 1 is rejected. And the
guard runs before the write while the check on the new quantity runs after it
(ShoppingCartItem.java:51-56): `changeQuantity(Quantity(0))`, like `refresh`
on an item of quantity 0, writes fields before `Money.multiply` throws.

## Model

| member | source | states |
|---|---|---|
| `Decimal.RoundHalfEven` | ordering/src/main/java/com/algaworks/algashop/ordering/domain/valueobject/Money.java:14 | the result is an integer nearest to n / den, and the even one when n / den lies exactly half-way |
| `Decimal.RoundHalfEvenUnique` | ordering/src/main/java/com/algaworks/algashop/ordering/domain/valueobject/Money.java:14 | any integer meeting the HALF_EVEN definition is the one RoundHalfEven returns, so the rounding is determined by the definition |
| `Decimal.RoundHalfEvenNonNegative` | ordering/src/main/java/com/algaworks/algashop/ordering/domain/valueobject/Money.java:14-17 | the rounded value is non-negative exactly when n / den >= -1/2 (the tie -1/2 goes to the even 0) |
| `Decimal.ToScale2` | ordering/src/main/java/com/algaworks/algashop/ordering/domain/valueobject/Money.java:14 | setScale(2, HALF_EVEN) gives the HALF_EVEN rounding of the value in hundredths, and loses nothing for an input scale of at most 2 |
| `Decimal.ToScale2Exact` | ordering/src/main/java/com/algaworks/algashop/ordering/domain/valueobject/Money.java:14 | a value whose scale is at most 2 is rescaled exactly: unscaled × 10^(2 - scale) hundredths |
| `Money.Of` | ordering/src/main/java/com/algaworks/algashop/ordering/domain/valueobject/Money.java:12-18 | construction succeeds iff the value is at least -0.005, holds the half-even rounding to hundredths, keeps a scale-2-or-less input exactly, and otherwise throws IllegalArgument |
| `Money.OfScale2` | ordering/src/main/java/com/algaworks/algashop/ordering/domain/valueobject/Money.java:12-18 | a scale-2 value is accepted unchanged iff it is non-negative |
| `Money.OfValue` | ordering/src/main/java/com/algaworks/algashop/ordering/domain/valueobject/Money.java:24-38 | every Money, read as the scale-2 decimal it holds, passes back through the constructor unchanged: the constructor's scale-2, non-negative results are its fixed points, so the results of add, multiply and divide keep scale 2 and non-negativity |
| `Money.OfRoundsHalfEven` | ordering/src/main/java/com/algaworks/algashop/ordering/domain/valueobject/Money.java:14 | the constructor agrees with any integer that meets the HALF_EVEN definition |
| `Money.Add` | ordering/src/main/java/com/algaworks/algashop/ordering/domain/valueobject/Money.java:24-26 | add never fails on two Money values and returns the exact sum |
| `Money.AddCommutative` | ordering/src/main/java/com/algaworks/algashop/ordering/domain/valueobject/Money.java:24-26 | add is commutative |
| `Money.AddAssociative` | ordering/src/main/java/com/algaworks/algashop/ordering/domain/valueobject/Money.java:24-26 | add is associative |
| `Money.AddZeroIdentity` | ordering/src/main/java/com/algaworks/algashop/ordering/domain/valueobject/Money.java:10 | ZERO is the identity of add on both sides |
| `Money.Multiply` | ordering/src/main/java/com/algaworks/algashop/ordering/domain/valueobject/Money.java:28-34 | multiply throws IllegalArgument iff the quantity is below 1, otherwise returns exactly cents × quantity |
| `Money.AddTimesCents` | ordering/src/main/java/com/algaworks/algashop/ordering/domain/valueobject/Money.java:24-26 | adding an amount to ZERO n times gives n × the amount |
| `Money.MultiplyIsRepeatedAdd` | ordering/src/main/java/com/algaworks/algashop/ordering/domain/valueobject/Money.java:28-34 | for a quantity n >= 1, multiply equals adding the amount to itself n times |
| `Money.Divide` | ordering/src/main/java/com/algaworks/algashop/ordering/domain/valueobject/Money.java:36-38 | divide throws ArithmeticError iff the divisor is 0.00, otherwise returns the quotient rounded half-even to hundredths |
| `Money.CompareTo` | ordering/src/main/java/com/algaworks/algashop/ordering/domain/valueobject/Money.java:40-43 | compareTo answers -1, 0 or 1 by numeric order, 0 exactly for equal amounts |
| `Money.CompareToAntisymmetric` | ordering/src/main/java/com/algaworks/algashop/ordering/domain/valueobject/Money.java:40-43 | swapping the operands negates compareTo |
| `Money.CompareToTransitive` | ordering/src/main/java/com/algaworks/algashop/ordering/domain/valueobject/Money.java:40-43 | the order compareTo defines is transitive |
| `Money.ConstructionExamples` | ordering/src/test/java/com/algaworks/algashop/ordering/domain/valueobject/MoneyTest.java:10-27 | the test's cases: "10" becomes 10.00 and -0.01 is rejected; added cases of the HALF_EVEN rounding at Money.java:14, not in the test: -0.015 is rejected, -0.004 and -0.005 become 0.00, 2.345 becomes 2.34 and 2.355 becomes 2.36 |
| `Money.ArithmeticExamples` | ordering/src/test/java/com/algaworks/algashop/ordering/domain/valueobject/MoneyTest.java:29-56 | the test's cases: 1.10 + 2.25 = 3.35, 2.00 × 3 = 6.00, 2.00 × 0 is rejected, 10.00 / 4.00 = 2.50; added cases of divide at Money.java:37, not in the test: 1.00 / 3.00 = 0.33 and division by 0.00 fails |
| `Quantity.Wrap` | ordering/src/main/java/com/algaworks/algashop/ordering/domain/valueobject/Quantity.java:17 | the 32-bit result agrees with the exact one modulo 2^32, is the exact one when that fits, and is the exact one minus 2^32 just above INT_MAX |
| `Quantity.Of` | ordering/src/main/java/com/algaworks/algashop/ordering/domain/valueobject/Quantity.java:8-13 | construction throws IllegalArgument iff the value is negative, and keeps any other value unchanged |
| `Quantity.ZeroHoldsOne` | ordering/src/main/java/com/algaworks/algashop/ordering/domain/valueobject/Quantity.java:6 | the constant ZERO is the quantity 1 |
| `Quantity.Add` | ordering/src/main/java/com/algaworks/algashop/ordering/domain/valueobject/Quantity.java:15-18 | add throws IllegalArgument iff the sum exceeds 2^31-1, otherwise returns the exact sum |
| `Quantity.AddCommutative` | ordering/src/main/java/com/algaworks/algashop/ordering/domain/valueobject/Quantity.java:15-18 | add is commutative, failures included |
| `Quantity.AddAssociative` | ordering/src/main/java/com/algaworks/algashop/ordering/domain/valueobject/Quantity.java:15-18 | where the total fits in an int, both groupings succeed and agree |
| `Quantity.AddIdentity` | ordering/src/main/java/com/algaworks/algashop/ordering/domain/valueobject/Quantity.java:6-18 | Quantity(0) is the identity of add, while adding ZERO adds one and fails at INT_MAX |
| `Quantity.AddOverflowWraps` | ordering/src/main/java/com/algaworks/algashop/ordering/domain/valueobject/Quantity.java:15-18 | INT_MAX + 1 wraps to INT_MIN, so adding 1 to INT_MAX throws |
| `Quantity.CompareTo` | ordering/src/main/java/com/algaworks/algashop/ordering/domain/valueobject/Quantity.java:20-23 | compareTo answers -1, 0 or 1 by value, 0 exactly for equal quantities |
| `Quantity.CompareToAntisymmetric` | ordering/src/main/java/com/algaworks/algashop/ordering/domain/valueobject/Quantity.java:20-23 | swapping the operands negates compareTo |
| `Quantity.CompareToTransitive` | ordering/src/main/java/com/algaworks/algashop/ordering/domain/valueobject/Quantity.java:20-23 | the order compareTo defines is transitive |
| `Quantity.Examples` | ordering/src/test/java/com/algaworks/algashop/ordering/domain/valueobject/QuantityTest.java:8-56 | 0 and 5 are accepted unchanged, -1 is rejected, 2 + 3 = 5, and compareTo orders 1 < 2 = 2 |
| `Phone.FirstNonWhitespace` | ordering/src/main/java/com/algaworks/algashop/ordering/domain/valueobject/Phone.java:8 | the index isBlank computes: every character before it is whitespace and the one at it is not |
| `Phone.Of` | ordering/src/main/java/com/algaworks/algashop/ordering/domain/valueobject/Phone.java:5-11 | construction succeeds iff some character is not whitespace, and then stores the string unchanged; a blank string throws IllegalArgument |
| `Phone.OfInjective` | ordering/src/main/java/com/algaworks/algashop/ordering/domain/valueobject/Phone.java:5 | two constructed phones are equal iff their strings are equal |
| `Phone.Examples` | ordering/src/test/java/com/algaworks/algashop/ordering/domain/valueobject/PhoneTest.java:8-24 | the test's cases: "   " is rejected and "+5511999999999" is kept as given; added cases of isBlank at Phone.java:8, not in the test: "" and a tab-newline are rejected, " 1 " is kept as given |
| `ShoppingCartItem.ShoppingCartItem.Existing` | ordering/src/main/java/com/algaworks/algashop/ordering/domain/entity/ShoppingCartItem.java:25-36 | rehydration stores every field verbatim; the total is not recomputed or checked |
| `ShoppingCartItem.ShoppingCartItem.BrandNew` | ordering/src/main/java/com/algaworks/algashop/ordering/domain/entity/ShoppingCartItem.java:38-44 | a new item gets the given fresh id and the other fields as given, with total price × quantity; it throws IllegalArgument iff the quantity is below 1 |
| `ShoppingCartItem.ShoppingCartItem.RecalculateTotals` | ordering/src/main/java/com/algaworks/algashop/ordering/domain/entity/ShoppingCartItem.java:46-48 | sets only the total, to price × quantity; throws and changes nothing for a quantity below 1; changes nothing on a consistent item (idempotent) |
| `ShoppingCartItem.ShoppingCartItem.ChangeQuantity` | ordering/src/main/java/com/algaworks/algashop/ordering/domain/entity/ShoppingCartItem.java:50-57 | Quantity.ZERO (value 1) is rejected with no change; 0 is written and then the recalculation throws, leaving the old total; 2 or more sets quantity and total = price × quantity; id, cart, product, name, price and availability never change |
| `ShoppingCartItem.ShoppingCartItem.ChangeQuantityValidated` | ordering/src/main/java/com/algaworks/algashop/ordering/domain/entity/ShoppingCartItem.java:50-57 | corrected change: succeeds iff the quantity is at least 1, leaving a consistent total, and a rejection changes nothing |
| `ShoppingCartItem.ShoppingCartItem.Refresh` | ordering/src/main/java/com/algaworks/algashop/ordering/domain/entity/ShoppingCartItem.java:59-70 | a product with another id throws IncompatibleProduct and changes nothing; otherwise price, availability and name come from the product and the total is recomputed, while id, cart id, product id and quantity stay |
| `ShoppingCartItem.EqualsIsIdentity` | ordering/src/main/java/com/algaworks/algashop/ordering/domain/entity/ShoppingCartItem.java:144-149 | equals is an equivalence that holds exactly when the ids are equal, and is false for null |
| `ShoppingCartItem.QuantityOneRejected` | ordering/src/main/java/com/algaworks/algashop/ordering/domain/entity/ShoppingCartItem.java:50-53 | changeQuantity(Quantity(1)) on a consistent item throws IllegalArgument |
| `ShoppingCartItem.ZeroQuantityLeavesStaleTotal` | ordering/src/main/java/com/algaworks/algashop/ordering/domain/entity/ShoppingCartItem.java:55-56 | after changeQuantity(Quantity(0)) throws, the item has quantity 0 and the total for quantity 2, so the total is inconsistent |
| `ShoppingCartItem.ValidatedChangeExamples` | ordering/src/main/java/com/algaworks/algashop/ordering/domain/entity/ShoppingCartItem.java:50-57 | the corrected change accepts quantity 1 and then rejects 0 without touching the item |

## Left out

- `Money(String)` (Money.java:20-22): it delegates to `BigDecimal` string parsing, a library call; construction is modelled from a `Decimal(unscaled, scale)` instead.
- Money.Of: BigDecimal's scale is a 32-bit int, and `setScale` and `BigInteger` throw ArithmeticException when the scale or the magnitude overflows (for example a scale of Integer.MIN_VALUE rescaled to 2); the model's `Decimal` has an unbounded scale and magnitude, and `Of` accepts any of them, so that failure is not modelled.
- Null checks (`Objects.requireNonNull` in every constructor, setter and operation, and the `NullPointerException` a null Phone, Quantity or Money throws): Dafny values are never null, so the parameter types exclude null. This includes `setShoppingCartId` checking `id` instead of its argument, which is only observable with nulls.
- Fresh-id generation in `brandNew` (a random UUID): the id is a parameter of `BrandNew`; that it is new is not modelled.
- `hashCode` (ShoppingCartItem.java:151-154): it is the UUID's hash, library code; it depends on the id only, as equality does.
- The getters of ShoppingCartItem: the model's fields are readable directly.
- `ProductName` validation: `FieldValidations.requiresNonBlank` is not part of this model, so a product name is an unchecked string. `Product`, `ProductId`, `ShoppingCartId` and `ShoppingCartItemId` are not part of this model either; they are plain value types holding what the item reads.
- Exception messages (`ErrorMessages` formatting of `ShoppingCartItemIncompatibleProductException`): only the error kind is modelled.
- Java's `Integer` boxing: a quantity is an int value.
- The Order aggregate, `ShippingInfo` (null checks only) and the other value objects: not part of this model.

## Findings

| source | as written | input that shows it | evidently intended | confidence | as-written member | corrected member |
|---|---|---|---|---|---|---|
| ordering/src/main/java/com/algaworks/algashop/ordering/domain/valueobject/Quantity.java:6 and ordering/src/main/java/com/algaworks/algashop/ordering/domain/entity/ShoppingCartItem.java:50-53 | `Quantity.ZERO` holds 1, so the guard "Quantity must be greater than zero." rejects quantity 1 | `changeQuantity(new Quantity(1))` on an item of quantity 2 throws IllegalArgumentException | reject only a quantity below 1 | medium, not executed | `ShoppingCartItem.QuantityOneRejected` | `ShoppingCartItem.ShoppingCartItem.ChangeQuantityValidated` |
| ordering/src/main/java/com/algaworks/algashop/ordering/domain/entity/ShoppingCartItem.java:55-56 | quantity 0 passes the guard, is written, and then `Money.multiply` throws, leaving the old total beside quantity 0 | `changeQuantity(new Quantity(0))` on an item of price 100.00 and quantity 2 leaves quantity 0 and total 200.00 | validate before writing, so a failed call changes nothing | high, not executed | `ShoppingCartItem.ZeroQuantityLeavesStaleTotal` | `ShoppingCartItem.ShoppingCartItem.ChangeQuantityValidated` |
