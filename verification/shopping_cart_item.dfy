/**
 * ShoppingCartItem: a mutable entity whose totalAmount is price × quantity
 * after every mutator that returns normally.
 */
module ShoppingCartItem {
  import opened DomainErrors
  import opened Product
  import Money
  import Quantity

  datatype ShoppingCartItemId = ShoppingCartItemId(uuid: nat)
  datatype ShoppingCartId = ShoppingCartId(uuid: nat)

  class ShoppingCartItem {
    var id: ShoppingCartItemId
    var shoppingCartId: ShoppingCartId
    var productId: ProductId
    var productName: ProductName
    var price: Money.Money
    var quantity: Quantity.Quantity
    var totalAmount: Money.Money
    var available: bool

    /** The derived field agrees with the others: totalAmount is price × quantity. */
    predicate TotalIsConsistent()
      reads this
    {
      Money.Multiply(price, quantity) == Ok(totalAmount)
    }

    /** The `existing` builder: rehydrates every field verbatim, totalAmount included. */
    constructor Existing(id: ShoppingCartItemId, shoppingCartId: ShoppingCartId, productId: ProductId,
                         productName: ProductName, price: Money.Money, quantity: Quantity.Quantity,
                         available: bool, totalAmount: Money.Money)
      ensures this.id == id && this.shoppingCartId == shoppingCartId && this.productId == productId
      ensures this.productName == productName && this.price == price && this.quantity == quantity
      ensures this.available == available && this.totalAmount == totalAmount
    {
      this.id := id;
      this.shoppingCartId := shoppingCartId;
      this.productId := productId;
      this.productName := productName;
      this.price := price;
      this.quantity := quantity;
      this.available := available;
      this.totalAmount := totalAmount;
    }

    /**
     * The `brandNew` builder: rehydrates with the fresh id `id` and total
     * ZERO, then recalculates the total, which throws for a quantity below 1.
     */
    static method BrandNew(id: ShoppingCartItemId, shoppingCartId: ShoppingCartId, productId: ProductId,
                           productName: ProductName, price: Money.Money, quantity: Quantity.Quantity,
                           available: bool)
      returns (r: Result<ShoppingCartItem>)
      ensures r.Ok? <==> quantity.value >= 1
      ensures r.Err? ==> r.error == IllegalArgument
      ensures r.Ok? ==> fresh(r.value)
      ensures r.Ok? ==> r.value.id == id && r.value.shoppingCartId == shoppingCartId
      ensures r.Ok? ==> r.value.productId == productId && r.value.productName == productName
      ensures r.Ok? ==> r.value.price == price && r.value.quantity == quantity && r.value.available == available
      ensures r.Ok? ==> r.value.totalAmount.cents == price.cents * quantity.value
      ensures r.Ok? ==> r.value.TotalIsConsistent()
    {
      var item := new ShoppingCartItem.Existing(id, shoppingCartId, productId, productName, price,
                                                quantity, available, Money.ZERO);
      var outcome := item.RecalculateTotals();
      if outcome.Fail? {
        return Err(outcome.error);
      }
      return Ok(item);
    }

    /**
     * recalculateTotals: totalAmount := price × quantity. It throws, and
     * changes nothing, when the quantity is below 1; it changes no other
     * field; on a consistent item it changes nothing at all.
     */
    method RecalculateTotals() returns (r: Outcome)
      modifies this
      ensures r.Pass? <==> quantity.value >= 1
      ensures r.Fail? ==> r.error == IllegalArgument && unchanged(this)
      ensures r.Pass? ==> totalAmount.cents == price.cents * quantity.value && TotalIsConsistent()
      ensures id == old(id) && shoppingCartId == old(shoppingCartId) && productId == old(productId)
      ensures productName == old(productName) && price == old(price) && quantity == old(quantity)
      ensures available == old(available)
      ensures old(TotalIsConsistent()) ==> r.Pass? && unchanged(this)
    {
      var total := Money.Multiply(price, quantity);
      if total.Err? {
        return Fail(total.error);
      }
      totalAmount := total.value;
      return Pass;
    }

    /**
     * changeQuantity: rejects Quantity.ZERO (which holds 1) and changes
     * nothing; otherwise writes the quantity and then recalculates. For
     * quantity 0 the recalculation throws after the quantity was written,
     * leaving the old total beside the new quantity.
     */
    method ChangeQuantity(q: Quantity.Quantity) returns (r: Outcome)
      modifies this
      ensures q == Quantity.ZERO ==> r == Fail(IllegalArgument) && unchanged(this)
      ensures q != Quantity.ZERO ==> quantity == q
      ensures q.value == 0 ==> r == Fail(IllegalArgument) && totalAmount == old(totalAmount)
      ensures q.value >= 2 ==> r == Pass && totalAmount.cents == price.cents * q.value && TotalIsConsistent()
      ensures id == old(id) && shoppingCartId == old(shoppingCartId) && productId == old(productId)
      ensures productName == old(productName) && price == old(price) && available == old(available)
    {
      if q == Quantity.ZERO {
        return Fail(IllegalArgument);
      }
      quantity := q;
      r := RecalculateTotals();
    }

    /**
     * The evident intent of changeQuantity: reject a quantity below 1 before
     * writing anything, so that no failed call leaves a partial update.
     */
    method ChangeQuantityValidated(q: Quantity.Quantity) returns (r: Outcome)
      modifies this
      ensures r.Pass? <==> q.value >= 1
      ensures r.Fail? ==> r.error == IllegalArgument && unchanged(this)
      ensures r.Pass? ==> quantity == q && totalAmount.cents == price.cents * q.value && TotalIsConsistent()
      ensures id == old(id) && shoppingCartId == old(shoppingCartId) && productId == old(productId)
      ensures productName == old(productName) && price == old(price) && available == old(available)
    {
      if q.value < 1 {
        return Fail(IllegalArgument);
      }
      quantity := q;
      r := RecalculateTotals();
    }

    /**
     * refresh: a product with another id is rejected with
     * IncompatibleProduct and changes nothing. Otherwise price, availability
     * and name are copied from the product and the total is recalculated;
     * id, cart id, product id and quantity stay. The recalculation throws
     * for a quantity of 0, after the copy, leaving the old total.
     */
    method Refresh(product: Product) returns (r: Outcome)
      modifies this
      ensures product.id != old(productId) ==> r == Fail(IncompatibleProduct) && unchanged(this)
      ensures product.id == old(productId) ==>
                && price == product.price && available == product.inStock && productName == product.name
                && (r.Pass? <==> quantity.value >= 1)
                && (r.Pass? ==> totalAmount.cents == product.price.cents * quantity.value && TotalIsConsistent())
                && (r.Fail? ==> r.error == IllegalArgument && totalAmount == old(totalAmount))
      ensures id == old(id) && shoppingCartId == old(shoppingCartId) && productId == old(productId)
      ensures quantity == old(quantity)
    {
      if product.id != productId {
        return Fail(IncompatibleProduct);
      }
      price := product.price;
      available := product.inStock;
      productName := product.name;
      r := RecalculateTotals();
    }

    /** equals: another item with the same id, whatever its other fields. */
    predicate Equals(other: ShoppingCartItem?)
      reads this, other
    {
      other != null && id == other.id
    }
  }

  /** Item equality is by id only: an equivalence that ignores every other field. */
  lemma EqualsIsIdentity(a: ShoppingCartItem, b: ShoppingCartItem, c: ShoppingCartItem)
    ensures a.Equals(a)
    ensures a.Equals(b) <==> b.Equals(a)
    ensures a.Equals(b) && b.Equals(c) ==> a.Equals(c)
    ensures a.Equals(b) <==> a.id == b.id
    ensures !a.Equals(null)
  {
  }

  /**
   * changeQuantity(Quantity(1)) is rejected with "must be greater than zero",
   * although 1 is greater than zero, because Quantity.ZERO holds 1.
   */
  method QuantityOneRejected() returns (item: ShoppingCartItem, r: Outcome)
    ensures r == Fail(IllegalArgument)
    ensures item.quantity.value == 2 && item.TotalIsConsistent()
  {
    var created := ShoppingCartItem.BrandNew(ShoppingCartItemId(1), ShoppingCartId(1), ProductId(1),
                                             ProductName("Mouse Pad"), Money.Money(10000),
                                             Quantity.Quantity(2), true);
    item := created.value;
    r := item.ChangeQuantity(Quantity.Quantity(1));
  }

  /**
   * changeQuantity(Quantity(0)) throws, but only after writing quantity 0:
   * the item is left with quantity 0 and the total for quantity 2.
   */
  method ZeroQuantityLeavesStaleTotal() returns (item: ShoppingCartItem, r: Outcome)
    ensures r == Fail(IllegalArgument)
    ensures item.quantity.value == 0 && item.totalAmount.cents == 20000
    ensures !item.TotalIsConsistent()
  {
    var created := ShoppingCartItem.BrandNew(ShoppingCartItemId(1), ShoppingCartId(1), ProductId(1),
                                             ProductName("Mouse Pad"), Money.Money(10000),
                                             Quantity.Quantity(2), true);
    item := created.value;
    r := item.ChangeQuantity(Quantity.Quantity(0));
  }

  /** The validated change accepts quantity 1 and rejects 0 without touching the item. */
  method ValidatedChangeExamples() returns (item: ShoppingCartItem, one: Outcome, zero: Outcome)
    ensures one == Pass && zero == Fail(IllegalArgument)
    ensures item.quantity.value == 1 && item.totalAmount.cents == 10000 && item.TotalIsConsistent()
  {
    var created := ShoppingCartItem.BrandNew(ShoppingCartItemId(1), ShoppingCartId(1), ProductId(1),
                                             ProductName("Mouse Pad"), Money.Money(10000),
                                             Quantity.Quantity(2), true);
    item := created.value;
    one := item.ChangeQuantityValidated(Quantity.Quantity(1));
    zero := item.ChangeQuantityValidated(Quantity.Quantity(0));
  }
}
