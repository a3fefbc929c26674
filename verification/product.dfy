/** What a shopping-cart item reads from the catalogue: product ids, names and products. */
module Product {
  import Money

  /** A product's UUID. */
  datatype ProductId = ProductId(uuid: nat)

  /** A product name; its non-blank check lives in code that is not part of this model. */
  datatype ProductName = ProductName(value: string)

  /** The product snapshot that refresh reads. */
  datatype Product = Product(id: ProductId, name: ProductName, price: Money.Money, inStock: bool)
}
