/**
 * The shapes the services accept and return (the DTO classes), and the projections
 * from stored rows to them. A navigation property (p.Category.Name, t.Product.SKU)
 * becomes a key lookup; it yields "" only for a dangling key, which a consistent
 * store does not have.
 */
module Dtos {
  import opened Domain

  datatype ProductDto = ProductDto(
    id: int, sku: string, name: string, description: string,
    price: Money, quantityInStock: int, categoryId: int, categoryName: string)

  datatype CategoryDto = CategoryDto(id: int, name: string, productCount: int)

  datatype TransactionDto = TransactionDto(
    id: int, productId: int, productName: string, productSku: string,
    quantityChange: int, timestamp: Timestamp, reason: string)

  datatype OrderItemDto = OrderItemDto(
    id: int, productId: int, productName: string, productSku: string,
    quantity: int, unitPrice: Money)
  {
    /** The line amount shown for an item: quantity times the captured unit price. */
    function Subtotal(): Money
    {
      quantity * unitPrice
    }
  }

  datatype OrderDto = OrderDto(id: int, createdAt: Timestamp, total: Money, items: seq<OrderItemDto>)

  datatype CreateProductDto = CreateProductDto(
    sku: string, name: string, description: string, price: Money, quantityInStock: int, categoryId: int)

  /** The update form; its quantityInStock is carried but never applied. */
  datatype UpdateProductDto = UpdateProductDto(
    name: string, description: string, price: Money, quantityInStock: int, categoryId: int)

  function CategoryNameOf(s: Store, categoryId: int): string
  {
    match FindCategory(s.categories, categoryId)
    case None => ""
    case Some(k) => s.categories[k].name
  }

  function ToProductDto(s: Store, p: Product): ProductDto
  {
    ProductDto(p.id, p.sku, p.name, p.description, p.price, p.stock, p.categoryId, CategoryNameOf(s, p.categoryId))
  }

  function ToTransactionDto(s: Store, e: LedgerEntry): TransactionDto
  {
    match FindProduct(s.products, e.productId)
    case None => TransactionDto(e.id, e.productId, "", "", e.quantityChange, e.timestamp, e.reason)
    case Some(k) =>
      TransactionDto(e.id, e.productId, s.products[k].name, s.products[k].sku, e.quantityChange, e.timestamp, e.reason)
  }

  function ToOrderItemDto(s: Store, item: OrderItem): OrderItemDto
  {
    match FindProduct(s.products, item.productId)
    case None => OrderItemDto(item.id, item.productId, "", "", item.quantity, item.unitPrice)
    case Some(k) =>
      OrderItemDto(item.id, item.productId, s.products[k].name, s.products[k].sku, item.quantity, item.unitPrice)
  }

  /** An order with all of its stored items, in the order they were added. */
  function ToOrderDto(s: Store, o: Order): (r: OrderDto)
    ensures r.id == o.id && r.createdAt == o.createdAt && r.total == o.total
    ensures |r.items| == |ItemsOf(s.orderItems, o.id)|
    ensures forall k :: 0 <= k < |r.items| ==>
      var item := ItemsOf(s.orderItems, o.id)[k];
      r.items[k].id == item.id && r.items[k].productId == item.productId
      && r.items[k].quantity == item.quantity && r.items[k].unitPrice == item.unitPrice
  {
    var items := ItemsOf(s.orderItems, o.id);
    OrderDto(o.id, o.createdAt, o.total, seq(|items|, k requires 0 <= k < |items| => ToOrderItemDto(s, items[k])))
  }
}
