/** The order header of models/orders.js and the order line of
    models/order-item.js. */
module OrderModel {
  import opened Common

  const DefaultStatus := "Pending"
  const DefaultQuantity := 1

  /** An order line: the product it names, the unit price copied from the
      product when the line was created, and its quantity. The quantity
      defaults to 1 and has no lower bound. */
  datatype OrderItem = OrderItem(
    product: Id,
    price: int,
    dateCreated: int,
    quantity: int := DefaultQuantity)

  /** An order header: the ids of its lines in request order, the shipping
      and contact fields, the total, the ordering user (None when the
      request gives no usable id) and its status, "Pending" by default. */
  datatype Order = Order(
    orderItems: seq<Id>,
    shippingAddress1: string,
    shippingAddress2: string,
    state: string,
    zip: string,
    country: string,
    phone: string,
    totalPrice: int,
    user: Option<Id>,
    dateOrdered: int,
    status: string := DefaultStatus)

  /** The schema's validators for a header: the six address and contact
      fields and the user are required (totalPrice is always computed). */
  predicate ValidOrder(o: Order) {
    && o.shippingAddress1 != ""
    && o.shippingAddress2 != ""
    && o.state != ""
    && o.zip != ""
    && o.country != ""
    && o.phone != ""
    && o.user.Some?
  }

  /** A header built without a status is "Pending"; an order line built
      without a quantity has quantity 1; the status never affects
      validity, so a status update keeps a valid order valid. */
  lemma OrderDefaults(o: Order, product: Id, price: int, now: int, status: string)
    requires ValidOrder(o)
    ensures Order(o.orderItems, o.shippingAddress1, o.shippingAddress2, o.state, o.zip,
                  o.country, o.phone, o.totalPrice, o.user, o.dateOrdered).status == DefaultStatus
    ensures OrderItem(product, price, now).quantity == DefaultQuantity
    ensures ValidOrder(o.(status := status))
  {
  }
}
