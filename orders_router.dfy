/** The order handlers of routers/orders.js: placing an order (one order
    line per request line, then the header), the status update, delete,
    total sales, the order count and a user's orders. */
module OrdersRouter {
  import opened Common
  import opened ProductModel
  import opened OrderModel
  import opened Auth
  import opened Tables

  /** The error a body without a list of lines throws. */
  const NoLinesError := "Cannot read properties of undefined (reading 'map')"
  /** The error a header that fails the schema validators raises. */
  const ValidationError := "Order validation failed"
  /** The error `findById` raises for text that is not an ObjectId. */
  const CastError := "Cast to ObjectId failed"
  /** The error raised for an id no product has. */
  const NotFoundError := "Product with ID not found"

  /** One line of the request body: a product id and an optional quantity. */
  datatype OrderLine = OrderLine(product: IdParam, quantity: Option<int>)

  /** The body of POST /. `orderItems` is None when the body has no list;
      `user` is None when it gives no usable user id; an absent string is "". */
  datatype OrderRequest = OrderRequest(
    orderItems: Option<seq<OrderLine>>,
    shippingAddress1: string,
    shippingAddress2: string,
    state: string,
    zip: string,
    country: string,
    phone: string,
    status: string,
    user: Option<Id>)

  // ---------------------------------------------------------------------
  // The specification of order placement

  /** `Product.findById(line.product)` finds a document. */
  predicate Resolves(products: map<Id, Product>, line: OrderLine) {
    line.product.ObjectId? && line.product.id in products
  }

  ghost predicate AllResolve(products: map<Id, Product>, lines: seq<OrderLine>) {
    forall k :: 0 <= k < |lines| ==> Resolves(products, lines[k])
  }

  /** The quantity an order line is saved with: the requested one, or the
      schema default 1. */
  function QuantityOf(line: OrderLine): int {
    if line.quantity.Some? then line.quantity.value else DefaultQuantity
  }

  /** The price of the product a resolving line names. */
  function UnitPrice(products: map<Id, Product>, line: OrderLine): int
    requires ProductTableValid(products) && Resolves(products, line)
  {
    products[line.product.id].price.value
  }

  /** The order line saved for a request line: its product, the product's
      price at that moment, the creation time and the quantity. */
  function ItemFor(products: map<Id, Product>, line: OrderLine, now: int): OrderItem
    requires ProductTableValid(products) && Resolves(products, line)
  {
    OrderItem(line.product.id, UnitPrice(products, line), now, QuantityOf(line))
  }

  /** The order lines saved for request lines that all resolve, in order. */
  function ItemsFor(products: map<Id, Product>, lines: seq<OrderLine>, now: int): (items: seq<OrderItem>)
    requires ProductTableValid(products) && AllResolve(products, lines)
    ensures |items| == |lines|
  {
    if lines == [] then []
    else ItemsFor(products, lines[..|lines| - 1], now) + [ItemFor(products, lines[|lines| - 1], now)]
  }

  /** The line saved for request line k is the k-th of ItemsFor. */
  lemma {:induction false} ItemsForAt(products: map<Id, Product>, lines: seq<OrderLine>, now: int)
    requires ProductTableValid(products) && AllResolve(products, lines)
    ensures forall k :: 0 <= k < |lines| ==> ItemsFor(products, lines, now)[k] == ItemFor(products, lines[k], now)
  {
    if lines != [] {
      var init := lines[..|lines| - 1];
      assert AllResolve(products, init);
      ItemsForAt(products, init, now);
    }
  }

  /** How many request lines are handled before the first one whose
      product does not resolve (all of them when every one resolves). */
  function ResolvedPrefix(products: map<Id, Product>, lines: seq<OrderLine>): (n: nat)
    ensures n <= |lines|
    ensures forall k :: 0 <= k < n ==> Resolves(products, lines[k])
    ensures n < |lines| ==> !Resolves(products, lines[n])
  {
    if lines == [] || !Resolves(products, lines[0]) then 0
    else 1 + ResolvedPrefix(products, lines[1..])
  }

  /** The order total: the sum over the request lines of the product's
      price times the line's quantity. */
  function LinesTotal(products: map<Id, Product>, lines: seq<OrderLine>): int
    requires ProductTableValid(products) && AllResolve(products, lines)
  {
    if lines == [] then 0
    else LinesTotal(products, lines[..|lines| - 1])
         + UnitPrice(products, lines[|lines| - 1]) * QuantityOf(lines[|lines| - 1])
  }

  /** The sum over saved order lines of their price times their quantity. */
  function ItemsTotal(items: seq<OrderItem>): int {
    if items == [] then 0
    else ItemsTotal(items[..|items| - 1]) + items[|items| - 1].price * items[|items| - 1].quantity
  }

  /** The total computed from live product prices equals the total of the
      saved lines' price snapshots: nothing changes the products between
      the two steps. */
  lemma {:induction false} SnapshotTotal(products: map<Id, Product>, lines: seq<OrderLine>, now: int)
    requires ProductTableValid(products) && AllResolve(products, lines)
    ensures ItemsTotal(ItemsFor(products, lines, now)) == LinesTotal(products, lines)
  {
    if lines != [] {
      var init := lines[..|lines| - 1];
      assert AllResolve(products, init);
      SnapshotTotal(products, init, now);
      var items := ItemsFor(products, lines, now);
      assert items[..|items| - 1] == ItemsFor(products, init, now);
    }
  }

  /** The order-line table after the first step of POST /: starting at
      id `first`, each request line in turn is saved under the next id,
      until the first line whose product does not resolve. */
  ghost function SaveLines(products: map<Id, Product>, table: map<Id, OrderItem>, first: Id,
                           lines: seq<OrderLine>, now: int): map<Id, OrderItem>
    requires ProductTableValid(products)
    decreases |lines|
  {
    if lines == [] || !Resolves(products, lines[0]) then table
    else SaveLines(products, table[first := ItemFor(products, lines[0], now)], first + 1, lines[1..], now)
  }

  /** Ids below `first` keep what they held, and every new id lies in the
      range the counter handed out. */
  lemma {:induction false} SaveLinesKeep(products: map<Id, Product>, table: map<Id, OrderItem>, first: Id,
                                         lines: seq<OrderLine>, now: int)
    requires ProductTableValid(products)
    ensures var saved := SaveLines(products, table, first, lines, now);
      && (forall id :: id < first ==> (id in saved <==> id in table))
      && (forall id :: id < first && id in table ==> saved[id] == table[id])
      && (forall id :: id in saved ==> id in table || first <= id < first + ResolvedPrefix(products, lines))
    decreases |lines|
  {
    if lines != [] && Resolves(products, lines[0]) {
      var next := table[first := ItemFor(products, lines[0], now)];
      SaveLinesKeep(products, next, first + 1, lines[1..], now);
      assert SaveLines(products, table, first, lines, now) == SaveLines(products, next, first + 1, lines[1..], now);
      assert ResolvedPrefix(products, lines) == 1 + ResolvedPrefix(products, lines[1..]);
    }
  }

  /** Request line k of the resolving prefix is saved under id first + k. */
  lemma {:induction false} SaveLinesRead(products: map<Id, Product>, table: map<Id, OrderItem>, first: Id,
                                         lines: seq<OrderLine>, now: int, k: nat)
    requires ProductTableValid(products) && k < ResolvedPrefix(products, lines)
    ensures first + k in SaveLines(products, table, first, lines, now)
    ensures SaveLines(products, table, first, lines, now)[first + k] == ItemFor(products, lines[k], now)
    decreases |lines|
  {
    var next := table[first := ItemFor(products, lines[0], now)];
    assert SaveLines(products, table, first, lines, now) == SaveLines(products, next, first + 1, lines[1..], now);
    if k == 0 {
      SaveLinesKeep(products, next, first + 1, lines[1..], now);
      assert first in next;
    } else {
      SaveLinesRead(products, next, first + 1, lines[1..], now, k - 1);
      assert lines[1..][k - 1] == lines[k];
    }
  }

  /** The header POST / saves: the collected line ids, the request's fields,
      the total, and the status "Pending" when the request gives none. */
  function Header(req: OrderRequest, itemIds: seq<Id>, total: int, now: int): (o: Order)
    ensures o.orderItems == itemIds && o.totalPrice == total && o.user == req.user
    ensures o.status == (if req.status == "" then DefaultStatus else req.status)
  {
    Order(itemIds, req.shippingAddress1, req.shippingAddress2, req.state, req.zip, req.country,
          req.phone, total, req.user, now, OrElse(req.status, DefaultStatus))
  }

  /** The error the first unresolved line raises: text that is not an id
      fails the cast, an id of no product is reported as not found. */
  function UnresolvedReply(line: OrderLine): (r: Reply)
    ensures r.code == 500
  {
    if line.product.NotAnId? then Reply(500, CastError)
    else Reply(500, NotFoundError)
  }

  // ---------------------------------------------------------------------
  // POST /

  /** The first step of POST /: for each request line in turn, look up the
      product and save an order line with its price; stop at the first
      line whose product does not resolve. */
  method CreateItems(db: Database, lines: seq<OrderLine>, now: int) returns (itemIds: seq<Id>)
    requires db.Valid()
    modifies db`orderItems, db`nextId
    ensures db.Valid()
    ensures itemIds == IdsFrom(old(db.nextId), ResolvedPrefix(db.products, lines))
    ensures db.nextId == old(db.nextId) + |itemIds|
    ensures db.orderItems == SaveLines(db.products, old(db.orderItems), old(db.nextId), lines, now)
  {
    itemIds := [];
    var i := 0;
    while i < |lines| && Resolves(db.products, lines[i])
      invariant i <= |lines|
      invariant db.Valid()
      invariant itemIds == IdsFrom(old(db.nextId), i)
      invariant db.nextId == old(db.nextId) + i
      invariant i + ResolvedPrefix(db.products, lines[i..]) == ResolvedPrefix(db.products, lines)
      invariant SaveLines(db.products, db.orderItems, db.nextId, lines[i..], now)
                == SaveLines(db.products, old(db.orderItems), old(db.nextId), lines, now)
    {
      var item := ItemFor(db.products, lines[i], now);
      var id := db.IssueId();
      db.PutOrderItem(id, item);
      assert lines[i..][1..] == lines[i + 1..];
      itemIds := itemIds + [id];
      i := i + 1;
    }
  }

  /** The second step of POST /: re-read each saved line and add up the
      product's price times the line's quantity. */
  method SumLines(db: Database, lines: seq<OrderLine>, itemIds: seq<Id>) returns (total: int)
    requires db.Valid() && AllResolve(db.products, lines) && |itemIds| == |lines|
    requires forall k :: 0 <= k < |itemIds| ==>
               && itemIds[k] in db.orderItems
               && db.orderItems[itemIds[k]].product == lines[k].product.id
               && db.orderItems[itemIds[k]].quantity == QuantityOf(lines[k])
    ensures total == LinesTotal(db.products, lines)
  {
    total := 0;
    var j := 0;
    while j < |itemIds|
      invariant j <= |itemIds|
      invariant total == LinesTotal(db.products, lines[..j])
    {
      var item := db.orderItems[itemIds[j]];
      assert lines[..j + 1][..j] == lines[..j];
      total := total + db.products[item.product].price.value * item.quantity;
      j := j + 1;
    }
    assert lines[..j] == lines;
  }

  /** What POST / leaves behind: the reply, the ids of the saved order
      lines, the id of the saved header if any, and the two tables. */
  datatype Placement = Placement(
    reply: Reply,
    itemIds: seq<Id>,
    orderId: Option<Id>,
    orderItems: map<Id, OrderItem>,
    orders: map<Id, Order>)

  /** `n` consecutive ids starting at `first`: the ids the counter hands out. */
  function IdsFrom(first: Id, n: nat): (ids: seq<Id>)
    ensures |ids| == n && forall k :: 0 <= k < n ==> ids[k] == first + k
  {
    seq(n, k => first + k)
  }

  /** The documents a list of ids names, in list order. */
  ghost function ReadBack(table: map<Id, OrderItem>, ids: seq<Id>): (items: seq<OrderItem>)
    requires forall k :: 0 <= k < |ids| ==> ids[k] in table
    ensures |items| == |ids| && forall k :: 0 <= k < |ids| ==> items[k] == table[ids[k]]
  {
    seq(|ids|, k requires 0 <= k < |ids| => table[ids[k]])
  }

  /** POST / as a whole. Without a list of lines the handler throws before
      writing. Otherwise a line is saved for each request line until the
      first whose product does not resolve, which ends the request with an
      error and leaves the saved lines behind. When all resolve, the header
      carries the live total and is saved only if it passes validation. */
  ghost function PlaceSpec(products: map<Id, Product>, orderItems: map<Id, OrderItem>,
                           orders: map<Id, Order>, nextId: Id, req: OrderRequest, now: int): Placement
    requires ProductTableValid(products)
  {
    if req.orderItems.None? then
      Placement(Reply(500, NoLinesError), [], None, orderItems, orders)
    else
      var lines := req.orderItems.value;
      var n := ResolvedPrefix(products, lines);
      var ids := IdsFrom(nextId, n);
      var saved := SaveLines(products, orderItems, nextId, lines, now);
      if n < |lines| then
        Placement(UnresolvedReply(lines[n]), ids, None, saved, orders)
      else
        var h := Header(req, ids, LinesTotal(products, lines), now);
        if ValidOrder(h) then
          Placement(Reply(200, ""), ids, Some(nextId + n), saved, orders[nextId + n := h])
        else
          Placement(Reply(500, ValidationError), ids, None, saved, orders)
  }

  /** The reply is 200 exactly when a header is saved; any other reply is
      a 500 that leaves the orders as they were; a saved header takes a
      fresh id after those of its lines, names those lines and passes
      validation, and nothing else in the order table changes. */
  lemma PlaceSpecOrders(products: map<Id, Product>, orderItems: map<Id, OrderItem>,
                        orders: map<Id, Order>, nextId: Id, req: OrderRequest, now: int)
    requires ProductTableValid(products) && KeysBelow(orders, nextId)
    ensures var r := PlaceSpec(products, orderItems, orders, nextId, req, now);
      && (r.orderId.Some? <==> r.reply.code == 200)
      && (r.reply.code != 200 ==> r.reply.code == 500 && r.orders == orders)
      && (r.orderId.Some? ==>
            && r.orderId.value == nextId + |r.itemIds| && r.orderId.value !in orders
            && r.orderId.value in r.orders
            && r.orders == orders[r.orderId.value := r.orders[r.orderId.value]]
            && ValidOrder(r.orders[r.orderId.value])
            && r.orders[r.orderId.value].orderItems == r.itemIds)
  {
  }

  /** Every line saved before is kept; the new lines sit exactly under the
      returned ids, which are consecutive and fresh. */
  lemma PlaceSpecLines(products: map<Id, Product>, orderItems: map<Id, OrderItem>,
                       orders: map<Id, Order>, nextId: Id, req: OrderRequest, now: int)
    requires ProductTableValid(products) && KeysBelow(orderItems, nextId)
    ensures var r := PlaceSpec(products, orderItems, orders, nextId, req, now);
      && (forall k :: 0 <= k < |r.itemIds| ==> r.itemIds[k] == nextId + k && r.itemIds[k] !in orderItems)
      && (forall id :: id in orderItems ==> id in r.orderItems && r.orderItems[id] == orderItems[id])
      && (forall id :: id in r.orderItems ==> id in orderItems || nextId <= id < nextId + |r.itemIds|)
  {
    if req.orderItems.Some? {
      SaveLinesKeep(products, orderItems, nextId, req.orderItems.value, now);
    }
  }

  /** When every line resolves, reading the saved lines back through their
      ids gives the lines' snapshot prices, and their total is the live
      total of the request. */
  lemma SavedLinesTotal(products: map<Id, Product>, table: map<Id, OrderItem>, first: Id,
                        lines: seq<OrderLine>, now: int)
    requires ProductTableValid(products) && AllResolve(products, lines)
    ensures var saved := SaveLines(products, table, first, lines, now);
      var ids := IdsFrom(first, |lines|);
      && (forall k :: 0 <= k < |ids| ==> ids[k] in saved)
      && ItemsTotal(ReadBack(saved, ids)) == LinesTotal(products, lines)
  {
    var saved := SaveLines(products, table, first, lines, now);
    var ids := IdsFrom(first, |lines|);
    assert ResolvedPrefix(products, lines) == |lines|;
    ItemsForAt(products, lines, now);
    forall k | 0 <= k < |ids|
      ensures ids[k] in saved && saved[ids[k]] == ItemsFor(products, lines, now)[k]
    {
      SaveLinesRead(products, table, first, lines, now, k);
    }
    assert ReadBack(saved, ids) == ItemsFor(products, lines, now);
    SnapshotTotal(products, lines, now);
  }

  /** On success, the header's total is the sum of its saved lines' price
      snapshots times their quantities, read back through the line ids. */
  lemma PlacedTotalMatchesLines(products: map<Id, Product>, orderItems: map<Id, OrderItem>,
                                orders: map<Id, Order>, nextId: Id, req: OrderRequest, now: int)
    requires ProductTableValid(products)
    requires PlaceSpec(products, orderItems, orders, nextId, req, now).orderId.Some?
    ensures var r := PlaceSpec(products, orderItems, orders, nextId, req, now);
      && (forall k :: 0 <= k < |r.itemIds| ==> r.itemIds[k] in r.orderItems)
      && r.orders[r.orderId.value].totalPrice == ItemsTotal(ReadBack(r.orderItems, r.itemIds))
  {
    var lines := req.orderItems.value;
    assert ResolvedPrefix(products, lines) == |lines|;
    assert AllResolve(products, lines);
    SavedLinesTotal(products, orderItems, nextId, lines, now);
  }

  /** The last steps of POST / once every line is saved: add up the total,
      build the header and save it when it passes validation. */
  method SaveHeader(db: Database, req: OrderRequest, lines: seq<OrderLine>, itemIds: seq<Id>, now: int)
    returns (reply: Reply, orderId: Option<Id>)
    requires db.Valid() && AllResolve(db.products, lines) && |itemIds| == |lines|
    requires forall k :: 0 <= k < |itemIds| ==>
               itemIds[k] in db.orderItems && db.orderItems[itemIds[k]] == ItemFor(db.products, lines[k], now)
    modifies db`orders, db`nextId
    ensures db.Valid()
    ensures var h := Header(req, itemIds, LinesTotal(db.products, lines), now);
      if ValidOrder(h) then
        reply == Reply(200, "") && orderId == Some(old(db.nextId)) && db.orders == old(db.orders)[old(db.nextId) := h]
      else
        reply == Reply(500, ValidationError) && orderId.None? && db.orders == old(db.orders)
  {
    var total := SumLines(db, lines, itemIds);
    var h := Header(req, itemIds, total, now);
    if !ValidOrder(h) {
      return Reply(500, ValidationError), None;
    }
    var id := db.IssueId();
    db.PutOrder(id, h);
    reply := Reply(200, "");
    orderId := Some(id);
  }

  /** POST /: does what PlaceSpec describes (see PlaceSpecOrders, PlaceSpecLines and PlacedTotalMatchesLines). */
  method PlaceOrder(db: Database, req: OrderRequest, now: int)
    returns (reply: Reply, itemIds: seq<Id>, orderId: Option<Id>)
    requires db.Valid()
    modifies db`orderItems, db`orders, db`nextId
    ensures db.Valid()
    ensures Placement(reply, itemIds, orderId, db.orderItems, db.orders)
            == PlaceSpec(db.products, old(db.orderItems), old(db.orders), old(db.nextId), req, now)
  {
    if req.orderItems.None? {
      return Reply(500, NoLinesError), [], None;
    }
    var lines := req.orderItems.value;
    itemIds := CreateItems(db, lines, now);
    var n := |itemIds|;
    if n < |lines| {
      return UnresolvedReply(lines[n]), itemIds, None;
    }
    forall k | 0 <= k < n
      ensures itemIds[k] in db.orderItems && db.orderItems[itemIds[k]] == ItemFor(db.products, lines[k], now)
    {
      SaveLinesRead(db.products, old(db.orderItems), old(db.nextId), lines, now, k);
    }
    reply, orderId := SaveHeader(db, req, lines, itemIds, now);
  }

  // ---------------------------------------------------------------------
  // PUT /:id and DELETE /:id

  /** What PUT /:id decides: a malformed id is 400, an absent order 500;
      otherwise the order with only its status replaced (an absent status
      is stripped from the update and changes nothing). */
  function StatusOutcome(orders: map<Id, Order>, target: IdParam, status: Option<string>)
    : (r: Result<(Id, Order)>)
    ensures target.NotAnId? ==> r == Fail(Reply(400, "Invalid order ID"))
    ensures target.ObjectId? && target.id !in orders ==> r == Fail(Reply(500, "Order not found"))
    ensures r.Ok? <==> target.ObjectId? && target.id in orders
    ensures r.Ok? ==>
              var o := orders[target.id];
              && r.value.0 == target.id
              && r.value.1 == o.(status := r.value.1.status)
              && (status.Some? ==> r.value.1.status == status.value)
              && (status.None? ==> r.value.1 == o)
  {
    if target.NotAnId? then Fail(Reply(400, "Invalid order ID"))
    else if target.id !in orders then Fail(Reply(500, "Order not found"))
    else
      var o := orders[target.id];
      Ok((target.id, o.(status := UpdatedField(status, o.status))))
  }

  /** PUT /:id: replaces the matching order's status and nothing else. */
  method UpdateStatus(db: Database, target: IdParam, status: Option<string>) returns (reply: Reply)
    requires db.Valid()
    modifies db`orders
    ensures db.Valid()
    ensures var r := StatusOutcome(old(db.orders), target, status);
      && (r.Fail? ==> reply == r.reply && db.orders == old(db.orders))
      && (r.Ok? ==> reply == Reply(200, "") && db.orders == old(db.orders)[r.value.0 := r.value.1])
  {
    var outcome := StatusOutcome(db.orders, target, status);
    if outcome.Fail? {
      return outcome.reply;
    }
    var (id, o) := outcome.value;
    OrderDefaults(db.orders[id], 0, 0, 0, o.status);
    db.PutOrder(id, o);
    reply := Reply(200, "");
  }

  /** DELETE /:id: removes exactly the matching order header; its order
      lines are not removed. */
  method DeleteOrder(db: Database, target: IdParam) returns (reply: Reply)
    requires db.Valid()
    modifies db`orders
    ensures db.Valid()
    ensures target.NotAnId? ==> reply == Reply(400, "Invalid order ID") && db.orders == old(db.orders)
    ensures target.ObjectId? && target.id !in old(db.orders) ==>
              reply == Reply(500, "Order not found") && db.orders == old(db.orders)
    ensures target.ObjectId? && target.id in old(db.orders) ==>
              reply == Reply(200, "Order deleted successfully") && db.orders == old(db.orders) - {target.id}
  {
    if target.NotAnId? {
      return Reply(400, "Invalid order ID");
    }
    if target.id !in db.orders {
      return Reply(500, "Order not found");
    }
    db.RemoveOrder(target.id);
    reply := Reply(200, "Order deleted successfully");
  }

  // ---------------------------------------------------------------------
  // Total sales, order count, a user's orders

  /** A set of ids holding `n` has a least element: either `n` is one, or
      a smaller member of the set has one. */
  lemma {:induction false} MinimumExists(s: set<Id>, n: Id)
    requires n in s
    ensures exists k :: k in s && forall j :: j in s ==> k <= j
    decreases n
  {
    if exists j :: j in s && j < n {
      var j :| j in s && j < n;
      MinimumExists(s, j);
    } else {
      assert forall j :: j in s ==> n <= j;
    }
  }

  /** The smallest id of a non-empty set. */
  function MinKey(s: set<Id>): (k: Id)
    requires s != {}
    ensures k in s && forall j :: j in s ==> k <= j
  {
    var n :| n in s;
    MinimumExists(s, n);
    var k :| k in s && forall j :: j in s ==> k <= j;
    k
  }

  /** The `$sum` of `totalPrice` over every order, taken in id order. */
  function SalesSum(orders: map<Id, Order>): int
    decreases |orders|
  {
    if orders == map[] then 0
    else
      var k := MinKey(orders.Keys);
      assert |orders - {k}| < |orders| by {
        assert (orders - {k}).Keys == orders.Keys - {k};
      }
      orders[k].totalPrice + SalesSum(orders - {k})
  }

  /** The sum does not depend on the order of summation: any one order can
      be taken out first. */
  lemma {:induction false} SalesSumTakeOut(orders: map<Id, Order>, id: Id)
    requires id in orders
    ensures SalesSum(orders) == orders[id].totalPrice + SalesSum(orders - {id})
    decreases |orders|
  {
    var k := MinKey(orders.Keys);
    if k != id {
      var rest := orders - {k};
      assert |rest| < |orders| by {
        assert rest.Keys == orders.Keys - {k};
      }
      SalesSumTakeOut(rest, id);
      var without := orders - {id};
      assert without.Keys == orders.Keys - {id};
      assert MinKey(without.Keys) == k by {
        assert k in without.Keys;
        assert MinKey(without.Keys) <= k;
        assert k <= MinKey(without.Keys);
      }
      assert rest - {id} == without - {k};
    }
  }

  /** Placing an order adds its total to the total sales. */
  lemma SalesSumInsert(orders: map<Id, Order>, id: Id, o: Order)
    requires id !in orders
    ensures SalesSum(orders[id := o]) == SalesSum(orders) + o.totalPrice
  {
    SalesSumTakeOut(orders[id := o], id);
    assert orders[id := o] - {id} == orders;
  }

  /** Deleting an order takes its total off the total sales. */
  lemma SalesSumRemove(orders: map<Id, Order>, id: Id)
    requires id in orders
    ensures SalesSum(orders - {id}) == SalesSum(orders) - orders[id].totalPrice
  {
    SalesSumTakeOut(orders, id);
  }

  /** A status update leaves the total sales as they were. */
  lemma SalesSumIgnoresStatus(orders: map<Id, Order>, id: Id, status: string)
    requires id in orders
    ensures SalesSum(orders[id := orders[id].(status := status)]) == SalesSum(orders)
  {
    var updated := orders[id := orders[id].(status := status)];
    SalesSumTakeOut(orders, id);
    SalesSumTakeOut(updated, id);
    assert updated - {id} == orders - {id};
  }

  /** GET /get/totalsales behind `auth` and `sellerAuth`: the sum of
      `totalPrice` over all orders; with no orders the aggregation returns
      an empty list and reading its last element throws (500). */
  function TotalSales(cred: Credential, orders: map<Id, Order>): (r: Result<int>)
    ensures Guard(cred, true).Fail? ==> r == Fail(Guard(cred, true).reply)
    ensures Guard(cred, true).Ok? && orders == map[] ==>
              r == Fail(Reply(500, "Cannot read properties of undefined (reading 'totalSales')"))
    ensures r.Ok? <==> Guard(cred, true).Ok? && orders != map[]
    ensures r.Ok? ==> r.value == SalesSum(orders)
  {
    match Guard(cred, true)
    case Fail(e) => Fail(e)
    case Ok(_) =>
      if orders == map[] then Fail(Reply(500, "Cannot read properties of undefined (reading 'totalSales')"))
      else Ok(SalesSum(orders))
  }

  /** GET /get/count behind `auth` and `sellerAuth`: the number of orders;
      a count of 0 is falsy and reported as an error. */
  function OrderCount(cred: Credential, orders: map<Id, Order>): (r: Result<nat>)
    ensures Guard(cred, true).Fail? ==> r == Fail(Guard(cred, true).reply)
    ensures r.Ok? <==> Guard(cred, true).Ok? && |orders| > 0
    ensures r.Ok? ==> r.value == |orders|
    ensures Guard(cred, true).Ok? && |orders| == 0 ==> r == Fail(Reply(500, "Order count not found"))
  {
    match Guard(cred, true)
    case Fail(e) => Fail(e)
    case Ok(_) =>
      if |orders| == 0 then Fail(Reply(500, "Order count not found"))
      else Ok(|orders|)
  }

  /** The rejection of a populate whose path the schema does not have:
      the header's field is `orderItems`, the handler asks for `orderitems`. */
  const UnknownPopulatePath :=
    "Cannot populate path `orderitems` because it is not in your schema. Set the `strictPopulate` option to false to override."

  /** GET /get/userorders/:userid as written. The query populates the path
      `orderitems`, which the header schema does not have. The populate
      step is skipped when the query finds nothing, so an empty result is
      still 404; when it finds any order the query rejects, and the catch
      answers 500 with the rejection's message. */
  function UserOrdersAsWritten(cred: Credential, orders: map<Id, Order>, user: IdParam): (r: Result<set<Id>>)
    ensures r.Fail?
    ensures Guard(cred, true).Fail? ==> r == Fail(Guard(cred, true).reply)
    ensures Guard(cred, true).Ok? && user.NotAnId? ==> r == Fail(Reply(400, "Invalid user ID"))
    ensures Guard(cred, true).Ok? && user.ObjectId? ==>
              ((r.reply == Reply(404, "No orders found for this user"))
                 <==> forall id :: id in orders ==> orders[id].user != Some(user.id))
    ensures Guard(cred, true).Ok? && user.ObjectId? ==>
              ((r.reply == Reply(500, UnknownPopulatePath))
                 <==> exists id :: id in orders && orders[id].user == Some(user.id))
    ensures UserOrders(cred, orders, user).Fail? ==> r == UserOrders(cred, orders, user)
  {
    match UserOrders(cred, orders, user)
    case Fail(e) => Fail(e)
    case Ok(_) => Fail(Reply(500, UnknownPopulatePath))
  }

  /** One order of user 5 under id 3, asked for by an admin: the code as
      written answers 500, while the intended code answers with order 3. */
  lemma UserOrdersCounterexample()
    ensures var cred := Verified(Claims(1, "admin@example.com", "admin"));
      var orders := map[3 := Order([], "1 Main St", "Flat 2", "Lagos", "100001", "Nigeria",
                                   "+2348012345678", 0, Some(5), 0)];
      && UserOrdersAsWritten(cred, orders, ObjectId(5)) == Fail(Reply(500, UnknownPopulatePath))
      && UserOrders(cred, orders, ObjectId(5)) == Ok({3})
  {
    var cred := Verified(Claims(1, "admin@example.com", "admin"));
    var orders := map[3 := Order([], "1 Main St", "Flat 2", "Lagos", "100001", "Nigeria",
                                 "+2348012345678", 0, Some(5), 0)];
    var r := UserOrders(cred, orders, ObjectId(5));
    assert orders[3].user == Some(5);
    assert r.Ok?;
    assert r.value == {3};
  }

  /** GET /get/userorders/:userid behind `auth` and `sellerAuth`, as
      evidently intended (populating `orderItems`): exactly the orders
      whose user is the given one; a malformed id is 400 and an empty
      result 404. */
  function UserOrders(cred: Credential, orders: map<Id, Order>, user: IdParam): (r: Result<set<Id>>)
    ensures Guard(cred, true).Fail? ==> r == Fail(Guard(cred, true).reply)
    ensures Guard(cred, true).Ok? && user.NotAnId? ==> r == Fail(Reply(400, "Invalid user ID"))
    ensures r.Ok? ==> user.ObjectId? && r.value != {}
    ensures r.Ok? ==> forall id :: id in r.value <==> id in orders && orders[id].user == Some(user.id)
    ensures Guard(cred, true).Ok? && user.ObjectId? ==>
              (r.Fail? <==> forall id :: id in orders ==> orders[id].user != Some(user.id))
    ensures r.Fail? && Guard(cred, true).Ok? && user.ObjectId? ==>
              r.reply == Reply(404, "No orders found for this user")
  {
    match Guard(cred, true)
    case Fail(e) => Fail(e)
    case Ok(_) =>
      if user.NotAnId? then Fail(Reply(400, "Invalid user ID"))
      else
        var found := set id | id in orders && orders[id].user == Some(user.id);
        assert forall id | id in orders && orders[id].user == Some(user.id) :: id in found;
        if found == {} then Fail(Reply(404, "No orders found for this user"))
        else Ok(found)
  }
}
