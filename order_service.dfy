/**
 * Placing orders: `createOrder` prices a list of requested items, `checkout`
 * turns a user's cart lines into an order and deletes them, and the status of
 * an order can be set to anything. Neither way of creating an order touches
 * product stock.
 */
module OrderService {
  import opened Common
  import opened Entities
  import opened Repositories
  import OrderItemService

  /** One requested item of an order request. */
  datatype ItemRequest = ItemRequest(productId: ProductId, quantity: int)

  /** A freshly made order line: the product's current price, times the quantity. */
  function PricedLine(productId: ProductId, price: Money, quantity: int): OrderLine
  {
    OrderLine(productId, quantity, price, price * quantity)
  }

  /** What one requested item costs at the current catalogue prices. */
  function RequestCost(products: map<ProductId, Product>): ItemRequest -> int
  {
    (it: ItemRequest) => if it.productId in products then products[it.productId].price * it.quantity else 0
  }

  /** What one cart line costs at the current catalogue prices. */
  function RowCost(products: map<ProductId, Product>): CartItem -> int
  {
    (row: CartItem) => if row.product in products then products[row.product].price * row.quantity else 0
  }

  /** An order just placed by `user` for `address`, one line per priced entry of `lines`. */
  predicate PlacedOrder(o: Order, user: UserId, address: AddressId, lines: seq<OrderLine>)
  {
    o == Order(user, address, Pending, lines, OrderTotal(lines))
  }

  /**
   * The loop of `createOrder`: looks every requested product up, in request
   * order, and prices a line for it; the first unknown product aborts.
   */
  method PriceRequestedItems(products: map<ProductId, Product>, items: seq<ItemRequest>)
    returns (r: Result<seq<OrderLine>>, total: Money)
    ensures r.Err? <==> exists i :: 0 <= i < |items| && items[i].productId !in products
    ensures r.Err? ==> r.error == NotFound(ProductRecord)
    ensures r.Ok? ==>
      |r.value| == |items|
      && (forall i :: 0 <= i < |items| ==>
            r.value[i] == PricedLine(items[i].productId, products[items[i].productId].price, items[i].quantity))
      && total == OrderTotal(r.value)
      && total == Sum(items, RequestCost(products))
  {
    var lines: seq<OrderLine> := [];
    total := 0;
    var i := 0;
    while i < |items|
      invariant 0 <= i <= |items| && |lines| == i
      invariant forall k :: 0 <= k < i ==>
        items[k].productId in products
        && lines[k] == PricedLine(items[k].productId, products[items[k].productId].price, items[k].quantity)
      invariant total == OrderTotal(lines) == Sum(items[..i], RequestCost(products))
    {
      var item := items[i];
      if item.productId !in products {
        return Err(NotFound(ProductRecord)), 0;
      }
      var line := PricedLine(item.productId, products[item.productId].price, item.quantity);
      SumAppend(lines, line, LineTotal);
      assert items[..i + 1] == items[..i] + [item];
      SumAppend(items[..i], item, RequestCost(products));
      total := total + line.totalPrice;
      lines := lines + [line];
      i := i + 1;
    }
    assert items[..i] == items;
    r := Ok(lines);
  }

  /**
   * The loop of `checkout`: one line per cart line, same product and
   * quantity, priced at the product's current price.
   */
  method PriceCartRows(products: map<ProductId, Product>, rows: seq<CartItem>)
    returns (lines: seq<OrderLine>, total: Money)
    requires forall row :: row in rows ==> row.product in products
    ensures |lines| == |rows|
    ensures forall i :: 0 <= i < |rows| ==>
      lines[i] == PricedLine(rows[i].product, products[rows[i].product].price, rows[i].quantity)
    ensures total == OrderTotal(lines) == Sum(rows, RowCost(products))
  {
    lines := [];
    total := 0;
    var i := 0;
    while i < |rows|
      invariant 0 <= i <= |rows| && |lines| == i
      invariant forall k :: 0 <= k < i ==>
        lines[k] == PricedLine(rows[k].product, products[rows[k].product].price, rows[k].quantity)
      invariant total == OrderTotal(lines) == Sum(rows[..i], RowCost(products))
    {
      var row := rows[i];
      var line := PricedLine(row.product, products[row.product].price, row.quantity);
      SumAppend(lines, line, LineTotal);
      assert rows[..i + 1] == rows[..i] + [row];
      SumAppend(rows[..i], row, RowCost(products));
      total := total + line.totalPrice;
      lines := lines + [line];
      i := i + 1;
    }
    assert rows[..i] == rows;
  }

  /**
   * `createOrder`: the user, then the shipping address, then every product
   * must exist; the new order is pending and takes the next key.
   */
  method CreateOrder(st: Store, userId: UserId, addressId: AddressId, items: seq<ItemRequest>)
    returns (r: Result<OrderId>)
    requires st.Valid()
    modifies st`orders, st`nextOrderId
    ensures st.Valid()
    ensures st.products == old(st.products)
    ensures userId !in st.users ==> r == Err(NotFound(UserRecord))
    ensures userId in st.users && addressId !in st.addresses ==> r == Err(NotFound(AddressRecord))
    ensures userId in st.users && addressId in st.addresses ==>
      (r.Err? <==> exists i :: 0 <= i < |items| && items[i].productId !in st.products)
    ensures userId in st.users && addressId in st.addresses
              && (exists i :: 0 <= i < |items| && items[i].productId !in st.products)
      ==> r == Err(NotFound(ProductRecord))
    ensures r.Err? ==>
      r.error in {NotFound(UserRecord), NotFound(AddressRecord), NotFound(ProductRecord)}
      && st.orders == old(st.orders) && st.nextOrderId == old(st.nextOrderId)
    ensures r.Ok? ==>
      r.value == old(st.nextOrderId) && r.value !in old(st.orders) && r.value in st.orders
      && st.orders == old(st.orders)[r.value := st.orders[r.value]]
      && var o := st.orders[r.value];
         |o.lines| == |items|
         && (forall i :: 0 <= i < |items| ==>
               o.lines[i] == PricedLine(items[i].productId, st.products[items[i].productId].price, items[i].quantity))
         && PlacedOrder(o, userId, addressId, o.lines)
         && OrderItemService.LinesPriced(o.lines)
         && o.totalAmount == Sum(items, RequestCost(st.products))
  {
    if userId !in st.users {
      return Err(NotFound(UserRecord));
    }
    if addressId !in st.addresses {
      return Err(NotFound(AddressRecord));
    }
    var priced, total := PriceRequestedItems(st.products, items);
    if priced.Err? {
      return Err(priced.error);
    }
    var id := st.nextOrderId;
    st.orders := st.orders[id := Order(userId, addressId, Pending, priced.value, total)];
    st.nextOrderId := st.nextOrderId + 1;
    r := Ok(id);
  }

  /** Cart rows that survive a checkout selection are rows of the table. */
  lemma KeptRowsLinked(st: Store, f: CartItem -> bool)
    requires st.CartItemsWellFormed()
    ensures forall row :: row in Keep(st.cartItems, f) ==>
      RowLinked(row, st.carts, st.products, st.nextCartItemId)
    ensures DistinctIds(Keep(st.cartItems, f))
  {
    KeepDistinctIds(st.cartItems, f);
  }

  /**
   * `checkout`: the user, then the address, must exist and the user's carts
   * must hold at least one line. The new pending order has one line per cart
   * line, in table order, and the user's cart lines are deleted; stock and
   * the cart's stored total are left as they were.
   */
  method Checkout(st: Store, userId: UserId, addressId: AddressId) returns (r: Result<OrderId>)
    requires st.Valid()
    modifies st`orders, st`nextOrderId, st`cartItems
    ensures st.Valid()
    ensures st.products == old(st.products) && st.carts == old(st.carts)
    ensures userId !in st.users ==> r == Err(NotFound(UserRecord))
    ensures userId in st.users && addressId !in st.addresses ==> r == Err(NotFound(AddressRecord))
    ensures userId in st.users && addressId in st.addresses ==>
      (r == Err(EmptyCart) <==> FindByUser(old(st.cartItems), st.carts, userId) == [])
    ensures userId in st.users && addressId in st.addresses && FindByUser(old(st.cartItems), st.carts, userId) != [] ==>
      r.Ok?
    ensures r.Err? ==>
      st.orders == old(st.orders) && st.nextOrderId == old(st.nextOrderId)
      && st.cartItems == old(st.cartItems)
    ensures r.Ok? ==>
      var rows := FindByUser(old(st.cartItems), st.carts, userId);
      rows != [] && (forall row :: row in rows ==> row.product in st.products)
      && r.value == old(st.nextOrderId) && r.value !in old(st.orders) && r.value in st.orders
      && st.orders == old(st.orders)[r.value := st.orders[r.value]]
      && var o := st.orders[r.value];
         |o.lines| == |rows|
         && (forall i :: 0 <= i < |rows| ==>
               o.lines[i] == PricedLine(rows[i].product, st.products[rows[i].product].price, rows[i].quantity))
         && PlacedOrder(o, userId, addressId, o.lines)
         && OrderItemService.LinesPriced(o.lines)
         && o.totalAmount == Sum(rows, RowCost(st.products))
         && st.cartItems == Keep(old(st.cartItems), NotOwnedBy(st.carts, userId))
  {
    if userId !in st.users {
      return Err(NotFound(UserRecord));
    }
    if addressId !in st.addresses {
      return Err(NotFound(AddressRecord));
    }
    var rows := FindByUser(st.cartItems, st.carts, userId);
    if rows == [] {
      return Err(EmptyCart);
    }
    var lines, total := PriceCartRows(st.products, rows);
    var id := st.nextOrderId;
    st.orders := st.orders[id := Order(userId, addressId, Pending, lines, total)];
    st.nextOrderId := st.nextOrderId + 1;
    KeptRowsLinked(st, NotOwnedBy(st.carts, userId));
    st.cartItems := Keep(st.cartItems, NotOwnedBy(st.carts, userId));
    r := Ok(id);
  }

  /** After a checkout the user's carts hold no lines. */
  lemma CheckoutEmptiesUserCarts(rows: seq<CartItem>, carts: map<CartId, CartRow>, u: UserId)
    ensures FindByUser(Keep(rows, NotOwnedBy(carts, u)), carts, u) == []
  {
    KeepExclusive(rows, NotOwnedBy(carts, u), OwnedBy(carts, u));
  }

  /** A checkout leaves every other user's cart lines exactly as they were, in order. */
  lemma {:induction false} CheckoutKeepsOtherCarts(rows: seq<CartItem>, carts: map<CartId, CartRow>, u: UserId, v: UserId)
    requires u != v
    ensures FindByUser(Keep(rows, NotOwnedBy(carts, u)), carts, v) == FindByUser(rows, carts, v)
  {
    if rows != [] {
      var head, tail := [rows[0]], rows[1..];
      assert rows == head + tail;
      CheckoutKeepsOtherCarts(tail, carts, u, v);
      KeepConcat(head, tail, NotOwnedBy(carts, u));
      KeepConcat(Keep(head, NotOwnedBy(carts, u)), Keep(tail, NotOwnedBy(carts, u)), OwnedBy(carts, v));
      KeepConcat(head, tail, OwnedBy(carts, v));
    }
  }

  /** `findById`. */
  function FindById(orders: map<OrderId, Order>, id: OrderId): (r: Result<Order>)
    ensures r.Ok? <==> id in orders
    ensures r.Ok? ==> r.value == orders[id]
    ensures r.Err? ==> r.error == NotFound(OrderRecord)
  {
    if id in orders then Ok(orders[id]) else Err(NotFound(OrderRecord))
  }

  /** `updateStatus`: any status may follow any other; only an unknown order fails. */
  method UpdateStatus(st: Store, id: OrderId, status: OrderStatus) returns (r: Result<Order>)
    requires st.Valid()
    modifies st`orders
    ensures st.Valid()
    ensures id !in old(st.orders) ==> r == Err(NotFound(OrderRecord)) && st.orders == old(st.orders)
    ensures id in old(st.orders) ==>
      r == Ok(old(st.orders)[id].(status := status))
      && st.orders == old(st.orders)[id := old(st.orders)[id].(status := status)]
  {
    if id !in st.orders {
      return Err(NotFound(OrderRecord));
    }
    var o := st.orders[id].(status := status);
    st.orders := st.orders[id := o];
    r := Ok(o);
  }

  /** `delete`: removes the order if there is one, and is silent otherwise. */
  method Delete(st: Store, id: OrderId)
    requires st.Valid()
    modifies st`orders
    ensures st.Valid()
    ensures st.orders == old(st.orders) - {id}
  {
    st.orders := st.orders - {id};
  }
}
