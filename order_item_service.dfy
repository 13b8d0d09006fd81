/**
 * Editing the lines of a pending order. Each edit checks the order, its
 * status, the product and the line in that sequence, then rewrites the line,
 * recomputes the order total from the lines and moves the difference in
 * units between the line and the product's stock.
 *
 * `AddItem`, `UpdateItem` and `RemoveItem` are the reference definitions of
 * one call each, on the two tables involved; the methods are the imperative
 * service operations, proved to agree with them; the lemmas state what the
 * service promises of them.
 */
module OrderItemService {
  import opened Common
  import opened Entities
  import opened Repositories

  /** The part of the database an order-line edit reads and writes. */
  datatype OrderDb = OrderDb(orders: map<OrderId, Order>, products: map<ProductId, Product>)

  /** The outcome of one call: what it returns and the tables afterwards. */
  datatype Step<T> = Step(result: Result<T>, after: OrderDb)

  function LineFor(p: ProductId): OrderLine -> bool
  {
    (l: OrderLine) => l.product == p
  }

  /** `findByOrderAndProduct`: the order's single line for a product. */
  function FindLine(lines: seq<OrderLine>, p: ProductId): Result<Option<nat>>
  {
    FindUnique(lines, LineFor(p))
  }

  /** No product appears on two lines of the order. */
  predicate UniqueProducts(lines: seq<OrderLine>)
  {
    forall i, j :: 0 <= i < j < |lines| ==> lines[i].product != lines[j].product
  }

  /** A line whose quantity is set to `q`, its total priced at the line's own unit price. */
  function WithQuantity(l: OrderLine, q: int): OrderLine
  {
    l.(quantity := q, totalPrice := l.price * q)
  }

  function RemoveAt(lines: seq<OrderLine>, i: nat): seq<OrderLine>
    requires i < |lines|
  {
    lines[..i] + lines[i + 1..]
  }

  /** `updateOrderTotal`. */
  function UpdateOrderTotal(o: Order): (r: Order)
    ensures r.totalAmount == OrderTotal(r.lines)
    ensures r.(totalAmount := o.totalAmount) == o
  {
    o.(totalAmount := OrderTotal(o.lines))
  }

  /** `updateProductStock`. */
  function UpdateProductStock(p: Product, change: int): (r: Product)
    ensures r.stock - p.stock == change
    ensures r.(stock := p.stock) == p
  {
    p.(stock := p.stock + change)
  }

  // ---------------------------------------------------------------------
  // Reference definitions of the three edits

  function AddItem(db: OrderDb, orderId: OrderId, productId: ProductId, quantity: int): (s: Step<OrderLine>)
    ensures s.after.orders.Keys == db.orders.Keys && s.after.products.Keys == db.products.Keys
    ensures s.result.Err? ==> s.after == db
    ensures s.result.Ok? ==>
      orderId in db.orders && db.orders[orderId].status == Pending
      && productId in db.products && quantity <= db.products[productId].stock
  {
    if orderId !in db.orders then Step(Err(NotFound(OrderRecord)), db)
    else if db.orders[orderId].status != Pending then Step(Err(OrderNotModifiable), db)
    else if productId !in db.products then Step(Err(NotFound(ProductRecord)), db)
    else if db.products[productId].stock < quantity then Step(Err(InsufficientStock), db)
    else
      var order := db.orders[orderId];
      var product := db.products[productId];
      match FindLine(order.lines, productId)
      case Err(e) => Step(Err(e), db)
      case Ok(found) =>
        var line :=
          if found.Some? then WithQuantity(order.lines[found.value], order.lines[found.value].quantity + quantity)
          else OrderLine(productId, quantity, product.price, product.price * quantity);
        var lines := if found.Some? then order.lines[found.value := line] else order.lines + [line];
        Step(Ok(line), OrderDb(
          db.orders[orderId := UpdateOrderTotal(order.(lines := lines))],
          db.products[productId := UpdateProductStock(product, -quantity)]))
  }

  function RemoveItem(db: OrderDb, orderId: OrderId, productId: ProductId): (s: Step<OrderLine>)
    ensures s.after.orders.Keys == db.orders.Keys && s.after.products.Keys == db.products.Keys
    ensures s.result.Err? ==> s.after == db
    ensures s.result.Ok? ==>
      orderId in db.orders && db.orders[orderId].status == Pending && productId in db.products
      && s.result.value in db.orders[orderId].lines && s.result.value.product == productId
      && |s.after.orders[orderId].lines| == |db.orders[orderId].lines| - 1
  {
    if orderId !in db.orders then Step(Err(NotFound(OrderRecord)), db)
    else if db.orders[orderId].status != Pending then Step(Err(OrderNotModifiable), db)
    else if productId !in db.products then Step(Err(NotFound(ProductRecord)), db)
    else
      var order := db.orders[orderId];
      var product := db.products[productId];
      match FindLine(order.lines, productId)
      case Err(e) => Step(Err(e), db)
      case Ok(None) => Step(Err(NotFound(OrderItemRecord)), db)
      case Ok(Some(i)) =>
        var line := order.lines[i];
        Step(Ok(line), OrderDb(
          db.orders[orderId := UpdateOrderTotal(order.(lines := RemoveAt(order.lines, i)))],
          db.products[productId := UpdateProductStock(product, line.quantity)]))
  }

  function UpdateItem(db: OrderDb, orderId: OrderId, productId: ProductId, quantity: int): (s: Step<OrderLine>)
    ensures s.after.orders.Keys == db.orders.Keys && s.after.products.Keys == db.products.Keys
    ensures s.result.Err? ==> s.after == db
    ensures s.result.Ok? ==>
      orderId in db.orders && db.orders[orderId].status == Pending && productId in db.products
      && s.result.value.product == productId
  {
    if orderId !in db.orders then Step(Err(NotFound(OrderRecord)), db)
    else if db.orders[orderId].status != Pending then Step(Err(OrderNotModifiable), db)
    else if productId !in db.products then Step(Err(NotFound(ProductRecord)), db)
    else
      var order := db.orders[orderId];
      var product := db.products[productId];
      match FindLine(order.lines, productId)
      case Err(e) => Step(Err(e), db)
      case Ok(None) => Step(Err(NotFound(OrderItemRecord)), db)
      case Ok(Some(i)) =>
        var difference := quantity - order.lines[i].quantity;
        if difference > 0 && product.stock < difference then Step(Err(InsufficientStock), db)
        else if quantity <= 0 then RemoveItem(db, orderId, productId)
        else
          var line := WithQuantity(order.lines[i], quantity);
          Step(Ok(line), OrderDb(
            db.orders[orderId := UpdateOrderTotal(order.(lines := order.lines[i := line]))],
            db.products[productId := UpdateProductStock(product, -difference)]))
  }

  // ---------------------------------------------------------------------
  // The service operations

  method AddItemToOrder(st: Store, orderId: OrderId, productId: ProductId, quantity: int)
    returns (r: Result<OrderLine>)
    requires st.Valid()
    modifies st`orders, st`products
    ensures st.Valid()
    ensures Step(r, OrderDb(st.orders, st.products))
         == AddItem(OrderDb(old(st.orders), old(st.products)), orderId, productId, quantity)
  {
    if orderId !in st.orders {
      return Err(NotFound(OrderRecord));
    }
    var order := st.orders[orderId];
    if order.status != Pending {
      return Err(OrderNotModifiable);
    }
    if productId !in st.products {
      return Err(NotFound(ProductRecord));
    }
    var product := st.products[productId];
    if product.stock < quantity {
      return Err(InsufficientStock);
    }
    var existing := FindLine(order.lines, productId);
    if existing.Err? {
      return Err(existing.error);
    }
    var line: OrderLine;
    if existing.value.Some? {
      var i := existing.value.value;
      line := WithQuantity(order.lines[i], order.lines[i].quantity + quantity);
      order := order.(lines := order.lines[i := line]);
    } else {
      line := OrderLine(productId, quantity, product.price, product.price * quantity);
      order := order.(lines := order.lines + [line]);
    }
    order := UpdateOrderTotal(order);
    st.products := st.products[productId := UpdateProductStock(product, -quantity)];
    st.orders := st.orders[orderId := order];
    r := Ok(line);
  }

  method RemoveItemFromOrder(st: Store, orderId: OrderId, productId: ProductId)
    returns (r: Result<OrderLine>)
    requires st.Valid()
    modifies st`orders, st`products
    ensures st.Valid()
    ensures Step(r, OrderDb(st.orders, st.products))
         == RemoveItem(OrderDb(old(st.orders), old(st.products)), orderId, productId)
  {
    if orderId !in st.orders {
      return Err(NotFound(OrderRecord));
    }
    var order := st.orders[orderId];
    if order.status != Pending {
      return Err(OrderNotModifiable);
    }
    if productId !in st.products {
      return Err(NotFound(ProductRecord));
    }
    var product := st.products[productId];
    var existing := FindLine(order.lines, productId);
    if existing.Err? {
      return Err(existing.error);
    }
    if existing.value.None? {
      return Err(NotFound(OrderItemRecord));
    }
    var i := existing.value.value;
    var line := order.lines[i];
    st.products := st.products[productId := UpdateProductStock(product, line.quantity)];
    order := order.(lines := RemoveAt(order.lines, i));
    st.orders := st.orders[orderId := UpdateOrderTotal(order)];
    r := Ok(line);
  }

  method UpdateOrderItem(st: Store, orderId: OrderId, productId: ProductId, quantity: int)
    returns (r: Result<OrderLine>)
    requires st.Valid()
    modifies st`orders, st`products
    ensures st.Valid()
    ensures Step(r, OrderDb(st.orders, st.products))
         == UpdateItem(OrderDb(old(st.orders), old(st.products)), orderId, productId, quantity)
  {
    if orderId !in st.orders {
      return Err(NotFound(OrderRecord));
    }
    var order := st.orders[orderId];
    if order.status != Pending {
      return Err(OrderNotModifiable);
    }
    if productId !in st.products {
      return Err(NotFound(ProductRecord));
    }
    var product := st.products[productId];
    var existing := FindLine(order.lines, productId);
    if existing.Err? {
      return Err(existing.error);
    }
    if existing.value.None? {
      return Err(NotFound(OrderItemRecord));
    }
    var i := existing.value.value;
    var difference := quantity - order.lines[i].quantity;
    if difference > 0 && product.stock < difference {
      return Err(InsufficientStock);
    }
    if quantity <= 0 {
      r := RemoveItemFromOrder(st, orderId, productId);
      return;
    }
    var line := WithQuantity(order.lines[i], quantity);
    order := order.(lines := order.lines[i := line]);
    st.products := st.products[productId := UpdateProductStock(product, -difference)];
    st.orders := st.orders[orderId := UpdateOrderTotal(order)];
    r := Ok(line);
  }

  /** The same edit as `RemoveItemFromOrder`, returning nothing. */
  method DeleteOrderItem(st: Store, orderId: OrderId, productId: ProductId) returns (r: Check)
    requires st.Valid()
    modifies st`orders, st`products
    ensures st.Valid()
    ensures var spec := RemoveItem(OrderDb(old(st.orders), old(st.products)), orderId, productId);
      OrderDb(st.orders, st.products) == spec.after
      && (r.Pass? <==> spec.result.Ok?)
      && (r.Fail? ==> r.error == spec.result.error)
  {
    if orderId !in st.orders {
      return Fail(NotFound(OrderRecord));
    }
    var order := st.orders[orderId];
    if order.status != Pending {
      return Fail(OrderNotModifiable);
    }
    if productId !in st.products {
      return Fail(NotFound(ProductRecord));
    }
    var product := st.products[productId];
    var existing := FindLine(order.lines, productId);
    if existing.Err? {
      return Fail(existing.error);
    }
    if existing.value.None? {
      return Fail(NotFound(OrderItemRecord));
    }
    var i := existing.value.value;
    st.products := st.products[productId := UpdateProductStock(product, order.lines[i].quantity)];
    order := order.(lines := RemoveAt(order.lines, i));
    st.orders := st.orders[orderId := UpdateOrderTotal(order)];
    r := Pass;
  }

  // ---------------------------------------------------------------------
  // What the edits promise

  predicate StocksNonNegative(db: OrderDb)
  {
    forall p :: p in db.products ==> db.products[p].stock >= 0
  }

  predicate QuantitiesNonNegative(lines: seq<OrderLine>)
  {
    forall i :: 0 <= i < |lines| ==> lines[i].quantity >= 0
  }

  /** Every stored order total equals the sum of its line totals. */
  predicate TotalsConsistent(db: OrderDb)
  {
    forall o :: o in db.orders ==> db.orders[o].totalAmount == OrderTotal(db.orders[o].lines)
  }

  /** Only a pending order can be edited; any other status is refused and nothing changes. */
  lemma EditsRequirePendingOrder(db: OrderDb, orderId: OrderId, productId: ProductId, quantity: int)
    requires orderId in db.orders && db.orders[orderId].status != Pending
    ensures AddItem(db, orderId, productId, quantity) == Step(Err(OrderNotModifiable), db)
    ensures UpdateItem(db, orderId, productId, quantity) == Step(Err(OrderNotModifiable), db)
    ensures RemoveItem(db, orderId, productId) == Step(Err(OrderNotModifiable), db)
  {
  }

  /** A refused edit leaves both tables as they were. */
  lemma FailedEditsChangeNothing(db: OrderDb, orderId: OrderId, productId: ProductId, quantity: int)
    ensures AddItem(db, orderId, productId, quantity).result.Err? ==> AddItem(db, orderId, productId, quantity).after == db
    ensures RemoveItem(db, orderId, productId).result.Err? ==> RemoveItem(db, orderId, productId).after == db
    ensures UpdateItem(db, orderId, productId, quantity).result.Err? ==> UpdateItem(db, orderId, productId, quantity).after == db
  {
  }

  /**
   * Adding succeeds exactly when the order exists and is pending, the product
   * exists, its stock covers the quantity and the order has at most one line
   * for it; no check is made that the quantity is positive.
   */
  lemma AddItemSucceedsIff(db: OrderDb, orderId: OrderId, productId: ProductId, quantity: int)
    ensures AddItem(db, orderId, productId, quantity).result.Ok? <==>
      orderId in db.orders && db.orders[orderId].status == Pending
      && productId in db.products && db.products[productId].stock >= quantity
      && FindLine(db.orders[orderId].lines, productId).Ok?
    ensures productId in db.products && db.products[productId].stock < quantity ==>
      AddItem(db, orderId, productId, quantity).result == Err(InsufficientStock)
        || AddItem(db, orderId, productId, quantity).result == Err(NotFound(OrderRecord))
        || AddItem(db, orderId, productId, quantity).result == Err(OrderNotModifiable)
  {
  }

  /**
   * A successful add touches only that order and that product: an existing
   * line for the product grows by the quantity and is repriced at its own
   * unit price, otherwise a new line at the product's current price is
   * appended; the stock drops by the quantity.
   */
  lemma AddItemEffect(db: OrderDb, orderId: OrderId, productId: ProductId, quantity: int)
    requires AddItem(db, orderId, productId, quantity).result.Ok?
    ensures var s := AddItem(db, orderId, productId, quantity);
      var lines := db.orders[orderId].lines;
      var lines' := s.after.orders[orderId].lines;
      var product := db.products[productId];
      s.after.orders.Keys == db.orders.Keys && s.after.products.Keys == db.products.Keys
      && (forall o :: o in db.orders && o != orderId ==> s.after.orders[o] == db.orders[o])
      && (forall p :: p in db.products && p != productId ==> s.after.products[p] == db.products[p])
      && s.after.products[productId] == product.(stock := product.stock - quantity)
      && s.after.orders[orderId].status == Pending
      && s.result.value.product == productId
      && s.result.value.totalPrice == s.result.value.price * s.result.value.quantity
      && match FindLine(lines, productId)
         case Ok(Some(i)) =>
           lines' == lines[i := s.result.value]
           && s.result.value.quantity == lines[i].quantity + quantity
           && s.result.value.price == lines[i].price
         case _ =>
           lines' == lines + [s.result.value]
           && s.result.value == OrderLine(productId, quantity, product.price, product.price * quantity)
  {
  }

  lemma QtyOfUpdate(lines: seq<OrderLine>, i: nat, line: OrderLine, p: ProductId)
    requires i < |lines|
    ensures QtyOf(lines[i := line], p) == QtyOf(lines, p) - QuantityOf(p)(lines[i]) + QuantityOf(p)(line)
  {
    SumUpdate(lines, i, line, QuantityOf(p));
  }

  /**
   * Stock conservation for adding: for every product, the units in stock
   * plus the units on this order's lines are the same before and after.
   */
  lemma AddItemConservesStock(db: OrderDb, orderId: OrderId, productId: ProductId, quantity: int, p: ProductId)
    requires AddItem(db, orderId, productId, quantity).result.Ok?
    requires p in db.products
    ensures var after := AddItem(db, orderId, productId, quantity).after;
      orderId in db.orders && orderId in after.orders && p in after.products
      && after.products[p].stock + QtyOf(after.orders[orderId].lines, p)
         == db.products[p].stock + QtyOf(db.orders[orderId].lines, p)
  {
    var lines := db.orders[orderId].lines;
    var product := db.products[productId];
    var found := FindLine(lines, productId);
    if found.value.Some? {
      var i := found.value.value;
      QtyOfUpdate(lines, i, WithQuantity(lines[i], lines[i].quantity + quantity), p);
    } else {
      SumAppend(lines, OrderLine(productId, quantity, product.price, product.price * quantity), QuantityOf(p));
    }
  }

  /** Stock conservation for removing a line: its units go back to the product. */
  lemma RemoveItemConservesStock(db: OrderDb, orderId: OrderId, productId: ProductId, p: ProductId)
    requires RemoveItem(db, orderId, productId).result.Ok?
    requires p in db.products
    ensures var after := RemoveItem(db, orderId, productId).after;
      orderId in db.orders && orderId in after.orders && p in after.products
      && after.products[p].stock + QtyOf(after.orders[orderId].lines, p)
         == db.products[p].stock + QtyOf(db.orders[orderId].lines, p)
  {
    var lines := db.orders[orderId].lines;
    var i := FindLine(lines, productId).value.value;
    SumRemove(lines, i, QuantityOf(p));
  }

  /** Stock conservation for changing a line's quantity, including the removal path. */
  lemma UpdateItemConservesStock(db: OrderDb, orderId: OrderId, productId: ProductId, quantity: int, p: ProductId)
    requires UpdateItem(db, orderId, productId, quantity).result.Ok?
    requires p in db.products
    ensures var after := UpdateItem(db, orderId, productId, quantity).after;
      orderId in db.orders && orderId in after.orders && p in after.products
      && after.products[p].stock + QtyOf(after.orders[orderId].lines, p)
         == db.products[p].stock + QtyOf(db.orders[orderId].lines, p)
  {
    var lines := db.orders[orderId].lines;
    var i := FindLine(lines, productId).value.value;
    if quantity <= 0 {
      RemoveItemConservesStock(db, orderId, productId, p);
    } else {
      QtyOfUpdate(lines, i, WithQuantity(lines[i], quantity), p);
    }
  }

  /** Every line's total is its unit price times its quantity. */
  predicate LinesPriced(lines: seq<OrderLine>)
  {
    forall i :: 0 <= i < |lines| ==> lines[i].totalPrice == lines[i].price * lines[i].quantity
  }

  /**
   * After adding, the order's total is the sum of its line totals: the
   * previous sum, less the old total of a merged line, plus the new line
   * total; on correctly priced lines that is exactly unit price times the
   * quantity added.
   */
  lemma AddItemTotal(db: OrderDb, orderId: OrderId, productId: ProductId, quantity: int)
    requires AddItem(db, orderId, productId, quantity).result.Ok?
    ensures TotalsConsistent(db) ==> TotalsConsistent(AddItem(db, orderId, productId, quantity).after)
    ensures var s := AddItem(db, orderId, productId, quantity);
      var lines := db.orders[orderId].lines;
      var order' := s.after.orders[orderId];
      var found := FindLine(lines, productId).value;
      order'.totalAmount == OrderTotal(order'.lines)
      && order'.totalAmount
         == OrderTotal(lines) + s.result.value.totalPrice - (if found.Some? then lines[found.value].totalPrice else 0)
      && (LinesPriced(lines) ==>
            LinesPriced(order'.lines) && order'.totalAmount == OrderTotal(lines) + s.result.value.price * quantity)
  {
    var lines := db.orders[orderId].lines;
    var found := FindLine(lines, productId).value;
    if found.Some? {
      var i := found.value;
      var line := WithQuantity(lines[i], lines[i].quantity + quantity);
      SumUpdate(lines, i, line, LineTotal);
      assert line.price * (lines[i].quantity + quantity) == line.price * lines[i].quantity + line.price * quantity;
    } else {
      var product := db.products[productId];
      SumAppend(lines, OrderLine(productId, quantity, product.price, product.price * quantity), LineTotal);
    }
  }

  /** Rewriting one order with a total that agrees with its lines keeps every total consistent. */
  lemma RewrittenOrderKeepsTotals(db: OrderDb, orderId: OrderId, after: OrderDb)
    requires orderId in after.orders && after.orders == db.orders[orderId := after.orders[orderId]]
    requires after.orders[orderId].totalAmount == OrderTotal(after.orders[orderId].lines)
    ensures TotalsConsistent(db) ==> TotalsConsistent(after)
  {
  }

  /** After removing, the order's total is the previous sum less the removed line's total. */
  lemma RemoveItemTotal(db: OrderDb, orderId: OrderId, productId: ProductId)
    requires RemoveItem(db, orderId, productId).result.Ok?
    ensures TotalsConsistent(db) ==> TotalsConsistent(RemoveItem(db, orderId, productId).after)
    ensures var s := RemoveItem(db, orderId, productId);
      var lines := db.orders[orderId].lines;
      var order' := s.after.orders[orderId];
      order'.totalAmount == OrderTotal(order'.lines)
      && order'.totalAmount == OrderTotal(lines) - s.result.value.totalPrice
      && (LinesPriced(lines) ==> LinesPriced(order'.lines))
  {
    var lines := db.orders[orderId].lines;
    var i := FindLine(lines, productId).value.value;
    SumRemove(lines, i, LineTotal);
    var rest := RemoveAt(lines, i);
    assert forall k :: 0 <= k < |rest| ==> rest[k] == (if k < i then lines[k] else lines[k + 1]);
    RewrittenOrderKeepsTotals(db, orderId, RemoveItem(db, orderId, productId).after);
  }

  /**
   * After changing a line to a positive quantity, the order's total moves by
   * the line's unit price times the change in quantity (on correctly priced
   * lines).
   */
  lemma UpdateItemTotal(db: OrderDb, orderId: OrderId, productId: ProductId, quantity: int)
    requires UpdateItem(db, orderId, productId, quantity).result.Ok?
    ensures TotalsConsistent(db) ==> TotalsConsistent(UpdateItem(db, orderId, productId, quantity).after)
    ensures var s := UpdateItem(db, orderId, productId, quantity);
      var lines := db.orders[orderId].lines;
      var order' := s.after.orders[orderId];
      order'.totalAmount == OrderTotal(order'.lines)
      && (LinesPriced(lines) ==> LinesPriced(order'.lines))
    ensures var s := UpdateItem(db, orderId, productId, quantity);
      var lines := db.orders[orderId].lines;
      var i := FindLine(lines, productId).value.value;
      quantity > 0 && LinesPriced(lines) ==>
        s.after.orders[orderId].totalAmount
        == OrderTotal(lines) + lines[i].price * (quantity - lines[i].quantity)
  {
    var lines := db.orders[orderId].lines;
    var i := FindLine(lines, productId).value.value;
    if quantity <= 0 {
      RemoveItemTotal(db, orderId, productId);
    } else {
      var line := WithQuantity(lines[i], quantity);
      SumUpdate(lines, i, line, LineTotal);
      assert lines[i].price * quantity - lines[i].price * lines[i].quantity
          == lines[i].price * (quantity - lines[i].quantity);
    }
  }

  /** Adding never drives a stock below zero: the stock check covers the units taken. */
  lemma AddItemKeepsStockNonNegative(db: OrderDb, orderId: OrderId, productId: ProductId, quantity: int)
    requires StocksNonNegative(db)
    ensures StocksNonNegative(AddItem(db, orderId, productId, quantity).after)
  {
  }

  /**
   * Changing or removing a line keeps every stock non-negative as long as the
   * order's lines hold non-negative quantities (a line's units return to stock).
   */
  lemma UpdateAndRemoveKeepStockNonNegative(db: OrderDb, orderId: OrderId, productId: ProductId, quantity: int)
    requires StocksNonNegative(db)
    requires orderId in db.orders ==> QuantitiesNonNegative(db.orders[orderId].lines)
    ensures StocksNonNegative(UpdateItem(db, orderId, productId, quantity).after)
    ensures StocksNonNegative(RemoveItem(db, orderId, productId).after)
  {
  }

  /**
   * Line quantities stay non-negative under a non-negative add, any change of
   * quantity (a non-positive one removes the line) and any removal.
   */
  lemma EditsKeepQuantitiesNonNegative(db: OrderDb, orderId: OrderId, productId: ProductId, quantity: int)
    requires orderId in db.orders && QuantitiesNonNegative(db.orders[orderId].lines)
    ensures quantity >= 0 ==> QuantitiesNonNegative(AddItem(db, orderId, productId, quantity).after.orders[orderId].lines)
    ensures QuantitiesNonNegative(UpdateItem(db, orderId, productId, quantity).after.orders[orderId].lines)
    ensures QuantitiesNonNegative(RemoveItem(db, orderId, productId).after.orders[orderId].lines)
  {
    var lines := db.orders[orderId].lines;
    var found := FindLine(lines, productId);
    if found.Ok? && found.value.Some? {
      var rest := RemoveAt(lines, found.value.value);
      assert forall k :: 0 <= k < |rest| ==> rest[k] in lines;
    }
  }

  /** On lines with distinct products, the lookup finds exactly the line naming the product. */
  lemma UniqueLinesFindTheLine(lines: seq<OrderLine>, p: ProductId)
    requires UniqueProducts(lines)
    ensures FindLine(lines, p).Ok?
    ensures forall j :: 0 <= j < |lines| && lines[j].product == p ==> FindLine(lines, p) == Ok(Some(j))
  {
  }

  lemma UniqueAfterRemove(lines: seq<OrderLine>, i: nat)
    requires i < |lines| && UniqueProducts(lines)
    ensures UniqueProducts(RemoveAt(lines, i))
  {
    var rest := RemoveAt(lines, i);
    assert forall k :: 0 <= k < |rest| ==> rest[k] == (if k < i then lines[k] else lines[k + 1]);
  }

  /** Adding merges into the product's existing line, so every edit keeps one line per product. */
  lemma EditsKeepProductsUnique(db: OrderDb, orderId: OrderId, productId: ProductId, quantity: int)
    requires orderId in db.orders && UniqueProducts(db.orders[orderId].lines)
    ensures UniqueProducts(AddItem(db, orderId, productId, quantity).after.orders[orderId].lines)
    ensures UniqueProducts(RemoveItem(db, orderId, productId).after.orders[orderId].lines)
    ensures UniqueProducts(UpdateItem(db, orderId, productId, quantity).after.orders[orderId].lines)
  {
    var lines := db.orders[orderId].lines;
    var found := FindLine(lines, productId);
    if found.Ok? && found.value.Some? {
      UniqueAfterRemove(lines, found.value.value);
    }
  }

  /**
   * Setting a line's quantity to zero or below removes it, exactly as
   * `RemoveItem` does, whenever the line's recorded quantity is not negative.
   */
  lemma UpdateToNonPositiveRemoves(db: OrderDb, orderId: OrderId, productId: ProductId, quantity: int)
    requires quantity <= 0
    requires orderId in db.orders ==> QuantitiesNonNegative(db.orders[orderId].lines)
    ensures UpdateItem(db, orderId, productId, quantity) == RemoveItem(db, orderId, productId)
  {
  }

  /**
   * Two successive adds of one product leave a single line holding both
   * quantities, priced at the line's unit price, with the stock reduced by both.
   */
  lemma ConsecutiveAddsMerge(db: OrderDb, orderId: OrderId, productId: ProductId, first: int, second: int,
                             mid: Step<OrderLine>, last: Step<OrderLine>)
    requires orderId in db.orders && UniqueProducts(db.orders[orderId].lines)
    requires mid == AddItem(db, orderId, productId, first) && mid.result.Ok?
    requires last == AddItem(mid.after, orderId, productId, second) && last.result.Ok?
    ensures last.result.value.quantity == mid.result.value.quantity + second
    ensures last.result.value.price == mid.result.value.price
    ensures last.result.value.totalPrice == mid.result.value.price * (mid.result.value.quantity + second)
    ensures |last.after.orders[orderId].lines| == |mid.after.orders[orderId].lines|
    ensures last.after.products[productId].stock == db.products[productId].stock - first - second
    ensures forall k :: 0 <= k < |last.after.orders[orderId].lines| && last.after.orders[orderId].lines[k].product == productId ==>
      last.after.orders[orderId].lines[k] == last.result.value
  {
    AddedLineIsFound(db, orderId, productId, first);
    AddToExistingLine(mid.after, orderId, productId, second);
    AddedLineIsFound(mid.after, orderId, productId, second);
  }

  /** An accepted add for a product that already has a line grows that line in place. */
  lemma AddToExistingLine(db: OrderDb, orderId: OrderId, productId: ProductId, quantity: int)
    requires AddItem(db, orderId, productId, quantity).result.Ok?
    requires FindLine(db.orders[orderId].lines, productId).Ok? && FindLine(db.orders[orderId].lines, productId).value.Some?
    ensures var s := AddItem(db, orderId, productId, quantity);
      var lines := db.orders[orderId].lines;
      var j := FindLine(lines, productId).value.value;
      j < |lines|
      && s.after.orders[orderId].lines == lines[j := s.result.value]
      && s.result.value == WithQuantity(lines[j], lines[j].quantity + quantity)
      && s.after.products[productId].stock == db.products[productId].stock - quantity
  {
  }

  /**
   * After an accepted add on an order with one line per product, the order
   * still has one line per product and the product's line is the one returned.
   */
  lemma AddedLineIsFound(db: OrderDb, orderId: OrderId, productId: ProductId, quantity: int)
    requires orderId in db.orders && UniqueProducts(db.orders[orderId].lines)
    requires AddItem(db, orderId, productId, quantity).result.Ok?
    ensures var s := AddItem(db, orderId, productId, quantity);
      var lines' := s.after.orders[orderId].lines;
      UniqueProducts(lines')
      && FindLine(lines', productId).Ok? && FindLine(lines', productId).value.Some?
      && FindLine(lines', productId).value.value < |lines'|
      && lines'[FindLine(lines', productId).value.value] == s.result.value
      && s.result.value.product == productId
      && s.after.products[productId].stock == db.products[productId].stock - quantity
  {
    var s := AddItem(db, orderId, productId, quantity);
    var lines := db.orders[orderId].lines;
    var lines' := s.after.orders[orderId].lines;
    EditsKeepProductsUnique(db, orderId, productId, quantity);
    AddItemEffect(db, orderId, productId, quantity);
    UniqueLinesFindTheLine(lines, productId);
    var j := if FindLine(lines, productId).value.Some? then FindLine(lines, productId).value.value else |lines|;
    assert j < |lines'| && lines'[j] == s.result.value && lines'[j].product == productId;
    UniqueLinesFindTheLine(lines', productId);
  }

  /** A product with the given unit price and stock, for the worked cases below. */
  function SampleProduct(price: Money, stock: int): Product
  {
    Product("sample", None, price, stock, 0.0, None, [], ProductStatuses.Active, 1, None, 1, [])
  }

  function EmptyPendingOrder(): Order
  {
    Order(1, 1, Pending, [], 0)
  }

  /**
   * Because adding never checks that the quantity is positive, a negative add
   * followed by another order taking the freed units and a removal of the
   * negative line leaves the product's stock below zero.
   */
  lemma NegativeLineCanDrainStock()
    ensures var db := OrderDb(map[1 := EmptyPendingOrder(), 2 := EmptyPendingOrder()], map[7 := SampleProduct(100, 0)]);
      var s1 := AddItem(db, 1, 7, -5);
      var s2 := AddItem(s1.after, 2, 7, 5);
      var s3 := RemoveItem(s2.after, 1, 7);
      s1.result.Ok? && s2.result.Ok? && s3.result.Ok?
      && StocksNonNegative(db) && s3.after.products[7].stock == -5
  {
    var db := OrderDb(map[1 := EmptyPendingOrder(), 2 := EmptyPendingOrder()], map[7 := SampleProduct(100, 0)]);
    var s1 := AddItem(db, 1, 7, -5);
    assert s1.after.orders[1].lines == [OrderLine(7, -5, 100, -500)];
    var s2 := AddItem(s1.after, 2, 7, 5);
    assert s2.after.products[7].stock == 0;
    assert s2.after.orders[1].lines == [OrderLine(7, -5, 100, -500)];
    assert FindLine(s2.after.orders[1].lines, 7) == Ok(Some(0));
  }

  /**
   * Setting a negative line to zero is checked against stock before the
   * removal path is taken, so it can be refused where removing succeeds.
   */
  lemma UpdateToZeroCanBeRefused()
    ensures var db := OrderDb(map[1 := Order(1, 1, Pending, [OrderLine(7, -5, 100, -500)], -500)], map[7 := SampleProduct(100, 0)]);
      UpdateItem(db, 1, 7, 0).result == Err(InsufficientStock)
      && RemoveItem(db, 1, 7).result.Ok?
  {
    var lines := [OrderLine(7, -5, 100, -500)];
    assert FindLine(lines, 7) == Ok(Some(0));
  }
}
