/**
 * Cart lines as rows of the cart-item table: add-or-merge keyed by
 * (cart, product) with a price snapshot taken when a line is created,
 * quantity updates, deletion by key or by (cart, product), clearing a cart,
 * and the count and membership queries. None of these operations writes the
 * cart's stored total.
 */
module CartItemService {
  import opened Common
  import opened Entities
  import opened Repositories

  /** The rows `findByCartIdAndProductId` matches. */
  function ForCartAndProduct(c: CartId, p: ProductId): CartItem -> bool
  {
    (row: CartItem) => row.cart == Some(c) && row.product == p
  }

  /** `findByCartIdAndProductId`: the one line of `p` in cart `c`, if any. */
  function FindItem(rows: seq<CartItem>, c: CartId, p: ProductId): (r: Result<Option<nat>>)
    ensures r.Ok? && r.value.Some? ==>
      r.value.value < |rows| && rows[r.value.value].cart == Some(c) && rows[r.value.value].product == p
    ensures r == Ok(None) <==> forall j :: 0 <= j < |rows| ==> !(rows[j].cart == Some(c) && rows[j].product == p)
    ensures r.Err? ==> r.error == NonUniqueResult
  {
    FindUnique(rows, ForCartAndProduct(c, p))
  }

  /** At most one line per (cart, product). */
  predicate UniqueCartLines(rows: seq<CartItem>)
  {
    forall i, j :: 0 <= i < j < |rows| ==> !(rows[i].cart == rows[j].cart && rows[i].product == rows[j].product)
  }

  /** With one line per (cart, product) the single-result lookup never fails. */
  lemma UniqueLinesNeverAmbiguous(rows: seq<CartItem>, c: CartId, p: ProductId)
    ensures UniqueCartLines(rows) ==> FindItem(rows, c, p).Ok?
  {
  }

  /** Units in cart `c`. */
  function CartCount(rows: seq<CartItem>, c: CartId): int
  {
    ItemsCount(FindByCart(rows, c))
  }

  /** Deleting one row keeps every remaining row linked and the keys distinct. */
  lemma RemoveRowKeepsLinks(st: Store, i: nat)
    requires st.CartItemsWellFormed() && i < |st.cartItems|
    ensures forall row :: row in st.cartItems[..i] + st.cartItems[i + 1..] ==>
      RowLinked(row, st.carts, st.products, st.nextCartItemId)
    ensures DistinctIds(st.cartItems[..i] + st.cartItems[i + 1..])
  {
    var rows := st.cartItems;
    var rest := rows[..i] + rows[i + 1..];
    forall a, b | 0 <= a < b < |rest| ensures rest[a].id != rest[b].id {
      var a' := if a < i then a else a + 1;
      var b' := if b < i then b else b + 1;
      assert rest[a] == rows[a'] && rest[b] == rows[b'];
    }
    forall row | row in rest ensures row in rows {
      var k :| 0 <= k < |rest| && rest[k] == row;
      assert rest[k] == rows[if k < i then k else k + 1];
    }
  }

  /** Rewriting one row in place, key and cart kept, keeps the table linked and its keys distinct. */
  lemma ReplaceRowKeepsLinks(st: Store, i: nat, row: CartItem)
    requires st.CartItemsWellFormed() && i < |st.cartItems|
    requires row.id == st.cartItems[i].id && row.cart == st.cartItems[i].cart && row.product in st.products
    ensures forall x :: x in st.cartItems[i := row] ==> RowLinked(x, st.carts, st.products, st.nextCartItemId)
    ensures DistinctIds(st.cartItems[i := row])
  {
    var rows := st.cartItems;
    assert rows[i] in rows;
    assert forall x :: x in rows[i := row] ==> x in rows || x == row;
    var after := rows[i := row];
    forall a, b | 0 <= a < b < |after| ensures after[a].id != after[b].id {
      assert after[a].id == rows[a].id && after[b].id == rows[b].id;
    }
  }

  /** Appending a row under the next key to a stored cart and product keeps the table linked, keys distinct. */
  lemma AppendRowKeepsLinks(st: Store, row: CartItem)
    requires st.CartItemsWellFormed()
    requires row.id == st.nextCartItemId && row.cart.Some? && row.cart.value in st.carts && row.product in st.products
    ensures forall x :: x in st.cartItems + [row] ==> RowLinked(x, st.carts, st.products, st.nextCartItemId + 1)
    ensures DistinctIds(st.cartItems + [row])
  {
    var rows := st.cartItems;
    assert forall x :: x in rows + [row] ==> x in rows || x == row;
    var after := rows + [row];
    forall a, b | 0 <= a < b < |after| ensures after[a].id != after[b].id {
      assert after[a] in rows;
      if b == |rows| {
        assert after[a].id < st.nextCartItemId;
      }
    }
  }

  /** Adding to the one existing line of (cart, product) adds exactly that many units to the cart. */
  lemma MergeCount(rows: seq<CartItem>, i: nat, c: CartId, q: int)
    requires i < |rows| && rows[i].cart == Some(c)
    ensures CartCount(rows[i := rows[i].(quantity := rows[i].quantity + q)], c) == CartCount(rows, c) + q
  {
    var updated := rows[i].(quantity := rows[i].quantity + q);
    SumKeep(rows, InCart(c), ItemQuantity);
    SumKeep(rows[i := updated], InCart(c), ItemQuantity);
    SumUpdate(rows, i, updated, Masked(InCart(c), ItemQuantity));
  }

  /** A new line of cart `c` adds its quantity to the cart's units. */
  lemma AppendCount(rows: seq<CartItem>, row: CartItem, c: CartId)
    requires row.cart == Some(c)
    ensures CartCount(rows + [row], c) == CartCount(rows, c) + row.quantity
  {
    SumKeep(rows, InCart(c), ItemQuantity);
    SumKeep(rows + [row], InCart(c), ItemQuantity);
    SumAppend(rows, row, Masked(InCart(c), ItemQuantity));
  }

  /** Merging into a line keeps its cart and product, so one line per (cart, product) still holds. */
  lemma MergeKeepsUnique(rows: seq<CartItem>, i: nat, q: int)
    requires i < |rows| && UniqueCartLines(rows)
    ensures UniqueCartLines(rows[i := rows[i].(quantity := rows[i].quantity + q)])
  {
  }

  /** A new line for a (cart, product) that had none keeps one line per (cart, product). */
  lemma AppendKeepsUnique(rows: seq<CartItem>, row: CartItem)
    requires UniqueCartLines(rows) && row.cart.Some?
    requires FindItem(rows, row.cart.value, row.product) == Ok(None)
    ensures UniqueCartLines(rows + [row])
  {
    var after := rows + [row];
    forall a, b | 0 <= a < b < |after|
      ensures !(after[a].cart == after[b].cart && after[a].product == after[b].product)
    {
      if b == |rows| {
        assert !ForCartAndProduct(row.cart.value, row.product)(rows[a]);
      }
    }
  }

  /**
   * `addItemToCart`: the cart, then the product, must exist. An existing
   * line of the product in the cart gets the requested quantity added;
   * otherwise a new line is made at the product's current price. The
   * quantity is not checked and the cart's stored total is not recomputed.
   */
  method AddItemToCart(st: Store, cartId: CartId, productId: ProductId, quantity: int)
    returns (r: Result<CartItem>)
    requires st.Valid()
    modifies st`cartItems, st`nextCartItemId
    ensures st.Valid()
    ensures cartId !in st.carts ==> r == Err(NotFound(CartRecord))
    ensures cartId in st.carts && productId !in st.products ==> r == Err(NotFound(ProductRecord))
    ensures cartId in st.carts && productId in st.products && FindItem(old(st.cartItems), cartId, productId).Err? ==>
      r == Err(NonUniqueResult)
    ensures cartId in st.carts && productId in st.products && FindItem(old(st.cartItems), cartId, productId).Ok? ==> r.Ok?
    ensures r.Err? ==> st.cartItems == old(st.cartItems) && st.nextCartItemId == old(st.nextCartItemId)
    ensures r.Ok? ==>
      match FindItem(old(st.cartItems), cartId, productId)
      case Ok(Some(i)) =>
        r.value == old(st.cartItems)[i].(quantity := old(st.cartItems)[i].quantity + quantity)
        && st.cartItems == old(st.cartItems)[i := r.value]
        && st.nextCartItemId == old(st.nextCartItemId)
      case Ok(None) =>
        r.value == CartItem(old(st.nextCartItemId), Some(cartId), productId, quantity,
                            st.products[productId].price, st.products[productId].price * quantity)
        && st.cartItems == old(st.cartItems) + [r.value]
        && st.nextCartItemId == old(st.nextCartItemId) + 1
      case Err(_) => false
    ensures r.Ok? ==> CartCount(st.cartItems, cartId) == CartCount(old(st.cartItems), cartId) + quantity
    ensures old(UniqueCartLines(st.cartItems)) ==> UniqueCartLines(st.cartItems)
  {
    if cartId !in st.carts {
      return Err(NotFound(CartRecord));
    }
    if productId !in st.products {
      return Err(NotFound(ProductRecord));
    }
    var found := FindItem(st.cartItems, cartId, productId);
    if found.Err? {
      return Err(found.error);
    }
    var rows := st.cartItems;
    if found.value.Some? {
      var i := found.value.value;
      var updated := rows[i].(quantity := rows[i].quantity + quantity);
      ReplaceRowKeepsLinks(st, i, updated);
      MergeCount(rows, i, cartId, quantity);
      if UniqueCartLines(rows) {
        MergeKeepsUnique(rows, i, quantity);
      }
      st.cartItems := rows[i := updated];
      r := Ok(updated);
    } else {
      var price := st.products[productId].price;
      var added := CartItem(st.nextCartItemId, Some(cartId), productId, quantity, price, price * quantity);
      AppendRowKeepsLinks(st, added);
      AppendCount(rows, added, cartId);
      if UniqueCartLines(rows) {
        AppendKeepsUnique(rows, added);
      }
      st.cartItems := rows + [added];
      st.nextCartItemId := st.nextCartItemId + 1;
      r := Ok(added);
    }
  }

  /**
   * `updateCartItemQuantity`: a quantity of zero or less is refused before
   * the line is looked up; otherwise the line's quantity becomes exactly the
   * new value.
   */
  method UpdateCartItemQuantity(st: Store, id: CartItemId, quantity: int) returns (r: Result<CartItem>)
    requires st.Valid()
    modifies st`cartItems
    ensures st.Valid()
    ensures quantity <= 0 ==> r == Err(InvalidArgument(Quantity))
    ensures quantity > 0 && IndexOfItem(old(st.cartItems), id).None? ==> r == Err(NotFound(CartItemRecord))
    ensures quantity > 0 && IndexOfItem(old(st.cartItems), id).Some? ==> r.Ok?
    ensures r.Err? ==> st.cartItems == old(st.cartItems)
    ensures r.Ok? ==>
      quantity > 0 && IndexOfItem(old(st.cartItems), id).Some?
      && var i := IndexOfItem(old(st.cartItems), id).value;
         r.value == old(st.cartItems)[i].(quantity := quantity)
         && st.cartItems == old(st.cartItems)[i := r.value]
  {
    if quantity <= 0 {
      return Err(InvalidArgument(Quantity));
    }
    var found := IndexOfItem(st.cartItems, id);
    if found.None? {
      return Err(NotFound(CartItemRecord));
    }
    var i := found.value;
    var updated := st.cartItems[i].(quantity := quantity);
    assert st.cartItems[i] in st.cartItems;
    ReplaceRowKeepsLinks(st, i, updated);
    st.cartItems := st.cartItems[i := updated];
    r := Ok(updated);
  }

  /**
   * `updateCartItem`: the line must exist; a supplied product must exist and
   * re-snapshots the unit price; a supplied quantity must be positive. A
   * refused request stores nothing.
   */
  method UpdateCartItem(st: Store, id: CartItemId, productId: Option<ProductId>, quantity: Option<int>)
    returns (r: Result<CartItem>)
    requires st.Valid()
    modifies st`cartItems
    ensures st.Valid()
    ensures IndexOfItem(old(st.cartItems), id).None? ==> r == Err(NotFound(CartItemRecord))
    ensures IndexOfItem(old(st.cartItems), id).Some? && productId.Some? && productId.value !in st.products ==>
      r == Err(NotFound(ProductRecord))
    ensures IndexOfItem(old(st.cartItems), id).Some? && (productId.None? || productId.value in st.products)
              && quantity.Some? && quantity.value <= 0
      ==> r == Err(InvalidArgument(Quantity))
    ensures IndexOfItem(old(st.cartItems), id).Some? && (productId.None? || productId.value in st.products)
              && (quantity.None? || quantity.value > 0)
      ==> r.Ok?
    ensures r.Err? ==> st.cartItems == old(st.cartItems)
    ensures r.Ok? ==>
      IndexOfItem(old(st.cartItems), id).Some?
      && var i := IndexOfItem(old(st.cartItems), id).value;
         var line := old(st.cartItems)[i];
         r.value.id == line.id && r.value.cart == line.cart && r.value.totalPrice == line.totalPrice
         && (productId.Some? ==>
               productId.value in st.products
               && r.value.product == productId.value && r.value.pricePerItem == st.products[productId.value].price)
         && (productId.None? ==> r.value.product == line.product && r.value.pricePerItem == line.pricePerItem)
         && (quantity.Some? ==> quantity.value > 0 && r.value.quantity == quantity.value)
         && (quantity.None? ==> r.value.quantity == line.quantity)
         && st.cartItems == old(st.cartItems)[i := r.value]
  {
    var found := IndexOfItem(st.cartItems, id);
    if found.None? {
      return Err(NotFound(CartItemRecord));
    }
    var i := found.value;
    var line := st.cartItems[i];
    if productId.Some? {
      if productId.value !in st.products {
        return Err(NotFound(ProductRecord));
      }
      line := line.(product := productId.value, pricePerItem := st.products[productId.value].price);
    }
    if quantity.Some? {
      if quantity.value <= 0 {
        return Err(InvalidArgument(Quantity));
      }
      line := line.(quantity := quantity.value);
    }
    assert st.cartItems[i] in st.cartItems;
    ReplaceRowKeepsLinks(st, i, line);
    st.cartItems := st.cartItems[i := line];
    r := Ok(line);
  }

  /** `deleteCartItem`: removes the line with key `id`, or fails when there is none. */
  method DeleteCartItem(st: Store, id: CartItemId) returns (r: Check)
    requires st.Valid()
    modifies st`cartItems
    ensures st.Valid()
    ensures r.Fail? <==> IndexOfItem(old(st.cartItems), id).None?
    ensures r.Fail? ==> r.error == NotFound(CartItemRecord) && st.cartItems == old(st.cartItems)
    ensures r.Pass? ==>
      var i := IndexOfItem(old(st.cartItems), id).value;
      st.cartItems == old(st.cartItems)[..i] + old(st.cartItems)[i + 1..]
    ensures forall row :: row in st.cartItems ==> row.id != id
  {
    var found := IndexOfItem(st.cartItems, id);
    if found.None? {
      return Fail(NotFound(CartItemRecord));
    }
    var i := found.value;
    RemoveRowKeepsLinks(st, i);
    forall row | row in st.cartItems[..i] + st.cartItems[i + 1..] ensures row.id != id {
      var k :| 0 <= k < |st.cartItems[..i] + st.cartItems[i + 1..]| && (st.cartItems[..i] + st.cartItems[i + 1..])[k] == row;
      var k' := if k < i then k else k + 1;
      assert row == st.cartItems[k'];
    }
    st.cartItems := st.cartItems[..i] + st.cartItems[i + 1..];
    r := Pass;
  }

  /**
   * `deleteCartItemByCartAndProduct`: removes the line of product `p` in
   * cart `c`; fails when there is none (or, as the single-result lookup
   * does, when there are two).
   */
  method DeleteCartItemByCartAndProduct(st: Store, c: CartId, p: ProductId) returns (r: Check)
    requires st.Valid()
    modifies st`cartItems
    ensures st.Valid()
    ensures FindItem(old(st.cartItems), c, p) == Ok(None) ==> r == Fail(NotFound(CartItemRecord))
    ensures FindItem(old(st.cartItems), c, p).Err? ==> r == Fail(NonUniqueResult)
    ensures FindItem(old(st.cartItems), c, p).Ok? && FindItem(old(st.cartItems), c, p).value.Some? ==> r.Pass?
    ensures r.Fail? ==> st.cartItems == old(st.cartItems)
    ensures r.Pass? ==>
      FindItem(old(st.cartItems), c, p).Ok? && FindItem(old(st.cartItems), c, p).value.Some?
      && var i := FindItem(old(st.cartItems), c, p).value.value;
         st.cartItems == old(st.cartItems)[..i] + old(st.cartItems)[i + 1..]
    ensures r.Pass? ==> IsProductInCart(st.cartItems, c, p) == Ok(false)
  {
    var found := FindItem(st.cartItems, c, p);
    if found.Err? {
      return Fail(found.error);
    }
    if found.value.None? {
      return Fail(NotFound(CartItemRecord));
    }
    var i := found.value.value;
    var rows := st.cartItems;
    RemoveRowKeepsLinks(st, i);
    var rest := rows[..i] + rows[i + 1..];
    forall k | 0 <= k < |rest| ensures !ForCartAndProduct(c, p)(rest[k]) {
      assert rest[k] == rows[if k < i then k else k + 1];
    }
    st.cartItems := rest;
    r := Pass;
  }

  /** The outcome message of `clearCartItems`. */
  datatype ClearOutcome = Cleared | AlreadyEmpty

  /**
   * `clearCartItems`: deletes every line of cart `c`; a cart without lines
   * is reported as already empty and nothing changes.
   */
  method ClearCartItems(st: Store, c: CartId) returns (r: ClearOutcome)
    requires st.Valid()
    modifies st`cartItems
    ensures st.Valid()
    ensures r == AlreadyEmpty <==> FindByCart(old(st.cartItems), c) == []
    ensures st.cartItems == Keep(old(st.cartItems), NotInCart(c))
    ensures FindByCart(st.cartItems, c) == []
  {
    var rows := FindByCart(st.cartItems, c);
    KeepExclusive(st.cartItems, NotInCart(c), InCart(c));
    if rows == [] {
      KeepAll(st.cartItems, NotInCart(c));
      return AlreadyEmpty;
    }
    KeepDistinctIds(st.cartItems, NotInCart(c));
    st.cartItems := Keep(st.cartItems, NotInCart(c));
    r := Cleared;
  }

  /** Clearing a cart twice leaves the table as clearing it once, and the second time reports it empty. */
  lemma ClearIsIdempotent(rows: seq<CartItem>, c: CartId)
    ensures Keep(Keep(rows, NotInCart(c)), NotInCart(c)) == Keep(rows, NotInCart(c))
    ensures FindByCart(Keep(rows, NotInCart(c)), c) == []
  {
    KeepIdempotent(rows, NotInCart(c));
    KeepExclusive(rows, NotInCart(c), InCart(c));
  }

  /** Clearing one cart leaves the lines of every other cart as they were. */
  lemma {:induction false} ClearKeepsOtherCarts(rows: seq<CartItem>, c: CartId, d: CartId)
    requires c != d
    ensures FindByCart(Keep(rows, NotInCart(c)), d) == FindByCart(rows, d)
  {
    if rows != [] {
      var head, tail := [rows[0]], rows[1..];
      assert rows == head + tail;
      ClearKeepsOtherCarts(tail, c, d);
      KeepConcat(head, tail, NotInCart(c));
      KeepConcat(Keep(head, NotInCart(c)), Keep(tail, NotInCart(c)), InCart(d));
      KeepConcat(head, tail, InCart(d));
    }
  }

  /** `getCartItemsCount`: the units over the cart's lines. */
  function GetCartItemsCount(rows: seq<CartItem>, c: CartId): (n: int)
    ensures n == Sum(rows, Masked(InCart(c), ItemQuantity))
    ensures FindByCart(rows, c) == [] ==> n == 0
  {
    SumKeep(rows, InCart(c), ItemQuantity);
    CartCount(rows, c)
  }

  /**
   * `isProductInCart`: whether cart `c` holds a line of product `p`; the
   * single-result lookup fails on two such lines.
   */
  function IsProductInCart(rows: seq<CartItem>, c: CartId, p: ProductId): (r: Result<bool>)
    ensures r.Ok? ==> (r.value <==> exists i :: 0 <= i < |rows| && rows[i].cart == Some(c) && rows[i].product == p)
    ensures r.Err? ==> r.error == NonUniqueResult
    ensures UniqueCartLines(rows) ==> r.Ok?
  {
    UniqueLinesNeverAmbiguous(rows, c, p);
    match FindItem(rows, c, p)
    case Err(e) => Err(e)
    case Ok(found) =>
      assert found.Some? ==> ForCartAndProduct(c, p)(rows[found.value]);
      Ok(found.Some?)
  }
}
