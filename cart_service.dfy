/**
 * Carts as rows of the cart table: creating one per user, reading a cart
 * with its totals computed from its lines, deleting a cart together with its
 * lines, and writing the stored total from the lines.
 */
module CartService {
  import opened Common
  import opened Entities
  import opened Repositories

  /** What a cart read returns: the owner, the lines and the two totals. */
  datatype CartView = CartView(id: CartId, user: UserId, items: seq<CartItem>, totalItems: int, totalPrice: Money)

  /** Each user owns at most one cart (the unique owner column). */
  predicate OneCartPerUser(carts: map<CartId, CartRow>)
  {
    forall a, b :: a in carts && b in carts && a != b ==> carts[a].user != carts[b].user
  }

  /** `toDto`: the totals are computed from the cart's lines, not read from the stored total. */
  function ToView(id: CartId, row: CartRow, rows: seq<CartItem>): (v: CartView)
    ensures v.id == id && v.user == row.user
    ensures v.items == FindByCart(rows, id)
    ensures v.totalItems == Sum(rows, Masked(InCart(id), ItemQuantity))
    ensures v.totalPrice == Sum(rows, Masked(InCart(id), ItemTotal))
    ensures v.items == [] ==> v.totalItems == 0 && v.totalPrice == 0
  {
    var items := FindByCart(rows, id);
    SumKeep(rows, InCart(id), ItemQuantity);
    SumKeep(rows, InCart(id), ItemTotal);
    CartView(id, row.user, items, ItemsCount(items), ItemsTotal(items))
  }

  /** `getCartById`. */
  function GetCartById(carts: map<CartId, CartRow>, rows: seq<CartItem>, id: CartId): (r: Result<CartView>)
    ensures r.Ok? <==> id in carts
    ensures r.Ok? ==> r.value == ToView(id, carts[id], rows)
    ensures r.Err? ==> r.error == NotFound(CartRecord)
  {
    if id in carts then Ok(ToView(id, carts[id], rows)) else Err(NotFound(CartRecord))
  }

  /**
   * `createCart`: the user must exist; a second cart for the same user
   * breaks the unique owner column. The new cart is empty with a zero total.
   */
  method CreateCart(st: Store, userId: UserId) returns (r: Result<CartId>)
    requires st.Valid()
    modifies st`carts, st`nextCartId
    ensures st.Valid()
    ensures userId !in st.users ==> r == Err(NotFound(UserRecord))
    ensures userId in st.users ==>
      (r == Err(UniqueViolation) <==> exists c :: c in old(st.carts) && old(st.carts)[c].user == userId)
    ensures userId in st.users && !(exists c :: c in old(st.carts) && old(st.carts)[c].user == userId) ==> r.Ok?
    ensures r.Err? ==> st.carts == old(st.carts) && st.nextCartId == old(st.nextCartId)
    ensures r.Ok? ==>
      r.value == old(st.nextCartId) && r.value !in old(st.carts)
      && st.carts == old(st.carts)[r.value := CartRow(userId, 0)]
      && GetCartById(st.carts, st.cartItems, r.value) == Ok(CartView(r.value, userId, [], 0, 0))
    ensures old(OneCartPerUser(st.carts)) ==> OneCartPerUser(st.carts)
  {
    if userId !in st.users {
      return Err(NotFound(UserRecord));
    }
    if exists c :: c in st.carts && st.carts[c].user == userId {
      return Err(UniqueViolation);
    }
    var id := st.nextCartId;
    NoLinesInNewCart(st.cartItems, st.carts, st.products, st.nextCartItemId, id);
    st.carts := st.carts[id := CartRow(userId, 0)];
    st.nextCartId := st.nextCartId + 1;
    r := Ok(id);
  }

  /** A key no stored cart holds has no lines in a linked table. */
  lemma NoLinesInNewCart(rows: seq<CartItem>, carts: map<CartId, CartRow>, products: map<ProductId, Product>, next: CartItemId, id: CartId)
    requires forall row :: row in rows ==> RowLinked(row, carts, products, next)
    requires id !in carts
    ensures FindByCart(rows, id) == []
  {
    KeepExclusive(rows, NotInCart(id), InCart(id));
    KeepAll(rows, NotInCart(id));
  }

  /**
   * `deleteCart`: an unknown cart fails; otherwise the cart goes and, as its
   * lines are owned by it, so do they.
   */
  method DeleteCart(st: Store, id: CartId) returns (r: Check)
    requires st.Valid()
    modifies st`carts, st`cartItems
    ensures st.Valid()
    ensures r.Fail? <==> id !in old(st.carts)
    ensures r.Fail? ==> r.error == NotFound(CartRecord) && st.carts == old(st.carts) && st.cartItems == old(st.cartItems)
    ensures r.Pass? ==>
      st.carts == old(st.carts) - {id}
      && st.cartItems == Keep(old(st.cartItems), NotInCart(id))
      && FindByCart(st.cartItems, id) == []
  {
    if id !in st.carts {
      return Fail(NotFound(CartRecord));
    }
    var rows := Keep(st.cartItems, NotInCart(id));
    KeepDistinctIds(st.cartItems, NotInCart(id));
    KeepExclusive(st.cartItems, NotInCart(id), InCart(id));
    st.carts := st.carts - {id};
    st.cartItems := rows;
    r := Pass;
  }

  /**
   * `recalculateTotal`, called with a stored cart: its stored total becomes
   * the sum of its lines' totals, which is what a read of the cart shows.
   */
  method RecalculateTotal(st: Store, id: CartId)
    requires st.Valid() && id in st.carts
    modifies st`carts
    ensures st.Valid()
    ensures st.carts == old(st.carts)[id := old(st.carts)[id].(totalPrice := ItemsTotal(FindByCart(st.cartItems, id)))]
    ensures GetCartById(st.carts, st.cartItems, id).Ok?
    ensures st.carts[id].totalPrice == GetCartById(st.carts, st.cartItems, id).value.totalPrice
  {
    var total := ItemsTotal(FindByCart(st.cartItems, id));
    SumKeep(st.cartItems, InCart(id), ItemTotal);
    st.carts := st.carts[id := st.carts[id].(totalPrice := total)];
  }
}
