/**
 * The database the services read and write: one field per repository.
 * Tables keyed by an IDENTITY column are maps with a counter that hands out
 * the next key; the cart-item table is kept in insertion order because the
 * services list its rows.
 */
module Repositories {
  import opened Common
  import opened Entities

  class Store {
    var users: map<UserId, User>
    var addresses: set<AddressId>
    var categories: set<CategoryId>
    /** Each sub-category with the category it belongs to. */
    var subCategories: map<SubCategoryId, CategoryId>
    var products: map<ProductId, Product>
    var orders: map<OrderId, Order>
    var carts: map<CartId, CartRow>
    var cartItems: seq<CartItem>
    var reviews: map<ReviewId, Review>
    var vendors: map<VendorId, Vendor>

    var nextUserId: UserId
    var nextProductId: ProductId
    var nextOrderId: OrderId
    var nextCartId: CartId
    var nextCartItemId: CartItemId
    var nextReviewId: ReviewId
    var nextVendorId: VendorId

    /** Every key in use is below the counter that will hand out the next one. */
    ghost predicate KeysBelowCounters()
      reads this
    {
      (forall id :: id in users ==> id < nextUserId)
      && (forall id :: id in products ==> id < nextProductId)
      && (forall id :: id in orders ==> id < nextOrderId)
      && (forall id :: id in carts ==> id < nextCartId)
      && (forall id :: id in reviews ==> id < nextReviewId)
      && (forall id :: id in vendors ==> id < nextVendorId)
    }

    /**
     * Cart-item rows have distinct keys below their counter and point at a
     * stored cart and a stored product (the foreign keys of the table).
     */
    ghost predicate CartItemsWellFormed()
      reads this
    {
      (forall row :: row in cartItems ==> RowLinked(row, carts, products, nextCartItemId))
      && DistinctIds(cartItems)
    }

    /** Every vendor profile belongs to a stored user (the vendor's owner column). */
    ghost predicate VendorsLinked()
      reads this
    {
      forall v :: v in vendors ==> vendors[v].user in users
    }

    ghost predicate Valid()
      reads this
    {
      KeysBelowCounters() && CartItemsWellFormed() && VendorsLinked()
    }

    constructor ()
      ensures Valid()
      ensures users == map[] && products == map[] && orders == map[] && carts == map[]
      ensures cartItems == [] && reviews == map[] && vendors == map[]
      ensures addresses == {} && categories == {} && subCategories == map[]
    {
      users, addresses, categories, subCategories := map[], {}, {}, map[];
      products, orders, carts, cartItems := map[], map[], map[], [];
      reviews, vendors := map[], map[];
      nextUserId, nextProductId, nextOrderId, nextCartId := 1, 1, 1, 1;
      nextCartItemId, nextReviewId, nextVendorId := 1, 1, 1;
    }
  }

  /** A cart-item row's key is below the counter and its foreign keys resolve. */
  predicate RowLinked(row: CartItem, carts: map<CartId, CartRow>, products: map<ProductId, Product>, next: CartItemId)
  {
    row.id < next && row.cart.Some? && row.cart.value in carts && row.product in products
  }

  /** `findById` on the cart-item table: the row holding key `id`, if any. */
  function IndexOfItem(rows: seq<CartItem>, id: CartItemId): (r: Option<nat>)
    ensures r.Some? ==> r.value < |rows| && rows[r.value].id == id
    ensures r.None? ==> forall i :: 0 <= i < |rows| ==> rows[i].id != id
  {
    if rows == [] then None
    else if rows[0].id == id then Some(0)
    else match IndexOfItem(rows[1..], id)
      case None => None
      case Some(k) => Some(k + 1)
  }

  /** Cart-item rows belonging to cart `c`. */
  function InCart(c: CartId): CartItem -> bool
  {
    (row: CartItem) => row.cart == Some(c)
  }

  function NotInCart(c: CartId): CartItem -> bool
  {
    (row: CartItem) => row.cart != Some(c)
  }

  /** Cart-item rows whose cart belongs to user `u`. */
  function OwnedBy(carts: map<CartId, CartRow>, u: UserId): CartItem -> bool
  {
    (row: CartItem) => row.cart.Some? && row.cart.value in carts && carts[row.cart.value].user == u
  }

  function NotOwnedBy(carts: map<CartId, CartRow>, u: UserId): CartItem -> bool
  {
    (row: CartItem) => !(row.cart.Some? && row.cart.value in carts && carts[row.cart.value].user == u)
  }

  /** `findByCartId`: the rows of one cart, in table order. */
  function FindByCart(rows: seq<CartItem>, c: CartId): seq<CartItem>
  {
    Keep(rows, InCart(c))
  }

  /** `findByUser_Id`: the rows in the carts of one user, in table order. */
  function FindByUser(rows: seq<CartItem>, carts: map<CartId, CartRow>, u: UserId): seq<CartItem>
  {
    Keep(rows, OwnedBy(carts, u))
  }

  predicate DistinctIds(rows: seq<CartItem>)
  {
    forall i, j :: 0 <= i < j < |rows| ==> rows[i].id != rows[j].id
  }

  /** Deleting rows keeps the remaining keys distinct. */
  lemma {:induction false} KeepDistinctIds(rows: seq<CartItem>, f: CartItem -> bool)
    requires DistinctIds(rows)
    ensures DistinctIds(Keep(rows, f))
  {
    if rows != [] {
      var tail := rows[1..];
      assert DistinctIds(tail) by {
        forall i, j | 0 <= i < j < |tail| ensures tail[i].id != tail[j].id {
          assert tail[i] == rows[i + 1] && tail[j] == rows[j + 1];
        }
      }
      KeepDistinctIds(tail, f);
      var rest := Keep(tail, f);
      if f(rows[0]) {
        forall x | x in rest ensures x.id != rows[0].id {
          var k :| 0 < k < |rows| && rows[k] == x;
        }
        var whole := [rows[0]] + rest;
        forall i, j | 0 <= i < j < |whole| ensures whole[i].id != whole[j].id {
          if i == 0 {
            assert whole[j] in rest;
          } else {
            assert whole[i] == rest[i - 1] && whole[j] == rest[j - 1];
          }
        }
      } else {
        assert Keep(rows, f) == rest;
      }
    }
  }
}
