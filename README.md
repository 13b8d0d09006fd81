# E-commerce backend core, modelled in Dafny

This project models the service layer of a Spring e-commerce backend: users,
vendors, the product catalogue, carts and their lines, orders and their lines,
and product reviews. The database is one `Store` object (`store.dfy`) with
one field per repository table and one IDENTITY counter per table. The
services are methods that read and write the fields they name in their
`modifies` clauses. The parts of the code that compute values (validation
rules, totals, lookups, the reference semantics of an order-line edit) are
functions. Lemmas relate the two.

Modules, one per source file:

- `Common`: ids and money, `Option`/`Result`/`Check`, the error kinds the
  services raise, and left-to-right sums and filters over sequences. It also
  holds the single-result lookup (two matches are an error), `String.trim`
  and case-insensitive comparison.
- `Entities`: the persistent entities as values. `ProductStatuses`: the
  product status enum and its three predicates.
- `Repositories`: the `Store` class and its foreign-key invariant `Valid`.
- `CartEntity`: the `Cart` entity class with its own `addItem`,
  `removeItem` and `recalculateTotal`.
- `OrderService`, `OrderItemService`, `CartService`, `CartItemService`,
  `ProductService`, `ReviewService`, `UserService`, `VendorService`: one
  module per service class.

Money is a whole number of minor units (`BigDecimal` in the source).
Integers are unbounded. A failed call leaves the store unchanged, as the
transactions of the source do.

The model follows the code in these places:

- `addItemToCart` accepts any quantity.
- `updateCartItemQuantity` refuses a quantity of zero or less instead of
  deleting the line.
- None of the cart-line operations rewrites the cart's stored total.
- `checkout` deletes the user's cart lines but does not reset the cart's
  stored total.
- `createOrder` makes one line per requested item, so a product requested
  twice gets two lines.

## Model

| member | source | states |
|---|---|---|
| ProductStatuses.PurchasableIsActiveAndVisible | E_CommerceApp/src/main/java/com/My/E_CommerceApp/Enum/ProductStatus.java:12-24 | A status can be bought iff it is active. Whatever can be bought is shown. The only status that is shown but cannot be bought is out-of-stock. |
| ProductStatuses.StatusCounts | E_CommerceApp/src/main/java/com/My/E_CommerceApp/Enum/ProductStatus.java:3-24 | Of the seven statuses, exactly `ACTIVE` can be bought, and exactly `ACTIVE` and `OUT_OF_STOCK` are shown. |
| ProductStatuses.ProductStatus.IsVisible | E_CommerceApp/src/main/java/com/My/E_CommerceApp/Enum/ProductStatus.java:17-19 | Every active product is shown. |
| ProductStatuses.ProductStatus.CanBePurchased | E_CommerceApp/src/main/java/com/My/E_CommerceApp/Enum/ProductStatus.java:22-24 | A product can be bought iff it is active, and whatever can be bought is shown. |
| Repositories.IndexOfItem | E_CommerceApp/src/main/java/com/My/E_CommerceApp/Service/CartItemService.java:88-89 | Finding a cart line by key returns a position holding that key, or reports that no row has it. |
| CartEntity.FirstIndex | E_CommerceApp/src/main/java/com/My/E_CommerceApp/Entity/Cart.java:39-43 | The position of the first equal element, or the length exactly when there is none. Nothing before it is equal. |
| CartEntity.RemoveFirst | E_CommerceApp/src/main/java/com/My/E_CommerceApp/Entity/Cart.java:39-43 | Removing an absent element leaves the list as it is. Removing a present one shortens it by exactly one. |
| CartEntity.RemoveFirstMultiset | E_CommerceApp/src/main/java/com/My/E_CommerceApp/Entity/Cart.java:39-43 | `List.remove` takes exactly one occurrence of the line out of the multiset of lines, and nothing when it is absent. |
| CartEntity.RemoveFirstSum | E_CommerceApp/src/main/java/com/My/E_CommerceApp/Entity/Cart.java:39-50 | Removing a line lowers any sum over the lines by that line's value, and by nothing when it is absent. |
| CartEntity.Cart.constructor | E_CommerceApp/src/main/java/com/My/E_CommerceApp/Entity/Cart.java:21-29 | A new cart has its owner, no lines and a zero total. It satisfies both cart invariants. |
| CartEntity.Cart.TotalItems | E_CommerceApp/src/main/java/com/My/E_CommerceApp/Entity/Cart.java:54-58 | The unit count of a cart without lines is 0. It is never negative when no line quantity is negative. |
| CartEntity.Cart.RecalculateTotal | E_CommerceApp/src/main/java/com/My/E_CommerceApp/Entity/Cart.java:46-50 | The stored total becomes the sum of the line totals. The lines are untouched. |
| CartEntity.Cart.AddItem | E_CommerceApp/src/main/java/com/My/E_CommerceApp/Entity/Cart.java:32-36 | The line is appended with its back reference set to this cart. The total grows by the line's total and the unit count by its quantity. The total stays equal to the sum of the lines, and every line still points at this cart. |
| CartEntity.Cart.RemoveItem | E_CommerceApp/src/main/java/com/My/E_CommerceApp/Entity/Cart.java:39-43 | The first equal line is removed: the multiset of lines loses exactly it. The line handed in comes back with its cart cleared. The total and unit count drop by that line's values only when it was present. |
| CartEntity.NonNegativeCount | E_CommerceApp/src/main/java/com/My/E_CommerceApp/Entity/Cart.java:54-58 | Lines with non-negative quantities give a non-negative unit count. |
| CartEntity.AddThenRemoveRestores | E_CommerceApp/src/main/java/com/My/E_CommerceApp/Entity/Cart.java:32-43 | Adding a new line and then removing it restores the lines and the total. |
| OrderService.PriceRequestedItems | E_CommerceApp/src/main/java/com/My/E_CommerceApp/Service/OrderService.java:55-68 | The result is an error iff some requested product is missing, and then a product not-found error. Otherwise there is one line per request, in order, at the product's current price. The total equals the sum of the line totals and the cost of the request at current prices. |
| OrderService.PriceCartRows | E_CommerceApp/src/main/java/com/My/E_CommerceApp/Service/OrderService.java:165-177 | There is one order line per cart line, with the same product and quantity at the current price. The total equals the sum of the line totals and the cart's cost at current prices. |
| OrderService.CreateOrder | E_CommerceApp/src/main/java/com/My/E_CommerceApp/Service/OrderService.java:34-75 | Fails on a missing user, then address, then product, each with its own not-found error. Otherwise a pending order under a fresh key holds correctly priced lines and their sum as total. Stock is untouched. |
| OrderService.Checkout | E_CommerceApp/src/main/java/com/My/E_CommerceApp/Service/OrderService.java:140-190 | Fails on a missing user, then address. Fails with empty-cart iff the user's carts hold no lines, and succeeds otherwise. A pending order with one line per cart line is stored, and exactly the user's cart lines are deleted. Products and carts are unchanged. |
| OrderService.KeptRowsLinked | E_CommerceApp/src/main/java/com/My/E_CommerceApp/Service/OrderService.java:186 | Deleting some cart lines keeps the remaining ones linked with distinct keys. |
| OrderService.CheckoutEmptiesUserCarts | E_CommerceApp/src/main/java/com/My/E_CommerceApp/Service/OrderService.java:186 | After checkout the user's carts hold no lines. |
| OrderService.CheckoutKeepsOtherCarts | E_CommerceApp/src/main/java/com/My/E_CommerceApp/Service/OrderService.java:186 | Checkout leaves every other user's cart lines as they were, in order. |
| OrderService.FindById | E_CommerceApp/src/main/java/com/My/E_CommerceApp/Service/OrderService.java:110-114 | Returns the stored order, or order not-found exactly when the key is absent. |
| OrderService.UpdateStatus | E_CommerceApp/src/main/java/com/My/E_CommerceApp/Service/OrderService.java:126-131 | Any status may follow any other. Only an unknown order fails. |
| OrderService.Delete | E_CommerceApp/src/main/java/com/My/E_CommerceApp/Service/OrderService.java:135-137 | The order is removed if present. Nothing else changes. |
| OrderItemService.UpdateOrderTotal | E_CommerceApp/src/main/java/com/My/E_CommerceApp/Service/OrderItemService.java:153-158 | The order's total agrees with its lines afterwards. Nothing else about the order changes. |
| OrderItemService.UpdateProductStock | E_CommerceApp/src/main/java/com/My/E_CommerceApp/Service/OrderItemService.java:161-164 | Stock moves by exactly the change. Nothing else about the product changes. |
| OrderItemService.AddItem | E_CommerceApp/src/main/java/com/My/E_CommerceApp/Service/OrderItemService.java:29-72 | Reference semantics of adding a line. A refused add changes nothing. An accepted one needs a pending order, a stored product and enough stock. No order or product appears or disappears. |
| OrderItemService.UpdateItem | E_CommerceApp/src/main/java/com/My/E_CommerceApp/Service/OrderItemService.java:76-113 | Reference semantics of changing a line's quantity. A refused update changes nothing. An accepted one needs a pending order and a stored product, and returns that product's line. No order or product appears or disappears. |
| OrderItemService.RemoveItem | E_CommerceApp/src/main/java/com/My/E_CommerceApp/Service/OrderItemService.java:117-140 | Reference semantics of removing a line. A refused removal changes nothing. An accepted one needs a pending order. It returns a line of the order for the product, and the order ends with one line fewer. |
| OrderItemService.AddItemToOrder | E_CommerceApp/src/main/java/com/My/E_CommerceApp/Service/OrderItemService.java:29-72 | The result and the new orders and products are exactly those of the reference add. |
| OrderItemService.UpdateOrderItem | E_CommerceApp/src/main/java/com/My/E_CommerceApp/Service/OrderItemService.java:76-113 | The result and the new tables are exactly those of the reference update, including its removal path. |
| OrderItemService.RemoveItemFromOrder | E_CommerceApp/src/main/java/com/My/E_CommerceApp/Service/OrderItemService.java:117-140 | The result and the new tables are exactly those of the reference removal. |
| OrderItemService.DeleteOrderItem | E_CommerceApp/src/main/java/com/My/E_CommerceApp/Service/OrderItemService.java:196-220 | Same edit as removal; it passes iff the removal succeeds. |
| OrderItemService.EditsRequirePendingOrder | E_CommerceApp/src/main/java/com/My/E_CommerceApp/Service/OrderItemService.java:34-36 | An order that is not pending refuses all three edits and nothing changes. |
| OrderItemService.FailedEditsChangeNothing | E_CommerceApp/src/main/java/com/My/E_CommerceApp/Service/OrderItemService.java:29-140 | A refused add, update or removal leaves orders and products as they were. |
| OrderItemService.AddItemSucceedsIff | E_CommerceApp/src/main/java/com/My/E_CommerceApp/Service/OrderItemService.java:29-48 | Adding succeeds iff the order exists and is pending, the product exists, the stock covers the quantity and the order has at most one line for the product. No positivity check is made. |
| OrderItemService.AddItemEffect | E_CommerceApp/src/main/java/com/My/E_CommerceApp/Service/OrderItemService.java:47-68 | An existing line grows by the quantity, repriced at its own unit price. Otherwise a new line at the current price is appended. Stock drops by the quantity. Other orders and products are unchanged. |
| OrderItemService.AddItemConservesStock | E_CommerceApp/src/main/java/com/My/E_CommerceApp/Service/OrderItemService.java:42-68 | For every product, stock plus the units on the order is the same before and after an add. |
| OrderItemService.RemoveItemConservesStock | E_CommerceApp/src/main/java/com/My/E_CommerceApp/Service/OrderItemService.java:129-136 | Removing a line returns its units to stock, so stock plus units on the order is conserved. |
| OrderItemService.UpdateItemConservesStock | E_CommerceApp/src/main/java/com/My/E_CommerceApp/Service/OrderItemService.java:90-109 | Changing a quantity, or removing through a non-positive one, conserves stock plus units on the order. |
| OrderItemService.AddItemTotal | E_CommerceApp/src/main/java/com/My/E_CommerceApp/Service/OrderItemService.java:52-67 | After an add the order total is the sum of its line totals. On correctly priced lines it rises by unit price times the quantity added. Every order's total stays equal to the sum of its lines. |
| OrderItemService.RemoveItemTotal | E_CommerceApp/src/main/java/com/My/E_CommerceApp/Service/OrderItemService.java:133-136 | After a removal the total is the old sum less the removed line's total. Every order's total stays equal to the sum of its lines. |
| OrderItemService.UpdateItemTotal | E_CommerceApp/src/main/java/com/My/E_CommerceApp/Service/OrderItemService.java:103-109 | After a positive update the total is the sum of the lines. On priced lines it moves by unit price times the change in quantity. Every order's total stays equal to the sum of its lines. |
| OrderItemService.RewrittenOrderKeepsTotals | E_CommerceApp/src/main/java/com/My/E_CommerceApp/Service/OrderItemService.java:153-158 | Rewriting one order with a total that matches its lines keeps every order's total consistent. |
| OrderItemService.AddItemKeepsStockNonNegative | E_CommerceApp/src/main/java/com/My/E_CommerceApp/Service/OrderItemService.java:42-44 | The stock check keeps every stock non-negative under an add. |
| OrderItemService.UpdateAndRemoveKeepStockNonNegative | E_CommerceApp/src/main/java/com/My/E_CommerceApp/Service/OrderItemService.java:90-107 | Updates and removals keep stock non-negative when the order's line quantities are non-negative. |
| OrderItemService.EditsKeepQuantitiesNonNegative | E_CommerceApp/src/main/java/com/My/E_CommerceApp/Service/OrderItemService.java:52-113 | Line quantities stay non-negative under a non-negative add, any update and any removal. |
| OrderItemService.UniqueLinesFindTheLine | E_CommerceApp/src/main/java/com/My/E_CommerceApp/Service/OrderItemService.java:47-48 | With one line per product, the lookup succeeds and finds exactly that product's line. |
| OrderItemService.UniqueAfterRemove | E_CommerceApp/src/main/java/com/My/E_CommerceApp/Service/OrderItemService.java:133 | Deleting a line keeps products unique on the order. |
| OrderItemService.EditsKeepProductsUnique | E_CommerceApp/src/main/java/com/My/E_CommerceApp/Service/OrderItemService.java:50-64 | Because add merges into the existing line, every edit keeps one line per product. |
| OrderItemService.UpdateToNonPositiveRemoves | E_CommerceApp/src/main/java/com/My/E_CommerceApp/Service/OrderItemService.java:97-100 | With non-negative line quantities, updating to zero or less is exactly a removal. |
| OrderItemService.ConsecutiveAddsMerge | E_CommerceApp/src/main/java/com/My/E_CommerceApp/Service/OrderItemService.java:50-53 | Two adds of one product leave one line holding both quantities, priced at its unit price, with stock reduced by both. |
| OrderItemService.AddedLineIsFound | E_CommerceApp/src/main/java/com/My/E_CommerceApp/Service/OrderItemService.java:47-64 | After an accepted add on an order with one line per product, there is still one line per product. The product's single line is the one returned, and stock drops by the quantity. |
| OrderItemService.AddToExistingLine | E_CommerceApp/src/main/java/com/My/E_CommerceApp/Service/OrderItemService.java:50-53 | An accepted add for a product that already has a line rewrites that line in place with the summed quantity, at its own unit price. |
| OrderItemService.NegativeLineCanDrainStock | E_CommerceApp/src/main/java/com/My/E_CommerceApp/Service/OrderItemService.java:42-44 | Worked case: because the quantity sign is never checked, a negative add, a second order and a removal leave a stock below zero. |
| OrderItemService.UpdateToZeroCanBeRefused | E_CommerceApp/src/main/java/com/My/E_CommerceApp/Service/OrderItemService.java:90-100 | Worked case: setting a negative line to zero meets the stock check before the removal path and is refused. |
| CartItemService.UniqueLinesNeverAmbiguous | E_CommerceApp/src/main/java/com/My/E_CommerceApp/Service/CartItemService.java:38-39 | With one line per (cart, product) the single-result lookup never fails. |
| CartItemService.FindItem | E_CommerceApp/src/main/java/com/My/E_CommerceApp/Service/CartItemService.java:38-39 | The single-result lookup of a cart's line for a product. A found position holds such a line. No position is returned iff no line matches. The only failure is a non-unique result. |
| CartItemService.RemoveRowKeepsLinks | E_CommerceApp/src/main/java/com/My/E_CommerceApp/Service/CartItemService.java:124 | Deleting one row keeps the table's foreign keys and distinct keys. |
| CartItemService.ReplaceRowKeepsLinks | E_CommerceApp/src/main/java/com/My/E_CommerceApp/Service/CartItemService.java:91-92 | Rewriting a row in place, key and cart kept, with a stored product keeps the table's foreign keys. |
| CartItemService.AppendRowKeepsLinks | E_CommerceApp/src/main/java/com/My/E_CommerceApp/Service/CartItemService.java:48-54 | A new row under the next key, for a stored cart and product, keeps the table's foreign keys and distinct keys. |
| CartItemService.MergeCount | E_CommerceApp/src/main/java/com/My/E_CommerceApp/Service/CartItemService.java:43 | Merging into the one existing line adds exactly the quantity to the cart's unit count. |
| CartItemService.AppendCount | E_CommerceApp/src/main/java/com/My/E_CommerceApp/Service/CartItemService.java:48-54 | A new line adds its quantity to its cart's unit count. |
| CartItemService.MergeKeepsUnique | E_CommerceApp/src/main/java/com/My/E_CommerceApp/Service/CartItemService.java:41-45 | Merging keeps one line per (cart, product). |
| CartItemService.AppendKeepsUnique | E_CommerceApp/src/main/java/com/My/E_CommerceApp/Service/CartItemService.java:46-56 | A line for a (cart, product) without one keeps one line per (cart, product). |
| CartItemService.AddItemToCart | E_CommerceApp/src/main/java/com/My/E_CommerceApp/Service/CartItemService.java:30-57 | Fails on a missing cart, then product, and on two matching lines, and succeeds in every other case. It merges into the existing line or appends a line at the product's current price. The cart's unit count grows by the quantity, and one line per (cart, product) is kept. |
| CartItemService.UpdateCartItemQuantity | E_CommerceApp/src/main/java/com/My/E_CommerceApp/Service/CartItemService.java:83-94 | A quantity of zero or less is refused before the lookup, and a missing line is not found. Otherwise it succeeds: the line's quantity becomes exactly the new value and nothing else changes. |
| CartItemService.UpdateCartItem | E_CommerceApp/src/main/java/com/My/E_CommerceApp/Service/CartItemService.java:97-117 | Fails on a missing line, then a missing supplied product, then a supplied quantity of zero or less, and succeeds otherwise. A given product replaces the old one with its current price, a given quantity is set, and nothing else changes. |
| CartItemService.DeleteCartItem | E_CommerceApp/src/main/java/com/My/E_CommerceApp/Service/CartItemService.java:120-126 | Fails iff no row has the key. Otherwise exactly that row is removed. |
| CartItemService.DeleteCartItemByCartAndProduct | E_CommerceApp/src/main/java/com/My/E_CommerceApp/Service/CartItemService.java:129-135 | Fails when the cart has no line for the product, or two. When it has exactly one, that line is removed and the product is no longer in the cart. |
| CartItemService.ClearCartItems | E_CommerceApp/src/main/java/com/My/E_CommerceApp/Service/CartItemService.java:138-145 | Reports already-empty iff the cart had no lines. Otherwise exactly its lines are deleted. |
| CartItemService.ClearIsIdempotent | E_CommerceApp/src/main/java/com/My/E_CommerceApp/Service/CartItemService.java:138-145 | Clearing twice equals clearing once, and the second clear finds the cart empty. |
| CartItemService.ClearKeepsOtherCarts | E_CommerceApp/src/main/java/com/My/E_CommerceApp/Service/CartItemService.java:138-145 | Clearing one cart leaves every other cart's lines as they were. |
| CartItemService.GetCartItemsCount | E_CommerceApp/src/main/java/com/My/E_CommerceApp/Service/CartItemService.java:148-153 | The count is the sum of quantities over the cart's lines, and 0 for a cart without lines. |
| CartItemService.IsProductInCart | E_CommerceApp/src/main/java/com/My/E_CommerceApp/Service/CartItemService.java:205-207 | True iff the cart has a line for the product. Two such lines make the lookup fail. |
| CartService.ToView | E_CommerceApp/src/main/java/com/My/E_CommerceApp/Service/CartService.java:43-59 | A cart read lists the cart's lines. Its totals are sums over those lines, not the stored total, and both are 0 for a cart without lines. |
| CartService.GetCartById | E_CommerceApp/src/main/java/com/My/E_CommerceApp/Service/CartService.java:68-72 | Returns the view of a stored cart, or cart not-found exactly when the key is absent. |
| CartService.CreateCart | E_CommerceApp/src/main/java/com/My/E_CommerceApp/Service/CartService.java:34-65 | Fails on a missing user. Fails with a unique violation iff the user already has a cart. Otherwise it succeeds: an empty cart with a zero total is stored, and one cart per user is kept. |
| CartService.NoLinesInNewCart | E_CommerceApp/src/main/java/com/My/E_CommerceApp/Service/CartService.java:62-65 | A cart under a fresh key has no lines in a linked table. |
| CartService.DeleteCart | E_CommerceApp/src/main/java/com/My/E_CommerceApp/Service/CartService.java:80-85 | Fails iff the cart is missing. Otherwise the cart and exactly its lines are deleted. |
| CartService.RecalculateTotal | E_CommerceApp/src/main/java/com/My/E_CommerceApp/Service/CartService.java:88-95 | The stored total becomes the sum of the cart's line totals, which is what a read of the cart shows. |
| ProductService.BuildSpecifications | E_CommerceApp/src/main/java/com/My/E_CommerceApp/Service/ProductService.java:45-54 | One specification per requested entry, in order, with display order 0 when none is given. None at all for a missing list. |
| ProductService.ToEntity | E_CommerceApp/src/main/java/com/My/E_CommerceApp/Service/ProductService.java:31-73 | The product is pending, with the request's fields and defaults for images and discount. The sub-category is accepted iff it exists and belongs to the category, and each failure gets its own error. |
| ProductService.CreateProduct | E_CommerceApp/src/main/java/com/My/E_CommerceApp/Service/ProductService.java:117-136 | Fails, wrapped, on a missing category, then a missing vendor, then a bad sub-category. A missing sub-category gives `NotFound(SubCategoryRecord)` and one from another category gives `SubCategoryMismatch`, both wrapped. Otherwise the product stored under a fresh key is pending and has every field of the request, with empty images and zero discount as defaults. Sub-category consistency is kept. |
| ProductService.UpdateProduct | E_CommerceApp/src/main/java/com/My/E_CommerceApp/Service/ProductService.java:159-222 | Fails, wrapped, on a missing product, another vendor's product, a missing category, a missing sub-category (`NotFound(SubCategoryRecord)`) or one from another category (`SubCategoryMismatch`). Otherwise the fields are rewritten as described, the specifications are replaced, and status and vendor are kept. |
| ProductService.DeleteProduct | E_CommerceApp/src/main/java/com/My/E_CommerceApp/Service/ProductService.java:226-240 | Fails, wrapped, on a missing or foreign product. Fails on its foreign key iff a cart line or order line refers to it. Otherwise it succeeds and the product goes with its reviews. |
| ProductService.ChangeProductStatus | E_CommerceApp/src/main/java/com/My/E_CommerceApp/Service/ProductService.java:280-291 | Any status may be set on a stored product. Only an unknown product fails. |
| ProductService.GetProductsBySubCategory | E_CommerceApp/src/main/java/com/My/E_CommerceApp/Service/ProductService.java:294-310 | Fails, wrapped, iff the sub-category is unknown. Otherwise it returns exactly the products filed under it. |
| ReviewService.ValidateCreation | E_CommerceApp/src/main/java/com/My/E_CommerceApp/Service/ReviewService.java:35-61 | Passes iff the user and product exist, the rating is 1 to 5, the comment is not blank and the user has no review of the product, active or not. Each failing guard gives its own error, in that order. |
| ReviewService.CreateReview | E_CommerceApp/src/main/java/com/My/E_CommerceApp/Service/ReviewService.java:32-79 | Fails, wrapped, iff validation fails. Otherwise an active review with a trimmed comment is stored under a fresh key, and one review per (user, product) is kept. |
| ReviewService.SecondReviewRefused | E_CommerceApp/src/main/java/com/My/E_CommerceApp/Service/ReviewService.java:53-61 | A second review of a product by the same user is refused. |
| ReviewService.GetReviewsByProduct | E_CommerceApp/src/main/java/com/My/E_CommerceApp/Service/ReviewService.java:94-109 | Fails, wrapped, iff the product is unknown. Otherwise it returns exactly the product's active reviews. |
| ReviewService.GetReviewsByUser | E_CommerceApp/src/main/java/com/My/E_CommerceApp/Service/ReviewService.java:112-127 | Fails, wrapped, iff the user is unknown. Otherwise it returns exactly the user's active reviews. |
| ReviewService.GetReviewById | E_CommerceApp/src/main/java/com/My/E_CommerceApp/Service/ReviewService.java:130-139 | Returns the review iff it exists and is active. A missing and a deactivated review are both not found. |
| ReviewService.Edited | E_CommerceApp/src/main/java/com/My/E_CommerceApp/Service/ReviewService.java:149-159 | An edit keeps author, product and activity. A valid or absent rating keeps a well-formed review well-formed. |
| ReviewService.SameKeysKeepUnique | E_CommerceApp/src/main/java/com/My/E_CommerceApp/Service/ReviewService.java:143-170 | Rewriting a review without changing author or product keeps one review per (user, product). |
| ReviewService.UpdateReview | E_CommerceApp/src/main/java/com/My/E_CommerceApp/Service/ReviewService.java:143-170 | Fails on a missing review or a rating outside 1 to 5, and succeeds otherwise. A given rating and a given non-blank comment (trimmed) replace the old ones, and the other fields and the uniqueness invariant are kept. |
| ReviewService.DeleteReview | E_CommerceApp/src/main/java/com/My/E_CommerceApp/Service/ReviewService.java:174-187 | A soft delete: the review stays, marked inactive, and vanishes from every read. Fails iff it is missing. |
| ReviewService.DeletedReviewStillBlocks | E_CommerceApp/src/main/java/com/My/E_CommerceApp/Service/ReviewService.java:53-61 | A soft-deleted review still blocks a new review of the same product by the same user. |
| UserService.AddUserKeepsUnique | E_CommerceApp/src/main/java/com/My/E_CommerceApp/Service/UserService.java:183-191 | A user whose email and phone pass the duplicate checks keeps emails unique ignoring case, and phones unique. |
| UserService.EditUserKeepsUnique | E_CommerceApp/src/main/java/com/My/E_CommerceApp/Service/UserService.java:193-205 | An edit whose email is the old one up to case or unused, and whose phone is the old one or unused, keeps both unique. |
| UserService.ValidateUserCreation | E_CommerceApp/src/main/java/com/My/E_CommerceApp/Service/UserService.java:183-191 | Passes iff the email is unused ignoring case and a given phone is unused. Email is checked first. |
| UserService.ValidateUserUpdateAsWritten | E_CommerceApp/src/main/java/com/My/E_CommerceApp/Service/UserService.java:193-205 | Crashes exactly when a phone is given to a user with none and the email check passed. Otherwise it agrees with the null-safe check. |
| UserService.ValidateUserUpdate | E_CommerceApp/src/main/java/com/My/E_CommerceApp/Service/UserService.java:193-205 | Passes iff a given email is the current one up to case or unused by others, and a given phone is the current one or unused by others. |
| UserService.NullStoredPhoneCrashesUpdate | E_CommerceApp/src/main/java/com/My/E_CommerceApp/Service/UserService.java:200-202 | Worked case: a user without a phone who is given a fresh one crashes the check as written and passes the null-safe one. |
| UserService.UpdateUserEntity | E_CommerceApp/src/main/java/com/My/E_CommerceApp/Service/UserService.java:213-232 | Each field given in the update replaces the stored one, and every other field stays. Password, role and activity are never touched. |
| UserService.UpdateUserEntityIdempotent | E_CommerceApp/src/main/java/com/My/E_CommerceApp/Service/UserService.java:213-232 | Applying an update twice equals applying it once, and an empty update changes nothing. |
| UserService.ValidateRoleChange | E_CommerceApp/src/main/java/com/My/E_CommerceApp/Service/UserService.java:120-122 | A role change is refused iff it takes the vendor role away. |
| UserService.ValidateDeactivation | E_CommerceApp/src/main/java/com/My/E_CommerceApp/Service/UserService.java:135-137 | Deactivation is refused iff the user has the vendor role. |
| UserService.VendorOwnerIsProtected | E_CommerceApp/src/main/java/com/My/E_CommerceApp/Service/UserService.java:120-137 | The owner of a vendor profile is active and can neither be deactivated nor lose the vendor role. |
| UserService.FindUserById | E_CommerceApp/src/main/java/com/My/E_CommerceApp/Service/UserService.java:208-211 | Returns the stored user, or user not-found exactly when the key is absent. |
| UserService.IsUserActive | E_CommerceApp/src/main/java/com/My/E_CommerceApp/Service/UserService.java:282-286 | False for an unknown id, otherwise the stored activity flag. |
| UserService.CreateUser | E_CommerceApp/src/main/java/com/My/E_CommerceApp/Service/UserService.java:31-44 | Fails iff the duplicate checks fail. Otherwise an active customer is stored under a fresh key. Unique emails and phones, and active vendor owners, are kept. |
| UserService.UpdateUser | E_CommerceApp/src/main/java/com/My/E_CommerceApp/Service/UserService.java:101-112 | Fails on a missing user or on the null-safe duplicate checks (`ValidateUserUpdate`) for email and phone. Otherwise the user becomes the update applied to it, and the invariants are kept. |
| UserService.UpdateUserRole | E_CommerceApp/src/main/java/com/My/E_CommerceApp/Service/UserService.java:114-129 | Fails on a missing user or on taking the vendor role away, with the role check's own error. Otherwise the role is set. A vendor user stays a vendor user. |
| UserService.DeactivateUser | E_CommerceApp/src/main/java/com/My/E_CommerceApp/Service/UserService.java:131-142 | Fails on a missing user or a vendor user, with the deactivation check's own error. Otherwise the user becomes inactive. |
| UserService.ActivateUser | E_CommerceApp/src/main/java/com/My/E_CommerceApp/Service/UserService.java:144-150 | Fails iff the user is missing. Otherwise the user becomes active. |
| UserService.DeleteUser | E_CommerceApp/src/main/java/com/My/E_CommerceApp/Service/UserService.java:153-164 | Fails on a missing user, then on a vendor owner. A cart or product pointing at the user fails on its foreign key. Otherwise it succeeds and the user goes with their orders and reviews. |
| VendorService.AddVendorKeepsUnique | E_CommerceApp/src/main/java/com/My/E_CommerceApp/Service/VendorService.java:217-241 | A profile passing the duplicate checks, for a user without one, keeps shop names unique ignoring case, tax numbers unique and one profile per user. |
| VendorService.EditVendorKeepsUnique | E_CommerceApp/src/main/java/com/My/E_CommerceApp/Service/VendorService.java:243-255 | An edit whose shop name is the old one up to case or unused, and whose tax number is the old one or unused, keeps the columns unique. |
| VendorService.ValidateVendorCreation | E_CommerceApp/src/main/java/com/My/E_CommerceApp/Service/VendorService.java:217-230 | Passes iff the email and shop name are unused ignoring case and a given tax number is unused, checked in that order. Each check fails with its own duplicate error. |
| VendorService.ValidateProfileCreation | E_CommerceApp/src/main/java/com/My/E_CommerceApp/Service/VendorService.java:232-241 | Passes iff the shop name is unused ignoring case and a given tax number is unused. A taken shop name or tax number gives its own duplicate error, in that order. |
| VendorService.ValidateUserCanBecomeVendor | E_CommerceApp/src/main/java/com/My/E_CommerceApp/Service/VendorService.java:257-269 | Passes iff the user is active, has no profile and is not an administrator. Each failure has its own error, in that order. |
| VendorService.ValidateStatusTransition | E_CommerceApp/src/main/java/com/My/E_CommerceApp/Service/VendorService.java:271-275 | The only refused move is from rejected to active. |
| VendorService.RejectionIsNotFinal | E_CommerceApp/src/main/java/com/My/E_CommerceApp/Service/VendorService.java:116-144 | A rejected vendor reaches active in two allowed steps through pending or suspended. |
| VendorService.ValidateProfileUpdateAsWritten | E_CommerceApp/src/main/java/com/My/E_CommerceApp/Service/VendorService.java:243-255 | Crashes exactly when a tax number is given to a vendor with none and the shop-name check passed. Otherwise it agrees with the null-safe check. |
| VendorService.ValidateProfileUpdate | E_CommerceApp/src/main/java/com/My/E_CommerceApp/Service/VendorService.java:243-255 | A given shop name conflicts only if it differs from the current one ignoring case and another vendor uses it. A given tax number conflicts only if it differs and another vendor uses it. |
| VendorService.NullStoredTaxNumberCrashesUpdate | E_CommerceApp/src/main/java/com/My/E_CommerceApp/Service/VendorService.java:250-252 | Worked case: a vendor without a tax number who is given a fresh one crashes the check as written and passes the null-safe one. |
| VendorService.UpdateVendorEntity | E_CommerceApp/src/main/java/com/My/E_CommerceApp/Service/VendorService.java:322-344 | Each field given in the update replaces the stored one, and every other field stays. Status and owner are never touched. |
| VendorService.UpdateVendorEntityIdempotent | E_CommerceApp/src/main/java/com/My/E_CommerceApp/Service/VendorService.java:322-344 | Applying an update twice equals applying it once, and an empty update changes nothing. |
| VendorService.IsVendorActive | E_CommerceApp/src/main/java/com/My/E_CommerceApp/Service/VendorService.java:377-381 | False for an unknown id, otherwise true iff the status is active. |
| VendorService.CreateVendorWithNewUser | E_CommerceApp/src/main/java/com/My/E_CommerceApp/Service/VendorService.java:38-55 | Fails on the duplicate checks, or on the unique phone column, and succeeds otherwise. An active vendor-role user and a pending profile without bank details are stored under fresh keys. All user and vendor invariants are kept. |
| VendorService.CreateVendorForExistingUser | E_CommerceApp/src/main/java/com/My/E_CommerceApp/Service/VendorService.java:57-74 | Fails on a missing user, on eligibility, then on the duplicate checks, each with that check's own error. Otherwise a pending profile with bank details is stored and the user takes the vendor role. The invariants are kept. |
| VendorService.UpdateVendorStatus | E_CommerceApp/src/main/java/com/My/E_CommerceApp/Service/VendorService.java:116-129 | Fails on a missing vendor or a refused transition. Otherwise only the status changes. |
| VendorService.ApproveVendor | E_CommerceApp/src/main/java/com/My/E_CommerceApp/Service/VendorService.java:131-134 | An unknown vendor is not found. A stored vendor's approval fails, with the rejected-vendor rule, iff it was rejected. On success only the status changes, to active, and the updated vendor is returned. |
| VendorService.SuspendVendor | E_CommerceApp/src/main/java/com/My/E_CommerceApp/Service/VendorService.java:136-139 | Succeeds iff the vendor is stored, and is otherwise not found. Only the status changes, to suspended. |
| VendorService.RejectVendor | E_CommerceApp/src/main/java/com/My/E_CommerceApp/Service/VendorService.java:141-144 | Succeeds iff the vendor is stored, and is otherwise not found. Only the status changes, to rejected. |
| VendorService.UpdateVendorProfile | E_CommerceApp/src/main/java/com/My/E_CommerceApp/Service/VendorService.java:147-158 | Fails on a missing vendor or the null-safe duplicate checks. Otherwise the profile becomes the update applied to it, and the invariants are kept. |

## Left out

- Floating point: the cart subtotal (`getCartSubtotal`), average ratings (`getProductAverageRating`, `updateProductAverageRating`, `updateVendorRating`) and the product discount are `Double` values. The model copies the discount through unchanged and computes nothing with it.
- Java's 32-bit `Integer`/`int` arithmetic on quantities and stock: integers here are unbounded, so overflow of a stock or quantity is not modelled.
- Controllers, DTO mapping (`toDto`, `mapTo...`), pagination, search queries and the plain `findAll` listings: these are projections with no rules of their own.
- Timestamps, the console logging, account-status columns and the payment, address and category services. Addresses and categories appear only as sets of keys.
- Concurrency and isolation: each call is one atomic step on the store.
- Case folding covers ASCII letters only. `equalsIgnoreCase` and the database's case-insensitive queries also fold other alphabets.
- Entity identity: entities are values keyed by id. In the source, `CartItem`'s generated `equals` (CartItem.java:16) first calls `Base`'s, which is `Object` identity, so `Cart.removeItem` (Cart.java:39-41) removes only the same instance.
- CartEntity.Cart.RemoveItem: removes the first value-equal line. Java removes only the same instance, so a value-equal line that is a different instance is removed in the model but not in Java.
- `CartItem.java` (lines 17-36) declares no price-per-unit column for a cart line, but the cart-line service sets one (`setPricePerItem`). The model keeps the unit price on the line.
- AddItemToCart: a new line's total is never set in the source, but `CartItem.java` declares that column not nullable (lines 33-34). The model gives the new line a total of unit price times quantity. It does not model the insert the database would then refuse.
- DeleteUser: the user's addresses (a cascade) are not modelled, because addresses carry no owner here. A payment still pointing at a deleted order is not modelled either.
- OrderService.Delete: payments are not modelled, so the model always deletes. In Java, a payment row whose `order_id` (Payment.java:24-25) refers to the order makes the delete fail on that foreign key at commit.
- OrderService.Checkout: stock is not reserved and the cart's stored total is not reset, as in the code.
- ProductService.DeleteProduct: the foreign-key failure surfaces unwrapped, because the database reports it at commit, after the service's try block.
- CartService.RecalculateTotal: the source method takes a `Cart` entity already loaded from the repository, so the model specifies it for a stored cart only.
- Listings by product, user and sub-category return maps keyed by id. Their order is not modelled.

## Findings

| source | as written | input that shows it | evidently intended | confidence | as-written member | corrected member |
|---|---|---|---|---|---|---|
| E_CommerceApp/src/main/java/com/My/E_CommerceApp/Service/UserService.java:200-202 | the phone check calls `equals` on the stored phone, which is null for a user registered without one | a user with no phone, updated with phone "5550100" | a missing stored phone counts as different from the new one, so only the duplicate check applies | high, not executed | UserService.ValidateUserUpdateAsWritten | UserService.ValidateUserUpdate |
| E_CommerceApp/src/main/java/com/My/E_CommerceApp/Service/VendorService.java:250-252 | the tax-number check calls `equals` on the stored tax number, which is null for a vendor registered without one | a vendor with no tax number, updated with tax number "TX-1" | a missing stored tax number counts as different from the new one, so only the duplicate check applies | high, not executed | VendorService.ValidateProfileUpdateAsWritten | VendorService.ValidateProfileUpdate |
