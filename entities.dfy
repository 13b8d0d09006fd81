/**
 * The persistent entities, as values. Every nullable column the services
 * test for null is an `Option`; a reference to another entity is the id of
 * the row it points at.
 */
module Entities {
  import opened Common
  import ProductStatuses

  datatype OrderStatus = Pending | Shipped | Delivered | Cancelled

  datatype Role = Customer | VendorUser | Admin

  datatype VendorStatus = PendingApproval | Active | Suspended | Rejected

  /** One order line: the unit price is the product's price when the line was made. */
  datatype OrderLine = OrderLine(product: ProductId, quantity: int, price: Money, totalPrice: Money)

  datatype Order = Order(
    user: UserId,
    shippingAddress: AddressId,
    status: OrderStatus,
    lines: seq<OrderLine>,
    totalAmount: Money)

  datatype Specification = Specification(key: string, value: string, displayOrder: int)

  datatype Product = Product(
    name: string,
    description: Option<string>,
    price: Money,
    stock: int,
    discount: real,
    brand: Option<string>,
    imageUrls: seq<string>,
    status: ProductStatuses.ProductStatus,
    category: CategoryId,
    subCategory: Option<SubCategoryId>,
    vendor: UserId,
    specifications: seq<Specification>)

  /** A cart line; `cart` is the back reference the cart entity maintains. */
  datatype CartItem = CartItem(
    id: CartItemId,
    cart: Option<CartId>,
    product: ProductId,
    quantity: int,
    pricePerItem: Money,
    totalPrice: Money)

  /** A stored cart row: its owner and the total last written to it. */
  datatype CartRow = CartRow(user: UserId, totalPrice: Money)

  datatype Review = Review(user: UserId, product: ProductId, comment: string, rating: int, isActive: bool)

  datatype User = User(
    fullName: string,
    email: string,
    phone: Option<string>,
    password: string,
    role: Role,
    profileImage: Option<string>,
    gender: Option<string>,
    bio: Option<string>,
    isActive: bool)

  datatype Vendor = Vendor(
    shopName: string,
    shopDescription: Option<string>,
    shopLogo: Option<string>,
    businessEmail: Option<string>,
    businessPhone: Option<string>,
    taxNumber: Option<string>,
    bankAccountDetails: Option<string>,
    status: VendorStatus,
    user: UserId)

  // ---------------------------------------------------------------------
  // Reductions shared by the services

  function LineTotal(l: OrderLine): int { l.totalPrice }

  /** The order total the services write: the sum of the line totals. */
  function OrderTotal(lines: seq<OrderLine>): Money
  {
    Sum(lines, LineTotal)
  }

  /** The per-product quantity measure over order lines. */
  function QuantityOf(p: ProductId): OrderLine -> int
  {
    (l: OrderLine) => if l.product == p then l.quantity else 0
  }

  /** How many units of product `p` the lines of one order hold. */
  function QtyOf(lines: seq<OrderLine>, p: ProductId): int
  {
    Sum(lines, QuantityOf(p))
  }

  function ItemTotal(c: CartItem): int { c.totalPrice }

  function ItemQuantity(c: CartItem): int { c.quantity }

  /** The total of a list of cart lines, from their stored totals. */
  function ItemsTotal(items: seq<CartItem>): Money
  {
    Sum(items, ItemTotal)
  }

  /** The number of units in a list of cart lines. */
  function ItemsCount(items: seq<CartItem>): int
  {
    Sum(items, ItemQuantity)
  }
}
