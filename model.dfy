/** The records the app stores and shows: products, cart lines, reviews and
  * their media, and the order record the order screens rebuild from the
  * database. Prices are exact reals. */
module Model {
  import opened Common

  /** A product as stored under `products/{id}`. */
  datatype Product = Product(
    id: string,
    name: string,
    brand: string,
    description: string,
    price: real,
    selectedSize: Option<string>,
    rating: int,
    reviewCount: int,
    stock: int,
    imageUrl: string,
    category: Option<string>,
    isFavorite: bool)

  /** A line of a user's cart, under `cart/{uid}/{id}`. `subtotal` is the
    * value computed when the line was built (price times quantity). */
  datatype CartItem = CartItem(
    id: string,
    productId: string,
    name: string,
    price: real,
    quantity: int,
    selectedSize: Option<string>,
    imageUrl: string,
    brand: string,
    timestamp: int,
    subtotal: real)

  /** The cart line the product screens build for `quantity` of `p`. */
  function NewCartItem(id: string, p: Product, quantity: int, size: Option<string>, timestamp: int): (r: CartItem)
    ensures r.productId == p.id && r.price == p.price && r.quantity == quantity
    ensures r.subtotal == p.price * quantity as real
  {
    CartItem(id, p.id, p.name, p.price, quantity, size, p.imageUrl, p.brand, timestamp, p.price * quantity as real)
  }

  datatype MediaType = Image | Video

  /** A review attachment: the encoded data and, for videos, a thumbnail. */
  datatype MediaContent = MediaContent(url: string, kind: MediaType, thumbnailUrl: string)

  /** A review under `comments/{productId}/{uid}`. */
  datatype ProductComment = ProductComment(
    userId: string,
    username: string,
    userProfileUrl: string,
    rating: int,
    comment: string,
    mediaUrls: seq<MediaContent>,
    timestamp: int)

  /** A saved address under `users/{uid}/addresses/{id}`. */
  datatype Address = Address(
    id: string,
    fullName: string,
    phoneNumber: string,
    address: string,
    city: string,
    state: string,
    zipCode: string,
    isDefault: bool)

  // ----- orders (built field by field from the snapshot) -------------------

  datatype OrderItem = OrderItem(
    brand: string,
    imageUrl: string,
    name: string,
    price: real,
    productId: string,
    quantity: int,
    selectedSize: string)

  /** Payment details; `userId` is only filled by the admin order screen. */
  datatype PaymentDetails = PaymentDetails(paymentTime: int, transactionId: string, paymentMethod: string, userId: string)

  datatype ShippingAddress = ShippingAddress(
    fullName: string,
    phoneNumber: string,
    address: string,
    city: string,
    state: string,
    zipCode: string,
    isDefault: bool)

  /** `ShippingAddress(fullName = "")`: every field at its default. */
  const EmptyAddress := ShippingAddress("", "", "", "", "", "", false)

  datatype Order = Order(
    orderId: string,
    items: seq<OrderItem>,
    paymentDetails: PaymentDetails,
    shippingAddress: ShippingAddress,
    status: string,
    shipping: real,
    subtotal: real,
    tax: real,
    total: real,
    timestamp: int,
    adminConfirmed: bool)
}
