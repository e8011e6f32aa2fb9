/** The record shapes the storefront passes around: catalogue entries fetched
    from the REST API, cart lines, saved addresses, orders and the signed-in user. */
module Types {

  datatype Option<+T> = None | Some(value: T)

  datatype Category = Category(id: int, name: string, image: string, slug: Option<string>)

  /** A catalogue entry; prices are whole currency units. */
  datatype Product = Product(
    id: int,
    title: string,
    price: nat,
    description: string,
    category: Category,
    images: seq<string>,
    slug: Option<string>)

  datatype User = User(id: int, email: string, name: string, role: string, avatar: string)

  /** A product together with how many units of it are in the bag. */
  datatype CartItem = CartItem(product: Product, quantity: int) {
    function Id(): int { product.id }
    function Price(): nat { product.price }
  }

  datatype Address = Address(
    id: string,
    name: string,
    phone: string,
    street: string,
    city: string,
    state: string,
    pincode: string,
    isDefault: bool)

  datatype OrderStatus = Processing | Shipped | Delivered | Cancelled

  datatype Order = Order(
    id: string,
    date: string,
    items: seq<CartItem>,
    total: int,
    status: OrderStatus,
    addressId: string)

  datatype SortOption = NoSort | LowHigh | HighLow
}
