/**
 * Values exchanged by the checkout route: the request body, catalog products,
 * priced lines, persisted orders and the response returned to the caller.
 */
module CheckoutTypes {

  datatype Option<+T> = None | Some(value: T)

  type ProductId = string
  type UserId = string
  /** The shipping address is passed through unexamined except for presence. */
  type Address = string
  /** Orders are identified by their position in the order store. */
  type OrderId = nat

  /** One caller-supplied cart line: a product reference and a quantity. */
  datatype CartItem = CartItem(product: ProductId, quantity: int)

  /** The parsed request body: `address` may be missing, `items` is the cart. */
  datatype Request = Request(address: Option<Address>, items: seq<CartItem>)

  /** A trusted catalog entry; `offerPrice` is the price the route charges. */
  datatype Product = Product(name: string, offerPrice: int)

  type Catalog = map<ProductId, Product>

  /** An entry of `productData`: name and price from the catalog, quantity from the cart. */
  datatype PricedLine = PricedLine(name: string, price: int, quantity: int)

  /** A persisted order record. */
  datatype Order = Order(
    id: OrderId,
    userId: UserId,
    address: Address,
    items: seq<CartItem>,
    amount: int,
    paymentType: string)

  /** The JSON body the route answers with: `{success:false, message}` or `{success:true, url}`. */
  datatype Response = Failure(message: string) | Success(url: string)

  const InvalidDataMessage: string := "Invalid data"
  const InvalidProductMessage: string := "Invalid product"
  const StripePaymentType: string := "Stripe"

  /** JavaScript truthiness of the address: absent and the empty string are falsy. */
  predicate HasAddress(a: Option<Address>)
  {
    a.Some? && a.value != ""
  }

  /** Every order sits at the index equal to its id, so ids are unique. */
  predicate IdsAreIndices(orders: seq<Order>)
  {
    forall k :: 0 <= k < |orders| ==> orders[k].id == k
  }
}
