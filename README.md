# QuickCart Stripe checkout route, modelled in Dafny

QuickCart's `POST /api/order/stripe` route turns a shopping cart into a stored
order and a Stripe checkout session. It works in six steps:

1. It rejects a body whose `address` is falsy or whose `items` list is empty.
2. It prices each cart line against the product catalog, in cart order, and stops at the first unknown product.
3. It adds a 2% surcharge, rounded down.
4. It inserts one order record.
5. It translates the priced lines into Stripe line items: unit amount × 100, currency `"usd"`.
6. It opens a session whose metadata carries the new order's id and the caller's id, then answers with the session URL.

Any error raised along the way becomes `{success:false, message}`. An order inserted before a failed gateway call is not removed.

The model is made of these modules:

- `CheckoutTypes` (types.dfy): the request body, cart lines, catalog products, priced lines, order records and the response.
- `Pricing` (pricing.dfy): which carts resolve, the `productData` list (`PricedLines`), the raw subtotal, the surcharge and the final amount.
- `Gateway` (gateway.dfy): the Stripe line items, the session request and its metadata, the gateway's abstract answer, and the decimal rendering of order ids.
- `Orders` (order_store.dfy): the order collection, as a class holding a `seq<Order>` that `Create` appends to.
- `StripeRoute` (route.dfy): `Checkout`, one function that says what a request answers, what the store holds afterwards and which session request reaches the gateway; `Post`, the route's own procedure with its pricing loop, proved equal to `Checkout`; and the lemmas stating the route's guarantees.

Collaborators appear as follows:

- The catalog is a `map<ProductId, Product>`.
- The caller id and the request origin are plain parameters.
- A failing `Order.create` is an optional error message.
- Stripe's answer is a value, `SessionOk(url)` or `SessionErr(message)`. `Post` also returns the session request it would send, so the line items and metadata can be stated.

One consequence is made explicit (`Gateway.ChargedAmountIsSubtotal`): the line items sent to Stripe add up to 100 × the pre-surcharge subtotal. The 2% surcharge is recorded in the order's `amount`, but it is not part of what the session charges.

## Model

| member | source | states |
|---|---|---|
| `Pricing.PricedLines` | app/api/order/stripe/route.js:23-32 | `productData` has one entry per cart line, in cart order; entry i has the catalog name and `offerPrice` of line i's product and line i's quantity |
| `Pricing.SubtotalAppend` | app/api/order/stripe/route.js:20-34 | each line contributes its own `offerPrice × quantity`: the subtotal of a concatenated cart is the sum of the two parts' subtotals |
| `Pricing.SubtotalNonNegative` | app/api/order/stripe/route.js:33 | with non-negative catalog prices and quantities the accumulated amount is non-negative |
| `Pricing.Surcharge` | app/api/order/stripe/route.js:37 | the surcharge s is the floor of 2% of the amount: 100·s ≤ 2·amount < 100·s + 100; for a non-negative amount, 0 ≤ s ≤ amount/50 |
| `Pricing.Total` | app/api/order/stripe/route.js:37 | the final amount t is floor(1.02 × raw): 100·t ≤ 102·raw < 100·t + 100, and t ≥ raw when raw ≥ 0 |
| `Pricing.TotalExamples` | app/api/order/stripe/route.js:37 | raw 1250 gives 1275, raw 101 gives 103, raw 49 gives 49, raw 50 gives 51 |
| `Gateway.LineItems` | app/api/order/stripe/route.js:50-57 | `line_items` has the length of `productData`; entry i has currency "usd", the line's name, unit amount price × 100 and the line's quantity |
| `Gateway.LineItemsRoundTrip` | app/api/order/stripe/route.js:50-57 | the translation is lossless: reading the line items back yields `productData` exactly |
| `Gateway.ChargedAmountIsSubtotal` | app/api/order/stripe/route.js:33-57 | the line items a priced cart produces charge exactly 100 × the pre-surcharge subtotal |
| `Gateway.IdString` | app/api/order/stripe/route.js:66 | the order id's string form is non-empty and all digits |
| `Gateway.IdStringRoundTrip` | app/api/order/stripe/route.js:66 | parsing the metadata's order id string recovers the order id |
| `Gateway.IdStringInjective` | app/api/order/stripe/route.js:66 | distinct order ids give distinct metadata strings |
| `Orders.OrderStore.Create` | app/api/order/stripe/route.js:40-47 | `Order.create` appends exactly one record with the given fields under a fresh id; earlier records are untouched and ids stay unique |
| `StripeRoute.Checkout` | app/api/order/stripe/route.js:9-76 | a request appends at most one order and never removes or alters stored ones; a session is requested exactly when an order was appended; success implies a session |
| `StripeRoute.Post` | app/api/order/stripe/route.js:9-76 | the route's step-by-step procedure (validation, pricing loop, surcharge, insert, line items, session, response) yields exactly `Checkout`'s response, store contents and session request, and keeps ids unique |
| `StripeRoute.RejectsInvalidData` | app/api/order/stripe/route.js:15-17 | a falsy address or an empty cart answers "Invalid data", stores nothing and requests no session |
| `StripeRoute.RejectsUnresolvedProduct` | app/api/order/stripe/route.js:23-27 | an unknown product at any position of an otherwise valid request answers "Invalid product", stores nothing and requests no session |
| `StripeRoute.OrderStoredIff` | app/api/order/stripe/route.js:15-47 | an order is stored if and only if the request is valid, every line resolves and the insert succeeds; otherwise the store is unchanged |
| `StripeRoute.StoredOrderContents` | app/api/order/stripe/route.js:37-47 | the stored order has a fresh id, the caller's id, the address and cart as received, payment type "Stripe" and amount floor(1.02 × catalog subtotal); earlier orders are kept |
| `StripeRoute.SessionCorrelatesOrder` | app/api/order/stripe/route.js:40-68 | ids stay unique, and the session metadata's order id parses to the new order's id, whose record carries the metadata's caller id |
| `StripeRoute.SessionLineItems` | app/api/order/stripe/route.js:50-64 | the session's line items follow the cart one for one with the catalog name, catalog price × 100, cart quantity and "usd"; the mode is "payment" and the redirects are origin + "/order-placed" and origin + "/cart" |
| `StripeRoute.GatewayErrorKeepsOrder` | app/api/order/stripe/route.js:40-74 | a gateway error after the insert answers with the error's message and the new order stays stored |
| `StripeRoute.SuccessIff` | app/api/order/stripe/route.js:60-74 | the answer is a success if and only if validation, pricing, insert and session all succeed; its URL is then the session's URL |
| `StripeRoute.TwoProductScenario` | app/api/order/stripe/route.js:19-71 | cart A (500 × 2) and B (250 × 1) stores amount 1275, sends line items 50000 × 2 and 25000 × 1, and answers with the session URL |
| `StripeRoute.UnknownLastScenario` | app/api/order/stripe/route.js:23-27 | an unknown product in the last cart position still answers "Invalid product" with the store unchanged |

## Left out

- Authentication with `getAuth`: the caller id is a parameter. The case of a missing (`null`) id is not modelled.
- `request.json()` and the `origin` header: the body is a `Request` value and the origin is a string. JSON parse errors are not modelled. Neither are non-array `items` or the `TypeError`s they raise. A missing `origin`, which would produce the literal `"null/order-placed"`, is not modelled either.
- Address truthiness: the address is a string, falsy when absent or empty. Other kinds of JavaScript values are not modelled.
- `Product.findById` is a map lookup that cannot fail. Errors raised by the database driver (for example a malformed id) are not modelled.
- `Order.create`: a failing insert is an optional error message, and a failed insert stores nothing.
- Order fields set elsewhere: the `date: Date.now()` timestamp and the order's default payment status are not modelled. The `Order` schema is not part of this model.
- Numbers: prices, quantities and amounts are unbounded integers. `Math.floor(amount * 0.02)` is modelled as the exact `amount * 2 / 100`. That is the floor of exactly 2% and ignores binary floating-point rounding of `0.02`. JavaScript's coercion of non-numeric quantities is not modelled.
- `Gateway.IdString`: in Mongoose, `order._id.toString()` renders a 24-digit hexadecimal ObjectId. The model instead takes the store position as the id and renders it in decimal. The only claim made is that the string identifies the order.
- Stripe: the SDK, the network call and the session object are left out. The session call is an abstract outcome. The model does not capture how the gateway uses the request.
- Concurrency: `async`/`await` and concurrent requests are not modelled. Each request is one sequential call over the store.
- `console.error` logging is not modelled.
