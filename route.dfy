/**
 * The checkout route `POST /api/order/stripe`: validate the body, price the
 * cart against the catalog, create the order, then ask the payment gateway for
 * a checkout session tagged with the order id and the caller id.
 *
 * `Checkout` states, as one function of the inputs and the stored orders, what
 * a request answers, what the order store holds afterwards and which session
 * request (if any) reaches the gateway. `Post` is the route's own step-by-step
 * procedure, proved to agree with it; the lemmas below state the route's
 * guarantees about `Checkout`.
 */
module StripeRoute {
  import opened CheckoutTypes
  import opened Pricing
  import opened Gateway
  import opened Orders

  /** Everything a request produces: the response, the new store contents, the session request sent. */
  datatype Handled = Handled(response: Response, orders: seq<Order>, session: Option<SessionRequest>)

  /** The request passes validation and every cart line resolves. */
  predicate Priceable(catalog: Catalog, req: Request)
  {
    HasAddress(req.address) && |req.items| > 0 && AllResolve(catalog, req.items)
  }

  /** The order record the route persists for a priceable request. */
  function NewOrder(orders: seq<Order>, catalog: Catalog, userId: UserId, req: Request): Order
    requires Priceable(catalog, req)
  {
    Order(|orders|, userId, req.address.value, req.items,
          Total(Subtotal(catalog, req.items)), StripePaymentType)
  }

  /** The session request for a persisted order. */
  function SessionFor(catalog: Catalog, items: seq<CartItem>, order: Order, userId: UserId, origin: string): SessionRequest
    requires AllResolve(catalog, items)
  {
    SessionRequest(
      LineItems(PricedLines(catalog, items)),
      PaymentMode,
      origin + "/order-placed",
      origin + "/cart",
      Metadata(IdString(order.id), userId))
  }

  /** The response for the gateway's answer. */
  function Respond(outcome: SessionOutcome): Response
  {
    match outcome
    case SessionOk(url) => Success(url)
    case SessionErr(message) => Failure(message)
  }

  /**
   * The whole request. `createFault` is the message of the error `Order.create`
   * raises, if it raises; `gateway` is the gateway's answer to the session request.
   */
  function Checkout(orders: seq<Order>, catalog: Catalog, userId: UserId, origin: string, req: Request,
                    createFault: Option<string>, gateway: SessionOutcome): (h: Handled)
    ensures |orders| <= |h.orders| <= |orders| + 1 && h.orders[..|orders|] == orders
    ensures h.session.Some? <==> |h.orders| == |orders| + 1
    ensures h.response.Success? ==> h.session.Some?
  {
    if !HasAddress(req.address) || |req.items| == 0 then
      Handled(Failure(InvalidDataMessage), orders, None)
    else if !AllResolve(catalog, req.items) then
      Handled(Failure(InvalidProductMessage), orders, None)
    else if createFault.Some? then
      Handled(Failure(createFault.value), orders, None)
    else
      var order := NewOrder(orders, catalog, userId, req);
      Handled(Respond(gateway), orders + [order], Some(SessionFor(catalog, req.items, order, userId, origin)))
  }

  /**
   * The route handler. The caller id comes from authentication, `origin` from the
   * request headers; the store is updated in place by `Order.create`.
   */
  method Post(store: OrderStore, catalog: Catalog, userId: UserId, origin: string, req: Request,
              createFault: Option<string>, gateway: SessionOutcome)
    returns (response: Response, session: Option<SessionRequest>)
    requires store.Valid()
    modifies store
    ensures store.Valid()
    ensures Handled(response, store.orders, session)
         == Checkout(old(store.orders), catalog, userId, origin, req, createFault, gateway)
  {
    if !HasAddress(req.address) || |req.items| == 0 {
      return Failure(InvalidDataMessage), None;
    }

    var productData: seq<PricedLine> := [];
    var amount := 0;
    var i := 0;
    while i < |req.items|
      invariant 0 <= i <= |req.items|
      invariant AllResolve(catalog, req.items[..i])
      invariant productData == PricedLines(catalog, req.items[..i])
      invariant amount == Subtotal(catalog, req.items[..i])
      invariant store.orders == old(store.orders)
    {
      var item := req.items[i];
      if item.product !in catalog {
        return Failure(InvalidProductMessage), None;
      }
      var product := catalog[item.product];
      assert req.items[..i + 1][..i] == req.items[..i];
      productData := productData + [PricedLine(product.name, product.offerPrice, item.quantity)];
      amount := amount + product.offerPrice * item.quantity;
      i := i + 1;
    }
    assert req.items[..i] == req.items;

    amount := amount + Surcharge(amount);

    if createFault.Some? {
      return Failure(createFault.value), None;
    }
    var order := store.Create(userId, req.address.value, req.items, amount, StripePaymentType);

    var lineItems := LineItems(productData);
    session := Some(SessionRequest(lineItems, PaymentMode, origin + "/order-placed", origin + "/cart",
                                   Metadata(IdString(order.id), userId)));
    match gateway {
      case SessionOk(url) => response := Success(url);
      case SessionErr(message) => response := Failure(message);
    }
  }

  // The route's guarantees.

  /** A missing or empty address, or an empty cart: "Invalid data", nothing stored, no session. */
  lemma RejectsInvalidData(orders: seq<Order>, catalog: Catalog, userId: UserId, origin: string, req: Request,
                           createFault: Option<string>, gateway: SessionOutcome)
    requires !HasAddress(req.address) || req.items == []
    ensures Checkout(orders, catalog, userId, origin, req, createFault, gateway)
         == Handled(Failure(InvalidDataMessage), orders, None)
  {
  }

  /** An unresolvable product anywhere in a valid cart: "Invalid product", nothing stored, no session. */
  lemma RejectsUnresolvedProduct(orders: seq<Order>, catalog: Catalog, userId: UserId, origin: string, req: Request,
                                 createFault: Option<string>, gateway: SessionOutcome, k: nat)
    requires HasAddress(req.address)
    requires k < |req.items| && req.items[k].product !in catalog
    ensures Checkout(orders, catalog, userId, origin, req, createFault, gateway)
         == Handled(Failure(InvalidProductMessage), orders, None)
  {
  }

  /** An order is stored exactly when the request is valid, every line resolves and the insert succeeds. */
  lemma OrderStoredIff(orders: seq<Order>, catalog: Catalog, userId: UserId, origin: string, req: Request,
                       createFault: Option<string>, gateway: SessionOutcome)
    ensures var h := Checkout(orders, catalog, userId, origin, req, createFault, gateway);
      (|h.orders| == |orders| + 1 <==> Priceable(catalog, req) && createFault.None?) &&
      (|h.orders| != |orders| + 1 ==> h.orders == orders)
  {
  }

  /**
   * The stored order: the caller's id, the address and cart as received, a fresh id,
   * payment type "Stripe" and amount floor(1.02 * the catalog subtotal).
   */
  lemma StoredOrderContents(orders: seq<Order>, catalog: Catalog, userId: UserId, origin: string, req: Request,
                            createFault: Option<string>, gateway: SessionOutcome)
    requires Priceable(catalog, req) && createFault.None?
    ensures var h := Checkout(orders, catalog, userId, origin, req, createFault, gateway);
      var raw := Subtotal(catalog, req.items);
      |h.orders| == |orders| + 1 && h.orders[..|orders|] == orders &&
      h.orders[|orders|].id == |orders| &&
      h.orders[|orders|].userId == userId &&
      h.orders[|orders|].address == req.address.value &&
      h.orders[|orders|].items == req.items &&
      h.orders[|orders|].paymentType == "Stripe" &&
      100 * h.orders[|orders|].amount <= 102 * raw < 100 * h.orders[|orders|].amount + 100
  {
  }

  /**
   * The correlation payload identifies the stored order: parsing its order id gives the
   * index of the new record, which carries that id and the payload's caller id.
   */
  lemma SessionCorrelatesOrder(orders: seq<Order>, catalog: Catalog, userId: UserId, origin: string, req: Request,
                               createFault: Option<string>, gateway: SessionOutcome)
    requires IdsAreIndices(orders)
    ensures var h := Checkout(orders, catalog, userId, origin, req, createFault, gateway);
      IdsAreIndices(h.orders) &&
      (h.session.Some? ==>
        var m := h.session.value.metadata;
        ParseId(m.orderId) == Some(|orders|) &&
        |orders| < |h.orders| &&
        h.orders[|orders|].id == |orders| &&
        h.orders[|orders|].userId == m.userId == userId)
  {
    var h := Checkout(orders, catalog, userId, origin, req, createFault, gateway);
    if h.session.Some? {
      IdStringRoundTrip(|orders|);
    }
  }

  /**
   * The gateway line items: one per cart line, in cart order, each with the catalog
   * name, the catalog price times 100, the cart quantity and currency "usd"; the
   * redirect targets hang off the request origin.
   */
  lemma SessionLineItems(orders: seq<Order>, catalog: Catalog, userId: UserId, origin: string, req: Request,
                         createFault: Option<string>, gateway: SessionOutcome)
    ensures var h := Checkout(orders, catalog, userId, origin, req, createFault, gateway);
      h.session.Some? ==>
        var s := h.session.value;
        s.mode == "payment" &&
        s.successUrl == origin + "/order-placed" && s.cancelUrl == origin + "/cart" &&
        |s.lineItems| == |req.items| &&
        forall k :: 0 <= k < |req.items| ==>
          req.items[k].product in catalog &&
          s.lineItems[k].priceData.currency == "usd" &&
          s.lineItems[k].priceData.productName == catalog[req.items[k].product].name &&
          s.lineItems[k].priceData.unitAmount == catalog[req.items[k].product].offerPrice * 100 &&
          s.lineItems[k].quantity == req.items[k].quantity
  {
  }

  /** A gateway error after the insert: the error's message, and the new order stays stored. */
  lemma GatewayErrorKeepsOrder(orders: seq<Order>, catalog: Catalog, userId: UserId, origin: string, req: Request,
                               createFault: Option<string>, gateway: SessionOutcome)
    requires Priceable(catalog, req) && createFault.None? && gateway.SessionErr?
    ensures var h := Checkout(orders, catalog, userId, origin, req, createFault, gateway);
      h.response == Failure(gateway.message) &&
      h.orders == orders + [NewOrder(orders, catalog, userId, req)] &&
      h.session.Some?
  {
  }

  /** Success exactly when every step succeeds; the URL is then the session's. */
  lemma SuccessIff(orders: seq<Order>, catalog: Catalog, userId: UserId, origin: string, req: Request,
                   createFault: Option<string>, gateway: SessionOutcome)
    ensures var h := Checkout(orders, catalog, userId, origin, req, createFault, gateway);
      (h.response.Success? <==> Priceable(catalog, req) && createFault.None? && gateway.SessionOk?) &&
      (h.response.Success? ==> h.response.url == gateway.url)
  {
  }

  /** The two-product cart: raw 1250, stored amount 1275, line items of 50000 and 25000. */
  lemma TwoProductScenario(orders: seq<Order>)
    ensures
      var catalog := map["A" := Product("Alpha", 500), "B" := Product("Beta", 250)];
      var req := Request(Some("addr-1"), [CartItem("A", 2), CartItem("B", 1)]);
      var h := Checkout(orders, catalog, "user-1", "https://shop", req, None, SessionOk("https://pay/s1"));
      h.response == Success("https://pay/s1") &&
      |h.orders| == |orders| + 1 && h.orders[|orders|].amount == 1275 &&
      h.session.Some? &&
      h.session.value.lineItems == [
        LineItem(PriceData("usd", "Alpha", 50000), 2),
        LineItem(PriceData("usd", "Beta", 25000), 1)]
  {
    var catalog := map["A" := Product("Alpha", 500), "B" := Product("Beta", 250)];
    var items := [CartItem("A", 2), CartItem("B", 1)];
    assert items[..1] == [CartItem("A", 2)];
    assert [CartItem("A", 2)][..0] == [];
    assert Subtotal(catalog, items) == 1250;
    assert PricedLines(catalog, items) == [PricedLine("Alpha", 500, 2), PricedLine("Beta", 250, 1)];
  }

  /** The unknown product last in the cart: rejected, and still nothing is stored. */
  lemma UnknownLastScenario(orders: seq<Order>)
    ensures
      var catalog := map["A" := Product("Alpha", 500)];
      var req := Request(Some("addr-1"), [CartItem("A", 2), CartItem("Z", 1)]);
      Checkout(orders, catalog, "user-1", "https://shop", req, None, SessionOk("https://pay/s1"))
        == Handled(Failure("Invalid product"), orders, None)
  {
    var req := Request(Some("addr-1"), [CartItem("A", 2), CartItem("Z", 1)]);
    assert req.items[1].product == "Z";
  }
}
