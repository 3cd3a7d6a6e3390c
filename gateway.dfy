/**
 * What the route hands to the payment gateway: the line items translated into
 * the gateway's format (unit amount in hundredths, currency "usd"), the
 * redirect targets, and the correlation metadata carrying the order id and the
 * caller id. The gateway's answer is an abstract outcome.
 */
module Gateway {
  import opened CheckoutTypes
  import opened Pricing

  const Currency: string := "usd"
  const PaymentMode: string := "payment"

  /** `price_data` of a gateway line item. */
  datatype PriceData = PriceData(currency: string, productName: string, unitAmount: int)

  /** One entry of `line_items`. */
  datatype LineItem = LineItem(priceData: PriceData, quantity: int)

  /** The correlation payload: the order id rendered as a string, and the caller id. */
  datatype Metadata = Metadata(orderId: string, userId: UserId)

  /** The arguments of the session request. */
  datatype SessionRequest = SessionRequest(
    lineItems: seq<LineItem>,
    mode: string,
    successUrl: string,
    cancelUrl: string,
    metadata: Metadata)

  /** What the gateway's session call yields: a session with a redirect URL, or an error. */
  datatype SessionOutcome = SessionOk(url: string) | SessionErr(message: string)

  /** Translation of one priced line. */
  function ToLineItem(line: PricedLine): LineItem
  {
    LineItem(PriceData(Currency, line.name, line.price * 100), line.quantity)
  }

  /** The `line_items` list: the priced lines translated one for one, in order. */
  function LineItems(lines: seq<PricedLine>): (items: seq<LineItem>)
    ensures |items| == |lines|
    ensures forall k :: 0 <= k < |lines| ==>
      items[k].priceData.currency == Currency &&
      items[k].priceData.productName == lines[k].name &&
      items[k].priceData.unitAmount == lines[k].price * 100 &&
      items[k].quantity == lines[k].quantity
  {
    if lines == [] then []
    else LineItems(lines[..|lines| - 1]) + [ToLineItem(lines[|lines| - 1])]
  }

  /** Reading a gateway line item back as a priced line. */
  function FromLineItem(item: LineItem): PricedLine
  {
    PricedLine(item.priceData.productName, item.priceData.unitAmount / 100, item.quantity)
  }

  function FromLineItems(items: seq<LineItem>): seq<PricedLine>
  {
    if items == [] then []
    else FromLineItems(items[..|items| - 1]) + [FromLineItem(items[|items| - 1])]
  }

  /** The translation loses nothing: the priced lines can be read back from the line items. */
  lemma {:induction false} LineItemsRoundTrip(lines: seq<PricedLine>)
    ensures FromLineItems(LineItems(lines)) == lines
  {
    if lines != [] {
      var front := lines[..|lines| - 1];
      var items := LineItems(lines);
      assert items[..|items| - 1] == LineItems(front);
      LineItemsRoundTrip(front);
      assert lines == front + [lines[|lines| - 1]];
    }
  }

  /** What the gateway collects for one line item: unit amount times quantity. */
  function ItemCharge(item: LineItem): int
  {
    item.priceData.unitAmount * item.quantity
  }

  /** The amount the gateway collects for a list of line items. */
  function ChargedAmount(items: seq<LineItem>): int
  {
    if items == [] then 0
    else ChargedAmount(items[..|items| - 1]) + ItemCharge(items[|items| - 1])
  }

  /**
   * The line items of a priced cart make the gateway collect exactly 100 times the
   * pre-surcharge subtotal: the surcharge recorded in the order is not among them.
   */
  lemma {:induction false} ChargedAmountIsSubtotal(catalog: Catalog, cart: seq<CartItem>)
    requires AllResolve(catalog, cart)
    ensures ChargedAmount(LineItems(PricedLines(catalog, cart))) == 100 * Subtotal(catalog, cart)
  {
    if cart != [] {
      var front := cart[..|cart| - 1];
      var last := cart[|cart| - 1];
      assert AllResolve(catalog, front);
      var lines := PricedLines(catalog, cart);
      assert lines[..|lines| - 1] == PricedLines(catalog, front);
      var items := LineItems(lines);
      assert items[..|items| - 1] == LineItems(PricedLines(catalog, front));
      ChargedAmountIsSubtotal(catalog, front);
      var price, qty := catalog[last.product].offerPrice, last.quantity;
      assert items[|items| - 1] == ToLineItem(LineOf(catalog, last));
      assert ItemCharge(items[|items| - 1]) == (price * 100) * qty;
      assert (price * 100) * qty == 100 * (price * qty);
    }
  }

  // Decimal rendering of order ids, the model's `order._id.toString()`.

  predicate IsDigit(c: char)
  {
    '0' <= c <= '9'
  }

  function DigitChar(d: nat): (c: char)
    requires d < 10
    ensures IsDigit(c) && c as int - '0' as int == d
  {
    ('0' as int + d) as char
  }

  /** The decimal string of an order id: non-empty and made of digits only. */
  function IdString(n: OrderId): (s: string)
    ensures |s| > 0
    ensures forall k :: 0 <= k < |s| ==> IsDigit(s[k])
    decreases n
  {
    if n < 10 then [DigitChar(n)] else IdString(n / 10) + [DigitChar(n % 10)]
  }

  function DigitValue(c: char): nat
    requires IsDigit(c)
  {
    c as int - '0' as int
  }

  function DigitsValue(s: string): nat
    requires forall k :: 0 <= k < |s| ==> IsDigit(s[k])
  {
    if s == [] then 0
    else 10 * DigitsValue(s[..|s| - 1]) + DigitValue(s[|s| - 1])
  }

  /** How a later confirmation recovers the order id from the metadata string. */
  function ParseId(s: string): Option<OrderId>
  {
    if s != [] && forall k :: 0 <= k < |s| ==> IsDigit(s[k]) then Some(DigitsValue(s)) else None
  }

  lemma {:induction false} DigitsValueOfIdString(n: OrderId)
    ensures DigitsValue(IdString(n)) == n
    decreases n
  {
    if n >= 10 {
      var s := IdString(n);
      assert s[..|s| - 1] == IdString(n / 10);
      DigitsValueOfIdString(n / 10);
    }
  }

  /** Rendering an id and parsing it back gives the id: distinct orders get distinct strings. */
  lemma IdStringRoundTrip(n: OrderId)
    ensures ParseId(IdString(n)) == Some(n)
  {
    DigitsValueOfIdString(n);
  }

  lemma IdStringInjective(m: OrderId, n: OrderId)
    ensures IdString(m) == IdString(n) <==> m == n
  {
    IdStringRoundTrip(m);
    IdStringRoundTrip(n);
  }
}
