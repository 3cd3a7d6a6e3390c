/**
 * Trusted pricing of a cart against the catalog: which carts resolve, the
 * priced line list the route builds, the raw subtotal and the 2% surcharge.
 * Every definition recurses on the last cart line, the order in which the
 * route's loop consumes them.
 */
module Pricing {
  import opened CheckoutTypes

  /** Every cart line names a product the catalog knows. */
  predicate AllResolve(catalog: Catalog, items: seq<CartItem>)
  {
    forall k :: 0 <= k < |items| ==> items[k].product in catalog
  }

  /** The priced line of one resolved cart line. */
  function LineOf(catalog: Catalog, item: CartItem): PricedLine
    requires item.product in catalog
  {
    PricedLine(catalog[item.product].name, catalog[item.product].offerPrice, item.quantity)
  }

  /** The `productData` list: one priced line per cart line, in cart order. */
  function PricedLines(catalog: Catalog, items: seq<CartItem>): (lines: seq<PricedLine>)
    requires AllResolve(catalog, items)
    ensures |lines| == |items|
    ensures forall k :: 0 <= k < |items| ==>
      lines[k].name == catalog[items[k].product].name &&
      lines[k].price == catalog[items[k].product].offerPrice &&
      lines[k].quantity == items[k].quantity
  {
    if items == [] then []
    else PricedLines(catalog, items[..|items| - 1]) + [LineOf(catalog, items[|items| - 1])]
  }

  /** The cost of one resolved cart line: catalog price times requested quantity. */
  function LineCost(catalog: Catalog, item: CartItem): int
    requires item.product in catalog
  {
    catalog[item.product].offerPrice * item.quantity
  }

  /** The pre-surcharge amount: the sum of the line costs. */
  function Subtotal(catalog: Catalog, items: seq<CartItem>): int
    requires AllResolve(catalog, items)
  {
    if items == [] then 0
    else Subtotal(catalog, items[..|items| - 1]) + LineCost(catalog, items[|items| - 1])
  }

  /** The subtotal of a concatenation is the sum of the subtotals: pricing is per line. */
  lemma {:induction false} SubtotalAppend(catalog: Catalog, a: seq<CartItem>, b: seq<CartItem>)
    requires AllResolve(catalog, a) && AllResolve(catalog, b)
    ensures AllResolve(catalog, a + b)
    ensures Subtotal(catalog, a + b) == Subtotal(catalog, a) + Subtotal(catalog, b)
  {
    assert AllResolve(catalog, a + b) by {
      forall k | 0 <= k < |a + b| ensures (a + b)[k].product in catalog {
        if k >= |a| { assert (a + b)[k] == b[k - |a|]; }
      }
    }
    if b != [] {
      var b' := b[..|b| - 1];
      assert (a + b)[..|a + b| - 1] == a + b';
      assert (a + b)[|a + b| - 1] == b[|b| - 1];
      SubtotalAppend(catalog, a, b');
    } else {
      assert a + b == a;
    }
  }

  /** With non-negative prices and quantities the subtotal is non-negative. */
  lemma {:induction false} SubtotalNonNegative(catalog: Catalog, items: seq<CartItem>)
    requires AllResolve(catalog, items)
    requires forall k :: 0 <= k < |items| ==>
      items[k].quantity >= 0 && catalog[items[k].product].offerPrice >= 0
    ensures Subtotal(catalog, items) >= 0
  {
    if items != [] {
      SubtotalNonNegative(catalog, items[..|items| - 1]);
    }
  }

  /** The 2% surcharge, rounded down to a whole unit: the floor of amount * 2 / 100. */
  function Surcharge(amount: int): (s: int)
    ensures 100 * s <= 2 * amount < 100 * s + 100
    ensures amount >= 0 ==> 0 <= s && 50 * s <= amount
  {
    amount * 2 / 100
  }

  /** The order's amount: the subtotal with its surcharge added, i.e. floor(1.02 * raw). */
  function Total(raw: int): (t: int)
    ensures 100 * t <= 102 * raw < 100 * t + 100
    ensures raw >= 0 ==> raw <= t
  {
    raw + Surcharge(raw)
  }

  /** The worked figures: 1250 becomes 1275; 101 becomes 103, not 104. */
  lemma TotalExamples()
    ensures Total(1250) == 1275
    ensures Total(101) == 103
    ensures Total(0) == 0
    ensures Total(49) == 49
    ensures Total(50) == 51
  {
  }
}
