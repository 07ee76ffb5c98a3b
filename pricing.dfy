/**
  * The price estimate shown on the checkout page and handed to the card gateway:
  * subtotal over the cart lines, the flat shipping fee of the delivery state,
  * the percentage discount, 7.5% tax on the discounted subtotal, the total, and
  * the total in kobo. Money is exact (`real`); the only rounding is the ceiling
  * to kobo.
  */
module Pricing {
  import opened Wrappers

  /** A line of the shopper's cart. `price` is the stored price string already
      read as a number. */
  datatype CartLine = CartLine(
    id: string,
    name: string,
    price: real,
    image: string,
    quantity: int,
    size: Option<string>,
    color: Option<string>)

  /** The amount one line contributes to the subtotal. */
  function LineAmount(line: CartLine): real {
    line.price * line.quantity as real
  }

  /** `getSubtotal`: a left-to-right fold adding each line's price times quantity
      to a running total that starts at 0, as `Array.prototype.reduce` does. */
  function Subtotal(lines: seq<CartLine>): real {
    if lines == [] then 0.0
    else Subtotal(lines[..|lines| - 1]) + LineAmount(lines[|lines| - 1])
  }

  /** A reference definition of the same sum, taken from the front of the cart. */
  function SumOfLines(lines: seq<CartLine>): real {
    if lines == [] then 0.0 else LineAmount(lines[0]) + SumOfLines(lines[1..])
  }

  /** The subtotal of two carts laid end to end is the sum of their subtotals. */
  lemma {:induction false} SubtotalAppend(a: seq<CartLine>, b: seq<CartLine>)
    ensures Subtotal(a + b) == Subtotal(a) + Subtotal(b)
  {
    if b == [] {
      assert a + b == a;
    } else {
      var b' := b[..|b| - 1];
      assert (a + b)[..|a + b| - 1] == a + b';
      SubtotalAppend(a, b');
    }
  }

  /** The fold computes the sum of price times quantity over the cart. */
  lemma {:induction false} SubtotalIsSumOfLines(lines: seq<CartLine>)
    ensures Subtotal(lines) == SumOfLines(lines)
  {
    if lines != [] {
      SubtotalIsSumOfLines(lines[1..]);
      assert lines == [lines[0]] + lines[1..];
      SubtotalAppend([lines[0]], lines[1..]);
      assert [lines[0]][..0] == [];
    }
  }

  /** With non-negative prices and quantities, the subtotal is non-negative. */
  lemma {:induction false} SubtotalNonNegative(lines: seq<CartLine>)
    requires forall k :: 0 <= k < |lines| ==> lines[k].price >= 0.0 && lines[k].quantity >= 0
    ensures Subtotal(lines) >= 0.0
  {
    if lines != [] {
      SubtotalNonNegative(lines[..|lines| - 1]);
    }
  }

  /** An empty cart costs nothing before shipping. */
  lemma SubtotalEmpty()
    ensures Subtotal([]) == 0.0
  {
  }

  const LagosFee: real := 1500.0
  const OgunFee: real := 2000.0
  const AbujaFee: real := 3500.0
  const RiversFee: real := 4000.0
  /** The base rate for an unselected state (`""`), `"Other"`, or any other value. */
  const DefaultFee: real := 2500.0

  /** `getShipping`: the flat fee for the delivery state, compared as an exact string. */
  function ShippingFee(state: string): (fee: real)
    ensures fee == LagosFee <==> state == "Lagos"
    ensures fee == OgunFee <==> state == "Ogun"
    ensures fee == AbujaFee <==> state == "Abuja"
    ensures fee == RiversFee <==> state == "Rivers"
    ensures fee == DefaultFee <==> state !in {"Lagos", "Ogun", "Abuja", "Rivers"}
    ensures LagosFee <= fee <= RiversFee
  {
    match state
    case "Lagos" => LagosFee
    case "Ogun" => OgunFee
    case "Abuja" => AbujaFee
    case "Rivers" => RiversFee
    case _ => DefaultFee
  }

  const TaxRate: real := 0.075

  /** An amount with the discount rate taken off. */
  function Discounted(amount: real, discount: real): real {
    amount * (1.0 - discount)
  }

  /** The 7.5% tax on an amount. */
  function TaxOn(amount: real): real {
    amount * TaxRate
  }

  /** The subtotal after the discount rate is taken off. */
  function DiscountedSubtotal(lines: seq<CartLine>, discount: real): real {
    Discounted(Subtotal(lines), discount)
  }

  /** `getTax`: 7.5% of the discounted subtotal. */
  function Tax(lines: seq<CartLine>, discount: real): real {
    TaxOn(DiscountedSubtotal(lines, discount))
  }

  /** `getTotal`: discounted subtotal, plus shipping, plus tax. */
  function Total(lines: seq<CartLine>, discount: real, state: string): real {
    DiscountedSubtotal(lines, discount) + ShippingFee(state) + Tax(lines, discount)
  }

  /** The estimate written as a discount amount taken off the subtotal, tax charged
      on the remainder, and shipping added. */
  lemma TotalDecomposes(lines: seq<CartLine>, discount: real, state: string)
    ensures var subtotal := Subtotal(lines);
            var discountAmount := subtotal * discount;
            && Tax(lines, discount) == (subtotal - discountAmount) * TaxRate
            && Total(lines, discount, state)
               == (subtotal - discountAmount) * (1.0 + TaxRate) + ShippingFee(state)
  {
  }

  /** The product of two non-negative amounts is non-negative. */
  lemma ProductNonNegative(a: real, b: real)
    requires a >= 0.0 && b >= 0.0
    ensures a * b >= 0.0
  {
  }

  /** Taking a discount rate in [0, 1] off a non-negative amount leaves between
      nothing and the whole amount, and the tax on it lies between nothing and the
      tax on the whole amount. */
  lemma DiscountedWithin(amount: real, discount: real)
    requires amount >= 0.0 && 0.0 <= discount <= 1.0
    ensures 0.0 <= Discounted(amount, discount) <= amount
    ensures 0.0 <= TaxOn(Discounted(amount, discount)) <= TaxOn(amount)
  {
    ProductNonNegative(amount, discount);
    assert amount - Discounted(amount, discount) == amount * discount;
  }

  /** With a discount rate between 0 and 1 and non-negative prices and quantities,
      the total never falls below the shipping fee, and the tax never exceeds 7.5%
      of the undiscounted subtotal. */
  lemma TotalAtLeastShipping(lines: seq<CartLine>, discount: real, state: string)
    requires 0.0 <= discount <= 1.0
    requires forall k :: 0 <= k < |lines| ==> lines[k].price >= 0.0 && lines[k].quantity >= 0
    ensures 0.0 <= Tax(lines, discount) <= Subtotal(lines) * TaxRate
    ensures Total(lines, discount, state) >= ShippingFee(state) >= LagosFee
  {
    SubtotalNonNegative(lines);
    DiscountedWithin(Subtotal(lines), discount);
  }

  /** A larger discount rate never raises the total. */
  lemma TotalAntitoneInDiscount(lines: seq<CartLine>, d1: real, d2: real, state: string)
    requires d1 <= d2
    requires forall k :: 0 <= k < |lines| ==> lines[k].price >= 0.0 && lines[k].quantity >= 0
    ensures Total(lines, d2, state) <= Total(lines, d1, state)
  {
    SubtotalNonNegative(lines);
    var s := Subtotal(lines);
    assert s * (1.0 - d2) <= s * (1.0 - d1);
  }

  /** A 10% coupon on a 10,000 subtotal takes 1,000 off and charges tax on 9,000. */
  lemma TenPercentExample(state: string)
    ensures var lines := [CartLine("p", "Item", 2500.0, "", 4, None, None)];
            && Subtotal(lines) == 10000.0
            && Tax(lines, 0.1) == 675.0
            && Total(lines, 0.1, state) == 9675.0 + ShippingFee(state)
  {
    var lines := [CartLine("p", "Item", 2500.0, "", 4, None, None)];
    assert lines[..0] == [];
  }

  /** The smallest integer not below `x`: JavaScript's `Math.ceil`. */
  function Ceiling(x: real): (r: int)
    ensures x <= r as real < x + 1.0
  {
    -((-x).Floor)
  }

  /** The amount given to the card gateway: the total in kobo, rounded up. */
  function KoboAmount(total: real): (kobo: int)
    ensures total * 100.0 <= kobo as real < total * 100.0 + 1.0
    ensures total >= 0.0 ==> kobo >= 0
  {
    Ceiling(total * 100.0)
  }

  /** Rounding up never undercharges and overcharges by less than one kobo; a
      whole number of kobo is passed through unchanged. */
  lemma KoboExact(total: real, n: int)
    requires total * 100.0 == n as real
    ensures KoboAmount(total) == n
  {
  }

  /** Rounding up preserves order: a larger total never yields fewer kobo. */
  lemma KoboMonotone(t1: real, t2: real)
    requires t1 <= t2
    ensures KoboAmount(t1) <= KoboAmount(t2)
  {
  }
}
