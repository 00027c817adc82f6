/** The linear concession schedule. */
module Concession {
  import opened Common
  import opened Protocol

  /** Division rounding up, for a positive divisor; `/` rounds down whatever the numerator's sign. */
  function CeilDiv(a: int, b: int): int
    requires b > 0
  {
    -((-a) / b)
  }

  /** What offer `k` of a party's `n` asks: from 0.8 R up to R for the buyer, rounded down, from 1.2 R
      down to R for the seller, rounded up, within the party's bound, 1 and uint256. */
  function Price(role: Role, r: nat, k: nat, n: nat): nat
    requires n >= 1
  {
    var span := 5 * (n - 1);
    var price :=
      if n == 1 then r
      else if role.Buyer? then Min(r * (4 * (n - 1) + k) / span, r)
      else Max(CeilDiv(r * (6 * (n - 1) - k), span), r);
    Min(Max(price, 1), UINT256_MAX)
  }

  lemma DivMonotone(a: int, b: int, d: int)
    requires a <= b && d > 0
    ensures a / d <= b / d
  {
    assert d * (a / d) <= a && b < d * (b / d) + d;
    if a / d > b / d {
      MulMonotone(b / d + 1, a / d, d);
    }
  }

  lemma MulMonotone(a: int, b: int, d: int)
    requires a <= b && d >= 0
    ensures a * d <= b * d
  {
  }

  // ---------------------------------------------------------------------------------------------
  // The two lines
  // ---------------------------------------------------------------------------------------------

  /** `price` is on or below the line that rises from four fifths of `r` at the first of `n` offers to
      `r` at the last, at offer `k`. */
  predicate BelowBuyersLine(r: nat, k: nat, n: nat, price: int) { (n - 1) * (5 * price - 4 * r) <= r * k }

  /** `price` is on or above the line that falls from six fifths of `r` to `r`. */
  predicate AboveSellersLine(r: nat, k: nat, n: nat, price: int) { (n - 1) * (6 * r - 5 * price) <= r * k }

  /** The whole amount a buyer offers: `r` where it has one offer only, and otherwise the greatest on or
      below its line; never above `r`, never below 1. */
  predicate BuyerAsks(r: nat, k: nat, n: nat, price: nat) {
    && 1 <= price <= Max(r, 1)
    && (n == 1 ==> price == Max(r, 1))
    && (n >= 2 && price > 1 ==> BelowBuyersLine(r, k, n, price))
    && (n >= 2 && price < r ==> !BelowBuyersLine(r, k, n, price + 1))
  }

  /** And a seller: the least on or above its line, never below `r` or 1, never above uint256. */
  predicate SellerAsks(r: nat, k: nat, n: nat, price: nat) {
    && Max(r, 1) <= price <= UINT256_MAX
    && (n == 1 ==> price == Max(r, 1))
    && (n >= 2 && price < UINT256_MAX ==> AboveSellersLine(r, k, n, price))
    && (n >= 2 && price > Max(r, 1) ==> !AboveSellersLine(r, k, n, price - 1))
  }

  predicate Asks(role: Role, r: nat, k: nat, n: nat, price: nat) {
    if role.Buyer? then BuyerAsks(r, k, n, price) else SellerAsks(r, k, n, price)
  }

  lemma FloorIsGreatest(a: int, d: int, p: int)
    requires d > 0
    ensures p <= a / d <==> d * p <= a
  {
    assert d * (a / d) <= a < d * (a / d) + d;
    if p <= a / d {
      MulMonotone(p, a / d, d);
    } else {
      MulMonotone(a / d + 1, p, d);
    }
  }

  lemma CeilingIsLeast(a: int, d: int, p: int)
    requires d > 0
    ensures CeilDiv(a, d) <= p <==> a <= d * p
  {
    FloorIsGreatest(-a, d, -p);
    assert d * -p == -(d * p);
  }

  lemma LinesAsFractions(r: nat, k: nat, n: nat, p: int)
    requires n >= 2
    ensures BelowBuyersLine(r, k, n, p) <==> 5 * (n - 1) * p <= r * (4 * (n - 1) + k)
    ensures AboveSellersLine(r, k, n, p) <==> r * (6 * (n - 1) - k) <= 5 * (n - 1) * p
  {
    var m := n - 1;
    assert m * (5 * p - 4 * r) == 5 * m * p - 4 * (m * r) && r * (4 * m + k) == 4 * (m * r) + r * k;
    assert m * (6 * r - 5 * p) == 6 * (m * r) - 5 * m * p && r * (6 * m - k) == 6 * (m * r) - r * k;
  }

  /** In exact integers, every scheduled price is the line's. */
  lemma PriceIsOnTheLine(role: Role, r: nat, k: nat, n: nat)
    requires n >= 1 && r <= UINT256_MAX
    ensures Asks(role, r, k, n, Price(role, r, k, n))
  {
    var p := Price(role, r, k, n);
    if n >= 2 {
      forall q: int
        ensures q <= r * (4 * (n - 1) + k) / (5 * (n - 1)) <==> BelowBuyersLine(r, k, n, q)
      {
        FloorIsGreatest(r * (4 * (n - 1) + k), 5 * (n - 1), q);
        LinesAsFractions(r, k, n, q);
      }
      forall q: int
        ensures CeilDiv(r * (6 * (n - 1) - k), 5 * (n - 1)) <= q <==> AboveSellersLine(r, k, n, q)
      {
        CeilingIsLeast(r * (6 * (n - 1) - k), 5 * (n - 1), q);
        LinesAsFractions(r, k, n, q);
      }
    }
  }

  lemma SidesOfTheLines(r: nat, k: nat, n: nat, p: int, q: int)
    requires n >= 1 && p <= q
    ensures BelowBuyersLine(r, k, n, q) ==> BelowBuyersLine(r, k, n, p)
    ensures AboveSellersLine(r, k, n, p) ==> AboveSellersLine(r, k, n, q)
  {
    var m := n - 1;
    MulMonotone(5 * p - 4 * r, 5 * q - 4 * r, m);
    MulMonotone(6 * r - 5 * q, 6 * r - 5 * p, m);
    assert m * (5 * p - 4 * r) == (5 * p - 4 * r) * m && m * (5 * q - 4 * r) == (5 * q - 4 * r) * m;
    assert m * (6 * r - 5 * p) == (6 * r - 5 * p) * m && m * (6 * r - 5 * q) == (6 * r - 5 * q) * m;
  }

  /** There is one such price: the lines say all of the schedule. */
  lemma OnePriceIsAsked(role: Role, r: nat, k: nat, n: nat, p: nat, q: nat)
    requires n >= 1 && Asks(role, r, k, n, p) && Asks(role, r, k, n, q)
    ensures p == q
  {
    if p < q {
      SidesOfTheLines(r, k, n, p + 1, q);
      SidesOfTheLines(r, k, n, p, q - 1);
    } else if q < p {
      SidesOfTheLines(r, k, n, q + 1, p);
      SidesOfTheLines(r, k, n, q, p - 1);
    }
  }

  /** The opening offers: a buyer's at four fifths of its bound, a seller's at six fifths. */
  lemma OpeningPrice(role: Role, r: nat, n: nat)
    requires n >= 2 && r <= UINT256_MAX
    ensures var p := Price(role, r, 0, n);
      if role.Buyer? then (5 * p <= 4 * r || p == 1) && 4 * r < 5 * (p + 1)
      else (6 * r <= 5 * p || p == UINT256_MAX) && (5 * (p - 1) < 6 * r || p == 1)
  {
    var p := Price(role, r, 0, n);
    PriceIsOnTheLine(role, r, 0, n);
    SignOfProduct(n - 1, 5 * p - 4 * r);
    SignOfProduct(n - 1, 5 * (p + 1) - 4 * r);
    SignOfProduct(n - 1, 6 * r - 5 * p);
    SignOfProduct(n - 1, 6 * r - 5 * (p - 1));
  }

  lemma SignOfProduct(m: int, x: int)
    requires m > 0
    ensures m * x <= 0 <==> x <= 0
  {
    if x > 0 {
      MulMonotone(1, m, x);
    } else {
      MulMonotone(x, 0, m);
    }
  }

  /** Each party only ever concedes: the buyer's price never falls and the seller's never rises. */
  lemma Monotone(role: Role, r: nat, k: nat, l: nat, n: nat)
    requires n >= 1 && k <= l
    ensures if role.Buyer? then Price(role, r, k, n) <= Price(role, r, l, n)
            else Price(role, r, k, n) >= Price(role, r, l, n)
  {
    if n > 1 {
      var span := 5 * (n - 1);
      if role.Buyer? {
        MulMonotone(4 * (n - 1) + k, 4 * (n - 1) + l, r);
        DivMonotone(r * (4 * (n - 1) + k), r * (4 * (n - 1) + l), span);
      } else {
        MulMonotone(6 * (n - 1) - l, 6 * (n - 1) - k, r);
        DivMonotone(-(r * (6 * (n - 1) - k)), -(r * (6 * (n - 1) - l)), span);
      }
    }
  }

  /** Despite rounding and clamping, a price stays on the safe side of the party's own bound; for a
      buyer exactly when that bound is at least 1. */
  lemma SafeSide(role: Role, r: nat, k: nat, n: nat)
    requires n >= 1 && r <= UINT256_MAX
    ensures 1 <= Price(role, r, k, n) <= UINT256_MAX
    ensures role.Buyer? ==> (Price(role, r, k, n) <= r <==> r >= 1)
    ensures role.Seller? ==> Price(role, r, k, n) >= Max(r, 1)
  {
  }

  /** The last opportunity is at the bound itself, or 1. */
  lemma LastIsBound(role: Role, r: nat, n: nat)
    requires n >= 1 && r <= UINT256_MAX
    ensures Price(role, r, n - 1, n) == Max(r, 1)
  {
    if n > 1 {
      var span := 5 * (n - 1);
      assert 4 * (n - 1) + (n - 1) == span && 6 * (n - 1) - (n - 1) == span;
      Cancel(r, span);
    }
  }

  lemma Cancel(r: int, d: int)
    requires d > 0
    ensures r * d / d == r && (-(r * d)) / d == -r
  {
    assert (-(r * d)) == (-r) * d;
    DivExact(r, d);
    DivExact(-r, d);
  }

  lemma DivExact(q: int, d: int)
    requires d > 0
    ensures q * d / d == q
  {
    var x := q * d / d;
    assert d * x <= q * d < d * x + d;
    if x < q {
      MulMonotone(x + 1, q, d);
    } else if x > q {
      MulMonotone(q + 1, x, d);
    }
  }
}
