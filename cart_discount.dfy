// applyDiscount and removeDiscount of scripts/cart.js: prices rewritten from a
// remembered original price, so that discounts never compound.

module CartDiscount {
  import opened Options
  import opened CartLines

  /** JavaScript truthiness of `item.originalPrice`: defined and non-zero. */
  predicate Truthy(o: Option<real>) {
    o.Some? && o.value != 0.0
  }

  /** `item.originalPrice || item.price`: the price a discount is taken from. */
  function DiscountBase(it: LineItem): real {
    if Truthy(it.originalPrice) then it.originalPrice.value else it.price
  }

  /** The multiplier `1 - discountPercent / 100` a discount applies. */
  function DiscountFactor(percent: real): real {
    1.0 - percent / 100.0
  }

  /** One iteration of applyDiscount's forEach. */
  function DiscountedItem(it: LineItem, percent: real): (r: LineItem)
    ensures KeyOf(r) == KeyOf(it) && r.quantity == it.quantity
    ensures r.price == DiscountBase(it) * DiscountFactor(percent)
    ensures DiscountBase(r) == DiscountBase(it)
  {
    var base := DiscountBase(it);
    it.(originalPrice := Some(base), price := base * DiscountFactor(percent))
  }

  /** The cart after applyDiscount(percent): every line priced from its base. */
  function Discounted(s: seq<LineItem>, percent: real): (r: seq<LineItem>)
    ensures |r| == |s|
    ensures forall j :: 0 <= j < |s| ==> r[j] == DiscountedItem(s[j], percent)
  {
    if s == [] then [] else [DiscountedItem(s[0], percent)] + Discounted(s[1..], percent)
  }

  /** One iteration of removeDiscount's forEach. */
  function RestoredItem(it: LineItem): (r: LineItem)
    ensures KeyOf(r) == KeyOf(it) && r.quantity == it.quantity
    ensures r.price == DiscountBase(it) && !Truthy(r.originalPrice)
  {
    if Truthy(it.originalPrice) then it.(price := it.originalPrice.value, originalPrice := None)
    else it
  }

  /** The cart after removeDiscount(). */
  function Restored(s: seq<LineItem>): (r: seq<LineItem>)
    ensures |r| == |s|
    ensures forall j :: 0 <= j < |s| ==> r[j] == RestoredItem(s[j])
  {
    if s == [] then [] else [RestoredItem(s[0])] + Restored(s[1..])
  }

  /** A line discounted twice is the line discounted by the second percentage:
      the base is remembered in `originalPrice`, or, when it is 0, the
      discounted price is 0 again. */
  lemma DiscountTwice(it: LineItem, p1: real, p2: real)
    ensures DiscountedItem(DiscountedItem(it, p1), p2) == DiscountedItem(it, p2)
  {
    var b := DiscountBase(it);
    var d := DiscountedItem(it, p1);
    if b == 0.0 {
      assert d.price == 0.0;
    }
    assert DiscountBase(d) == b;
  }

  /** Discounts do not compound: a second discount is taken from the same base
      as the first, so it replaces the first. */
  lemma NoCompounding(s: seq<LineItem>, p1: real, p2: real)
    ensures Discounted(Discounted(s, p1), p2) == Discounted(s, p2)
  {
    var d := Discounted(s, p1);
    var l, r := Discounted(d, p2), Discounted(s, p2);
    forall j | 0 <= j < |s|
      ensures l[j] == r[j]
    {
      DiscountTwice(s[j], p1, p2);
    }
  }

  /** A 10% discount followed by a 20% one leaves every line at 80% of its base. */
  lemma TenThenTwenty(s: seq<LineItem>)
    ensures forall j :: 0 <= j < |s| ==>
      Discounted(Discounted(s, 10.0), 20.0)[j].price == DiscountBase(s[j]) * 0.8
  {
    NoCompounding(s, 10.0, 20.0);
  }

  /** Removing the discount is idempotent. */
  lemma RestoreIdempotent(s: seq<LineItem>)
    ensures Restored(Restored(s)) == Restored(s)
  {
  }

  /** Removing the discount from a discounted line puts it back at its base price. */
  lemma RestoreDiscountedItem(it: LineItem, p: real)
    ensures RestoredItem(DiscountedItem(it, p)).price == DiscountBase(it) == RestoredItem(it).price
  {
    var b := DiscountBase(it);
    if b == 0.0 {
      assert b * DiscountFactor(p) == 0.0;
    }
  }

  /** Whatever discount was applied, removing it yields the prices that removing
      the discount from the cart before gives: each line back at its base. */
  lemma RestoreAfterDiscount(s: seq<LineItem>, p: real)
    ensures forall j :: 0 <= j < |s| ==>
      Restored(Discounted(s, p))[j].price == DiscountBase(s[j]) == Restored(s)[j].price
  {
    forall j | 0 <= j < |s|
      ensures Restored(Discounted(s, p))[j].price == DiscountBase(s[j]) == Restored(s)[j].price
    {
      RestoreDiscountedItem(s[j], p);
    }
  }

  /** On a cart with no discount and no zero prices, apply then remove gives the
      very same cart back. */
  lemma DiscountRoundTrip(s: seq<LineItem>, p: real)
    requires forall j :: 0 <= j < |s| ==> s[j].originalPrice == None && s[j].price != 0.0
    ensures Restored(Discounted(s, p)) == s
  {
  }

  /** A zero price is falsy: after apply then remove, its line keeps a stale
      `originalPrice` of 0 (its price is still right). */
  lemma ZeroPriceKeepsMarker(it: LineItem, p: real)
    requires it.price == 0.0 && it.originalPrice == None
    ensures RestoredItem(DiscountedItem(it, p)) == it.(originalPrice := Some(0.0))
  {
  }

  lemma MulRotate(a: real, b: real, c: real)
    ensures (a * b) * c == b * (a * c)
  {
  }

  lemma MulDistributes(f: real, x: real, y: real)
    ensures f * x + f * y == f * (x + y)
  {
  }

  /** `y` is `x` with its unit price multiplied by f and the same quantity. */
  predicate ItemScaled(x: LineItem, y: LineItem, f: real) {
    y.quantity == x.quantity && y.price == f * x.price
  }

  /** `t` is `s` with every unit price multiplied by f and the same quantities. */
  predicate PricesScaled(s: seq<LineItem>, t: seq<LineItem>, f: real) {
    |s| == |t| && forall j :: 0 <= j < |s| ==> ItemScaled(s[j], t[j], f)
  }

  /** The total of `t` is the total of `s` multiplied by f. */
  predicate TotalScaledBy(s: seq<LineItem>, t: seq<LineItem>, f: real) {
    Total(t) == f * Total(s)
  }

  /** Scaling every unit price by f scales the total by f. */
  lemma {:induction false} TotalScaled(s: seq<LineItem>, t: seq<LineItem>, f: real)
    requires PricesScaled(s, t, f)
    ensures TotalScaledBy(s, t, f)
  {
    if s == [] {
      assert f * 0.0 == 0.0;
    } else {
      var n := |s|;
      TotalScaled(s[..n - 1], t[..n - 1], f);
      var x, y := s[n - 1], t[n - 1];
      MulRotate(x.price, f, x.quantity as real);
      assert LineTotal(y) == f * LineTotal(x);
      MulDistributes(f, Total(s[..n - 1]), LineTotal(x));
    }
  }

  /** A discounted unit price is the base price scaled by DiscountFactor(percent). */
  lemma DiscountedPriceScaled(it: LineItem, p: real)
    ensures ItemScaled(RestoredItem(it), DiscountedItem(it, p), DiscountFactor(p))
  {
    assert RestoredItem(it).price == DiscountBase(it);
  }

  /** Every discounted unit price is its base price scaled by DiscountFactor(percent). */
  lemma DiscountScalesPrices(s: seq<LineItem>, p: real)
    ensures PricesScaled(Restored(s), Discounted(s, p), DiscountFactor(p))
  {
    forall j | 0 <= j < |s|
      ensures ItemScaled(Restored(s)[j], Discounted(s, p)[j], DiscountFactor(p))
    {
      DiscountedPriceScaled(s[j], p);
    }
  }

  /** The discounted total is the undiscounted total scaled by DiscountFactor(percent). */
  lemma DiscountTotal(s: seq<LineItem>, p: real)
    ensures TotalScaledBy(Restored(s), Discounted(s, p), DiscountFactor(p))
  {
    DiscountScalesPrices(s, p);
    TotalScaled(Restored(s), Discounted(s, p), DiscountFactor(p));
  }

  /** Discounts touch prices only: keys, quantities, hence the invariants and
      the item count, are kept. */
  lemma DiscountKeepsLines(s: seq<LineItem>, p: real)
    ensures forall j :: 0 <= j < |s| ==>
      KeyOf(Discounted(s, p)[j]) == KeyOf(s[j]) && Discounted(s, p)[j].quantity == s[j].quantity
      && KeyOf(Restored(s)[j]) == KeyOf(s[j]) && Restored(s)[j].quantity == s[j].quantity
    ensures WellFormed(s) ==> WellFormed(Discounted(s, p)) && WellFormed(Restored(s))
  {
  }

  lemma {:induction false} CountUnchangedByPrice(s: seq<LineItem>, t: seq<LineItem>)
    requires |s| == |t|
    requires forall j :: 0 <= j < |s| ==> s[j].quantity == t[j].quantity
    ensures ItemCount(s) == ItemCount(t)
  {
    if s != [] {
      CountUnchangedByPrice(s[..|s| - 1], t[..|t| - 1]);
    }
  }
}
