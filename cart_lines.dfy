// The line items of scripts/cart.js and the pure functions that say what adding,
// removing and the count/total reductions do to the ordered list of lines.

module CartLines {
  import opened Options

  /** A product as the storefront passes it to addToCart, carrying the
      customer's chosen size and colour. */
  datatype Product = Product(
    id: int,
    name: string,
    price: real,
    images: seq<string>,
    selectedSize: string,
    selectedColor: string,
    selectedColorValue: string)

  /** One line of the cart. `originalPrice` is the JavaScript property that a
      discount adds and removing the discount deletes. */
  datatype LineItem = LineItem(
    id: int,
    name: string,
    price: real,
    image: Option<string>,
    selectedSize: string,
    selectedColor: string,
    selectedColorValue: string,
    quantity: int,
    originalPrice: Option<real>)

  /** The identity of a line: product id, size and colour (not the colour swatch). */
  datatype Key = Key(id: int, size: string, color: string)

  function KeyOf(it: LineItem): Key {
    Key(it.id, it.selectedSize, it.selectedColor)
  }

  function ProductKey(p: Product): Key {
    Key(p.id, p.selectedSize, p.selectedColor)
  }

  /** The cart invariants: every quantity is at least 1 and no two lines share a key. */
  predicate WellFormed(s: seq<LineItem>) {
    && (forall i :: 0 <= i < |s| ==> s[i].quantity >= 1)
    && (forall i, j :: 0 <= i < j < |s| ==> KeyOf(s[i]) != KeyOf(s[j]))
  }

  // ---------------------------------------------------------------- adding

  /** `cart.find(...)` as an index: the first line with key `k`, or -1. */
  function FindLine(s: seq<LineItem>, k: Key): (r: int)
    ensures -1 <= r < |s|
    ensures r == -1 <==> forall j :: 0 <= j < |s| ==> KeyOf(s[j]) != k
    ensures r >= 0 ==> KeyOf(s[r]) == k && forall j :: 0 <= j < r ==> KeyOf(s[j]) != k
  {
    if s == [] then -1
    else if KeyOf(s[0]) == k then 0
    else
      var r := FindLine(s[1..], k);
      if r == -1 then -1 else r + 1
  }

  /** The line addToCart appends for a product not yet in the cart: a snapshot
      of its presentation fields, with `images[0]` undefined for an empty list. */
  function NewLine(p: Product): LineItem {
    LineItem(p.id, p.name, p.price, if |p.images| > 0 then Some(p.images[0]) else None,
             p.selectedSize, p.selectedColor, p.selectedColorValue, 1, None)
  }

  /** The cart after addToCart(p). */
  function Added(s: seq<LineItem>, p: Product): (r: seq<LineItem>)
    ensures |s| <= |r| <= |s| + 1
    ensures exists j :: 0 <= j < |r| && KeyOf(r[j]) == ProductKey(p)
  {
    var i := FindLine(s, ProductKey(p));
    if i >= 0 then
      assert KeyOf(s[i := s[i].(quantity := s[i].quantity + 1)][i]) == ProductKey(p);
      s[i := s[i].(quantity := s[i].quantity + 1)]
    else
      assert KeyOf((s + [NewLine(p)])[|s|]) == ProductKey(p);
      s + [NewLine(p)]
  }

  /** When line `i` is the first with the product's key, adding increments
      exactly that line's quantity; length, order and every other line stay. */
  lemma AddMerges(s: seq<LineItem>, p: Product, i: int)
    requires 0 <= i < |s| && KeyOf(s[i]) == ProductKey(p)
    requires forall j :: 0 <= j < i ==> KeyOf(s[j]) != ProductKey(p)
    ensures |Added(s, p)| == |s|
    ensures Added(s, p)[i] == s[i].(quantity := s[i].quantity + 1)
    ensures forall j :: 0 <= j < |s| && j != i ==> Added(s, p)[j] == s[j]
  {
    var r := FindLine(s, ProductKey(p));
    assert r != -1;
    assert !(r < i) && !(i < r);
  }

  /** When no line has the product's key, adding appends one fresh line at the end. */
  lemma AddAppends(s: seq<LineItem>, p: Product)
    requires forall j :: 0 <= j < |s| ==> KeyOf(s[j]) != ProductKey(p)
    ensures Added(s, p) == s + [NewLine(p)]
    ensures var last := Added(s, p)[|s|];
      last.quantity == 1 && KeyOf(last) == ProductKey(p) && last.price == p.price
      && last.name == p.name && last.selectedColorValue == p.selectedColorValue
      && last.originalPrice == None
      && (last.image == if p.images == [] then None else Some(p.images[0]))
  {
  }

  /** Adding keeps the cart invariants: keys stay unique and quantities stay positive. */
  lemma AddPreservesWellFormed(s: seq<LineItem>, p: Product)
    requires WellFormed(s)
    ensures WellFormed(Added(s, p))
  {
    var i := FindLine(s, ProductKey(p));
    var r := Added(s, p);
    if i >= 0 {
      forall a, b | 0 <= a < b < |r|
        ensures KeyOf(r[a]) != KeyOf(r[b])
      {
        assert KeyOf(r[a]) == KeyOf(s[a]) && KeyOf(r[b]) == KeyOf(s[b]);
      }
    } else {
      forall a, b | 0 <= a < b < |r|
        ensures KeyOf(r[a]) != KeyOf(r[b])
      {
        if b == |s| {
          assert r[a] == s[a];
        } else {
          assert r[a] == s[a] && r[b] == s[b];
        }
      }
    }
  }

  /** Once a line exists, a later add of the same key changes only its quantity:
      the price, name and colour swatch snapshot of the first add stay. */
  lemma AddSnapshotsFirstAdd(s: seq<LineItem>, p: Product, q: Product)
    requires ProductKey(p) == ProductKey(q)
    requires exists j :: 0 <= j < |s| && KeyOf(s[j]) == ProductKey(p)
    ensures Added(s, p) == Added(s, q)
  {
  }

  /** `n` consecutive adds of one product. */
  function AddedTimes(s: seq<LineItem>, p: Product, n: nat): seq<LineItem> {
    if n == 0 then s else Added(AddedTimes(s, p, n - 1), p)
  }

  /** Adding the same product n >= 1 times to a cart without its key yields
      exactly one new line, at the end, with quantity n; earlier lines are untouched. */
  lemma {:induction false} AddRepeated(s: seq<LineItem>, p: Product, n: nat)
    requires n >= 1
    requires forall j :: 0 <= j < |s| ==> KeyOf(s[j]) != ProductKey(p)
    ensures |AddedTimes(s, p, n)| == |s| + 1
    ensures AddedTimes(s, p, n)[..|s|] == s
    ensures AddedTimes(s, p, n)[|s|] == NewLine(p).(quantity := n)
  {
    if n == 1 {
      AddAppends(s, p);
    } else {
      AddRepeated(s, p, n - 1);
      var t := AddedTimes(s, p, n - 1);
      assert forall j :: 0 <= j < |s| ==> t[j] == s[j];
      AddMerges(t, p, |s|);
      var u := AddedTimes(s, p, n);
      assert u[..|s|] == s;
    }
  }

  // ---------------------------------------------------------------- removing

  /** The start position `Array.prototype.splice` uses for a given index:
      a negative index counts from the end and is clamped at 0; an index past
      the end is clamped to the length. */
  function SpliceStart(len: nat, index: int): (k: nat)
    ensures k <= len
    ensures 0 <= index <= len ==> k == index
    ensures index > len ==> k == len
    ensures index < 0 && len + index >= 0 ==> k == len + index
    ensures len + index < 0 ==> k == 0
  {
    if index < 0 then (if len + index < 0 then 0 else len + index)
    else if index > len then len
    else index
  }

  /** The cart after removeFromCart(index), that is `cart.splice(index, 1)`. */
  function Removed(s: seq<LineItem>, index: int): (r: seq<LineItem>)
    ensures |r| == (if SpliceStart(|s|, index) < |s| then |s| - 1 else |s|)
    ensures var k := SpliceStart(|s|, index); r[..k] == s[..k]
    ensures var k := SpliceStart(|s|, index); k < |s| ==> r[k..] == s[k + 1..]
  {
    var k := SpliceStart(|s|, index);
    if k < |s| then s[..k] + s[k + 1..] else s
  }

  /** An index inside the cart deletes exactly that line; the rest keep their order. */
  lemma RemoveInRange(s: seq<LineItem>, i: int)
    requires 0 <= i < |s|
    ensures Removed(s, i) == s[..i] + s[i + 1..]
    ensures |Removed(s, i)| == |s| - 1
    ensures forall j :: 0 <= j < i ==> Removed(s, i)[j] == s[j]
    ensures forall j :: i <= j < |s| - 1 ==> Removed(s, i)[j] == s[j + 1]
  {
  }

  /** An index at or past the end leaves the cart unchanged. */
  lemma RemoveBeyondEnd(s: seq<LineItem>, i: int)
    requires i >= |s|
    ensures Removed(s, i) == s
  {
  }

  /** A negative index counts from the end; one further back than the length
      clamps to the first line, which is then deleted. */
  lemma RemoveNegative(s: seq<LineItem>, i: int)
    requires i < 0 && s != []
    ensures -|s| <= i ==> Removed(s, i) == Removed(s, |s| + i)
    ensures i < -|s| ==> Removed(s, i) == s[1..]
  {
  }

  /** Deleting a line keeps the cart invariants. */
  lemma RemovePreservesWellFormed(s: seq<LineItem>, i: int)
    requires WellFormed(s)
    ensures WellFormed(Removed(s, i))
  {
    var k := SpliceStart(|s|, i);
    if k < |s| {
      assert Removed(s, i) == s[..k] + s[k + 1..];
      DropKeepsWellFormed(s, k);
    }
  }

  /** Taking out the line at position k keeps the cart invariants. */
  lemma DropKeepsWellFormed(s: seq<LineItem>, k: int)
    requires WellFormed(s) && 0 <= k < |s|
    ensures WellFormed(s[..k] + s[k + 1..])
  {
    var r := s[..k] + s[k + 1..];
    assert forall j :: 0 <= j < k ==> r[j] == s[j];
    assert forall j :: k <= j < |r| ==> r[j] == s[j + 1];
    forall a, b | 0 <= a < b < |r|
      ensures KeyOf(r[a]) != KeyOf(r[b])
    {
      var a' := if a < k then a else a + 1;
      var b' := if b < k then b else b + 1;
      assert r[a] == s[a'] && r[b] == s[b'];
    }
  }

  // ---------------------------------------------------------------- totals

  lemma UpdateSplit<T>(s: seq<T>, i: int, x: T)
    requires 0 <= i < |s|
    ensures s[i := x] == (s[..i] + [x]) + s[i + 1..]
  {
  }

  lemma SplitAt<T>(s: seq<T>, i: int)
    requires 0 <= i < |s|
    ensures s == (s[..i] + [s[i]]) + s[i + 1..]
  {
  }

  /** The price shown for one line: unit price times quantity. */
  function LineTotal(it: LineItem): real {
    it.price * it.quantity as real
  }

  /** `cart.reduce((total, item) => total + item.quantity, 0)`, folded from the left. */
  function ItemCount(s: seq<LineItem>): (n: int)
    ensures (forall j :: 0 <= j < |s| ==> s[j].quantity >= 1) ==> n >= |s|
  {
    if s == [] then 0 else ItemCount(s[..|s| - 1]) + s[|s| - 1].quantity
  }

  /** `cart.reduce((sum, item) => sum + item.price * item.quantity, 0)`, folded from the left. */
  function Total(s: seq<LineItem>): (t: real)
    ensures (forall j :: 0 <= j < |s| ==> s[j].price >= 0.0 && s[j].quantity >= 0) ==> t >= 0.0
  {
    if s == [] then 0.0 else Total(s[..|s| - 1]) + LineTotal(s[|s| - 1])
  }

  lemma {:induction false} CountConcat(a: seq<LineItem>, b: seq<LineItem>)
    ensures ItemCount(a + b) == ItemCount(a) + ItemCount(b)
  {
    if b != [] {
      CountConcat(a, b[..|b| - 1]);
      assert (a + b)[..|a + b| - 1] == a + b[..|b| - 1];
      assert (a + b)[|a + b| - 1] == b[|b| - 1];
      assert ItemCount(b) == ItemCount(b[..|b| - 1]) + b[|b| - 1].quantity;
    } else {
      assert a + b == a;
    }
  }

  lemma {:induction false} TotalConcat(a: seq<LineItem>, b: seq<LineItem>)
    ensures Total(a + b) == Total(a) + Total(b)
  {
    if b != [] {
      TotalConcat(a, b[..|b| - 1]);
      assert (a + b)[..|a + b| - 1] == a + b[..|b| - 1];
      assert (a + b)[|a + b| - 1] == b[|b| - 1];
      assert Total(b) == Total(b[..|b| - 1]) + LineTotal(b[|b| - 1]);
    } else {
      assert a + b == a;
    }
  }

  lemma TotalsOfOne(x: LineItem)
    ensures Total([x]) == LineTotal(x) && ItemCount([x]) == x.quantity
  {
    assert [x][..0] == [];
  }

  /** Replacing line i changes the totals by the difference of the two lines. */
  lemma TotalsUpdate(s: seq<LineItem>, i: int, x: LineItem)
    requires 0 <= i < |s|
    ensures Total(s[i := x]) == Total(s) - LineTotal(s[i]) + LineTotal(x)
    ensures ItemCount(s[i := x]) == ItemCount(s) - s[i].quantity + x.quantity
  {
    SplitAt(s, i);
    UpdateSplit(s, i, x);
    TotalConcat(s[..i] + [s[i]], s[i + 1..]);
    TotalConcat(s[..i], [s[i]]);
    TotalConcat(s[..i] + [x], s[i + 1..]);
    TotalConcat(s[..i], [x]);
    CountConcat(s[..i] + [s[i]], s[i + 1..]);
    CountConcat(s[..i], [s[i]]);
    CountConcat(s[..i] + [x], s[i + 1..]);
    CountConcat(s[..i], [x]);
    TotalsOfOne(s[i]);
    TotalsOfOne(x);
  }

  /** Incrementing a line's quantity raises the count by one and the total by its price. */
  lemma TotalsIncrement(s: seq<LineItem>, i: int)
    requires 0 <= i < |s|
    ensures var x := s[i := s[i].(quantity := s[i].quantity + 1)];
      ItemCount(x) == ItemCount(s) + 1 && Total(x) == Total(s) + s[i].price
  {
    var y := s[i];
    TotalsUpdate(s, i, y.(quantity := y.quantity + 1));
    LineTotalIncrement(y);
  }

  /** One more unit of a line adds its unit price to the line's total. */
  lemma LineTotalIncrement(y: LineItem)
    ensures LineTotal(y.(quantity := y.quantity + 1)) == LineTotal(y) + y.price
  {
    var x := y.(quantity := y.quantity + 1);
    assert LineTotal(x) == y.price * (y.quantity as real + 1.0);
  }

  /** Each add raises the item count by one and the total by the product's price
      (the price of the existing line when the add merges). */
  lemma TotalsAdded(s: seq<LineItem>, p: Product)
    ensures ItemCount(Added(s, p)) == ItemCount(s) + 1
    ensures var i := FindLine(s, ProductKey(p));
      Total(Added(s, p)) == Total(s) + (if i >= 0 then s[i].price else p.price)
  {
    var i := FindLine(s, ProductKey(p));
    if i >= 0 {
      assert Added(s, p) == s[i := s[i].(quantity := s[i].quantity + 1)];
      TotalsIncrement(s, i);
    } else {
      var n := NewLine(p);
      assert Added(s, p) == s + [n];
      TotalConcat(s, [n]);
      CountConcat(s, [n]);
      TotalsOfOne(n);
    }
  }

  /** Deleting line i lowers the totals by exactly that line. */
  lemma TotalsRemoved(s: seq<LineItem>, i: int)
    requires 0 <= i < |s|
    ensures Total(Removed(s, i)) == Total(s) - LineTotal(s[i])
    ensures ItemCount(Removed(s, i)) == ItemCount(s) - s[i].quantity
  {
    var a, x, b := s[..i], s[i], s[i + 1..];
    SplitAt(s, i);
    RemoveInRange(s, i);
    TotalConcat(a + [x], b);
    TotalConcat(a, [x]);
    TotalConcat(a, b);
    CountConcat(a + [x], b);
    CountConcat(a, [x]);
    CountConcat(a, b);
    TotalsOfOne(x);
  }

  /** In a well-formed cart the count badge is shown (count > 0) exactly when
      the cart has lines; the count is at least the number of lines. */
  lemma {:induction false} CountAtLeastLines(s: seq<LineItem>)
    requires WellFormed(s)
    ensures ItemCount(s) >= |s|
    ensures ItemCount(s) > 0 <==> s != []
  {
    if s != [] {
      var t := s[..|s| - 1];
      assert WellFormed(t) by {
        assert forall i :: 0 <= i < |t| ==> t[i] == s[i];
      }
      CountAtLeastLines(t);
    }
  }

  /** The example order: two adds of one variant and one of another. */
  lemma ScenarioTotals(s0: seq<LineItem>, a: Product, b: Product)
    requires s0 == []
    requires a.price == 50.0 && b.price == 30.0 && ProductKey(a) != ProductKey(b)
    ensures var s := Added(Added(Added(s0, a), a), b);
      |s| == 2 && s[0].quantity == 2 && s[1].quantity == 1
      && ItemCount(s) == 3 && Total(s) == 130.0
  {
    var x, y := NewLine(a).(quantity := 2), NewLine(b);
    var s2 := Added(Added(s0, a), a);
    assert s2 == [x] by {
      AddRepeated(s0, a, 2);
      assert AddedTimes(s0, a, 2) == s2;
    }
    var s := Added(s2, b);
    assert s == [x] + [y] by {
      AddAppends(s2, b);
    }
    assert ItemCount(s) == 3 && Total(s) == 130.0 by {
      TotalConcat([x], [y]);
      CountConcat([x], [y]);
      TotalsOfOne(x);
      TotalsOfOne(y);
    }
  }
}
