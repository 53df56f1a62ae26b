// The cart manager of scripts/cart.js: the module-level `cart` list and the
// localStorage it is saved to, updated in place by the cart operations.

module CartManager {
  import opened Options
  import opened CartLines
  import opened CartDiscount
  import opened CartStorage
  import opened CartOrder

  /** `cart.find(...)` with the same-key test of addToCart, as a position. */
  method FindIndex(s: seq<LineItem>, k: Key) returns (i: int)
    ensures i == FindLine(s, k)
  {
    i := 0;
    while i < |s|
      invariant 0 <= i <= |s|
      invariant forall j :: 0 <= j < i ==> KeyOf(s[j]) != k
    {
      if s[i].id == k.id && s[i].selectedSize == k.size && s[i].selectedColor == k.color {
        return;
      }
      i := i + 1;
    }
    i := -1;
  }

  lemma ConcatAssoc<T>(a: seq<T>, b: seq<T>, c: seq<T>)
    ensures (a + b) + c == a + (b + c)
  {
  }

  /** The forEach of finalizarPedido: `prefix` followed by the block of every
      line, in cart order, numbered from 0. */
  method AppendBlocks(prefix: string, s: seq<LineItem>, block: (nat, LineItem) -> string)
    returns (mensagem: string)
    ensures mensagem == prefix + Blocks(s, 0, block)
  {
    mensagem := prefix;
    var i := 0;
    while i < |s|
      invariant 0 <= i <= |s|
      invariant mensagem == prefix + Blocks(s[..i], 0, block)
    {
      var text := block(i, s[i]);
      assert s[..i + 1] == s[..i] + [s[i]];
      BlocksAppend(s[..i], s[i], 0, block);
      ConcatAssoc(prefix, Blocks(s[..i], 0, block), text);
      mensagem := mensagem + text;
      i := i + 1;
    }
    assert s[..i] == s;
  }

  /** The message finalizarPedido builds for a non-empty cart: the header, one
      block per line, then the total and the closing lines. */
  method BuildOrderText(s: seq<LineItem>, money: real -> string) returns (mensagem: string)
    ensures mensagem == OrderText(s, money)
  {
    mensagem := AppendBlocks(OrderHeader, s, ItemBlocks(money));
    var total := Total(s);
    mensagem := mensagem + OrderClosing(total, money);
  }

  /** The shopping cart: its ordered lines and the key-value store it is saved to. */
  class Cart {
    var items: seq<LineItem>
    var storage: map<string, string>

    /** `let cart = []`, next to whatever the browser's store already holds. */
    constructor(storage0: map<string, string>)
      ensures items == [] && storage == storage0
    {
      items := [];
      storage := storage0;
    }

    /** addToCart: one more of the product's line, or a new line at the end. */
    method AddToCart(p: Product)
      modifies this
      ensures items == Added(old(items), p)
      ensures WellFormed(old(items)) ==> WellFormed(items)
      ensures storage == old(storage)
    {
      if WellFormed(items) {
        AddPreservesWellFormed(items, p);
      }
      var i := FindIndex(items, ProductKey(p));
      if i >= 0 {
        items := items[i := items[i].(quantity := items[i].quantity + 1)];
      } else {
        var image := if |p.images| > 0 then Some(p.images[0]) else None;
        var line := LineItem(p.id, p.name, p.price, image, p.selectedSize, p.selectedColor,
                             p.selectedColorValue, 1, None);
        items := items + [line];
      }
    }

    /** removeFromCart: `cart.splice(index, 1)`. */
    method RemoveFromCart(index: int)
      modifies this
      ensures items == Removed(old(items), index)
      ensures WellFormed(old(items)) ==> WellFormed(items)
      ensures storage == old(storage)
    {
      if WellFormed(items) {
        RemovePreservesWellFormed(items, index);
      }
      var start := SpliceStart(|items|, index);
      if start < |items| {
        items := items[..start] + items[start + 1..];
      }
    }

    /** clearCart: `cart = []`. */
    method ClearCart()
      modifies this
      ensures items == [] && storage == old(storage)
    {
      items := [];
    }

    /** saveCartToStorage: the serialised cart under the cart key; a refused write
        is caught and leaves the store as it was. */
    method SaveCartToStorage(encode: seq<LineItem> -> string, accepted: bool)
      modifies this
      ensures storage == SavedStorage(old(storage), items, encode, accepted)
      ensures items == old(items)
    {
      if accepted {
        storage := storage[StorageKey := encode(items)];
      }
    }

    /** loadCartFromStorage: the saved text, when there is some, replaces the
        cart; text that does not parse empties it. */
    method LoadCartFromStorage(decode: string -> Option<seq<LineItem>>)
      modifies this
      ensures items == LoadedCart(old(items), storage, decode)
      ensures storage == old(storage)
    {
      if StorageKey in storage && storage[StorageKey] != "" {
        var saved := storage[StorageKey];
        match decode(saved)
        case Some(xs) =>
          items := xs;
        case None =>
          items := [];
      }
    }

    /** applyDiscount: nothing on an empty cart; otherwise every line remembers
        its base price and is priced at that base less the percentage. */
    method ApplyDiscount(discountPercent: real)
      modifies this
      ensures items == Discounted(old(items), discountPercent)
      ensures storage == old(storage)
    {
      if |items| == 0 {
        return;
      }
      var i := 0;
      while i < |items|
        invariant 0 <= i <= |items| == |old(items)|
        invariant forall j :: 0 <= j < i ==> items[j] == DiscountedItem(old(items)[j], discountPercent)
        invariant forall j :: i <= j < |items| ==> items[j] == old(items)[j]
        invariant storage == old(storage)
      {
        var item := items[i];
        var orig := if Truthy(item.originalPrice) then item.originalPrice.value else item.price;
        item := item.(originalPrice := Some(orig));
        item := item.(price := orig * DiscountFactor(discountPercent));
        items := items[i := item];
        i := i + 1;
      }
    }

    /** removeDiscount: every line with a truthy `originalPrice` gets that price
        back and loses the property. */
    method RemoveDiscount()
      modifies this
      ensures items == Restored(old(items))
      ensures storage == old(storage)
    {
      var i := 0;
      while i < |items|
        invariant 0 <= i <= |items| == |old(items)|
        invariant forall j :: 0 <= j < i ==> items[j] == RestoredItem(old(items)[j])
        invariant forall j :: i <= j < |items| ==> items[j] == old(items)[j]
        invariant storage == old(storage)
      {
        var item := items[i];
        if Truthy(item.originalPrice) {
          items := items[i := item.(price := item.originalPrice.value, originalPrice := None)];
        }
        i := i + 1;
      }
    }

    /** finalizarPedido: nothing for an empty cart; otherwise the WhatsApp link
        carrying the percent-encoded order message. The cart is not changed. */
    method FinalizarPedido(money: real -> string, encode: string -> string) returns (link: Option<string>)
      ensures link.None? <==> items == []
      ensures link.Some? ==> link.value == WhatsAppLink(encode(OrderText(items, money)))
    {
      if |items| == 0 {
        return None;
      }
      var mensagem := BuildOrderText(items, money);
      var mensagemCodificada := encode(mensagem);
      link := Some("https://wa.me/" + WhatsAppNumber + "?text=" + mensagemCodificada);
    }

    /** `window.addToCart`: add, then save. */
    method AddToCartAndSave(p: Product, encode: seq<LineItem> -> string, accepted: bool)
      modifies this
      ensures items == Added(old(items), p)
      ensures storage == SavedStorage(old(storage), items, encode, accepted)
    {
      AddToCart(p);
      SaveCartToStorage(encode, accepted);
    }

    /** `window.removeFromCart`: remove, then save. */
    method RemoveFromCartAndSave(index: int, encode: seq<LineItem> -> string, accepted: bool)
      modifies this
      ensures items == Removed(old(items), index)
      ensures storage == SavedStorage(old(storage), items, encode, accepted)
    {
      RemoveFromCart(index);
      SaveCartToStorage(encode, accepted);
    }
  }
}
