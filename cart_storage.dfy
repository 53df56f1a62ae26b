// saveCartToStorage and loadCartFromStorage of scripts/cart.js over an abstract
// key-value store; JSON serialisation is a pair of functions given by the caller.

module CartStorage {
  import opened Options
  import opened CartLines

  /** The localStorage key the cart is saved under. */
  const StorageKey: string := "dymelti_cart"

  /** The store after saveCartToStorage: the serialised cart under the key, or
      the store unchanged when the write is refused (quota, disabled storage). */
  function SavedStorage(storage: map<string, string>, s: seq<LineItem>,
                        encode: seq<LineItem> -> string, accepted: bool): (r: map<string, string>)
    ensures accepted ==> StorageKey in r && r[StorageKey] == encode(s)
    ensures !accepted ==> r == storage
    ensures forall k :: k != StorageKey ==> (k in r <==> k in storage)
    ensures forall k :: k != StorageKey && k in storage ==> r[k] == storage[k]
  {
    if accepted then storage[StorageKey := encode(s)] else storage
  }

  /** The cart after loadCartFromStorage: replaced wholesale by the parsed text,
      unchanged when the key is absent or empty, and emptied when parsing fails. */
  function LoadedCart(current: seq<LineItem>, storage: map<string, string>,
                      decode: string -> Option<seq<LineItem>>): (r: seq<LineItem>)
    ensures StorageKey !in storage || storage[StorageKey] == "" ==> r == current
    ensures StorageKey in storage && storage[StorageKey] != "" ==>
      match decode(storage[StorageKey])
      case Some(xs) => r == xs
      case None => r == []
  {
    if StorageKey in storage && storage[StorageKey] != "" then
      match decode(storage[StorageKey])
      case Some(xs) => xs
      case None => []
    else current
  }

  /** Saving then loading reproduces the saved cart, whenever the serialisation
      reads back and is never empty (true of JSON text of an array). */
  lemma SaveLoadRoundTrip(current: seq<LineItem>, storage: map<string, string>, s: seq<LineItem>,
                          encode: seq<LineItem> -> string, decode: string -> Option<seq<LineItem>>)
    requires decode(encode(s)) == Some(s) && encode(s) != ""
    ensures LoadedCart(current, SavedStorage(storage, s, encode, true), decode) == s
  {
  }
}
