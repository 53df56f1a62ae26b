// The order message finalizarPedido of scripts/cart.js sends to WhatsApp.

module CartOrder {
  import opened Strings
  import opened CartLines

  /** The opening lines of finalizarPedido's message. */
  const OrderHeader: string := "*🛍️ NOVO PEDIDO - DYMELTI MARTINEZ*\n\n" + "*📋 PRODUTOS:*\n"

  /** The block describing the line at 0-based position `index`; `money` is the
      currency text of `toFixed(2)` with a decimal comma. */
  function ItemBlock(index: nat, it: LineItem, money: real -> string): (r: string)
    ensures var price := money(LineTotal(it)) + "\n\n";
      |r| >= |price| && r[|r| - |price|..] == price
  {
    NatToString(index + 1) + ". *" + it.name + "*\n"
    + "   • Tamanho: " + it.selectedSize + "\n"
    + "   • Cor: " + it.selectedColor + "\n"
    + "   • Quantidade: " + IntToString(it.quantity) + "\n"
    + "   • Preço: R$ " + money(LineTotal(it)) + "\n\n"
  }

  /** The texts `block` gives the lines of `s`, numbered from `first`, one after another. */
  function Blocks(s: seq<LineItem>, first: nat, block: (nat, LineItem) -> string): string {
    if s == [] then "" else block(first, s[0]) + Blocks(s[1..], first + 1, block)
  }

  /** The closing lines: the total, the payment note and the delivery request. */
  function OrderClosing(total: real, money: real -> string): (r: string)
    ensures var t := "*💰 TOTAL: R$ " + money(total);
      |r| >= |t| && r[..|t|] == t
  {
    "*💰 TOTAL: R$ " + money(total) + "*\n\n"
    + "*💳 PAGAMENTO:* Via WhatsApp + Frete\n\n"
    + "*📦 Aguardo informações sobre entrega!*"
  }

  /** The forEach callback of finalizarPedido, as a function of position and line. */
  function ItemBlocks(money: real -> string): (nat, LineItem) -> string {
    (i: nat, it: LineItem) => ItemBlock(i, it, money)
  }

  /** The full order message for a non-empty cart. */
  function OrderText(s: seq<LineItem>, money: real -> string): (r: string)
    ensures var h, c := OrderHeader, OrderClosing(Total(s), money);
      |r| >= |h| + |c| && r[..|h|] == h && r[|r| - |c|..] == c
  {
    OrderHeader + Blocks(s, 0, ItemBlocks(money)) + OrderClosing(Total(s), money)
  }

  /** The fixed WhatsApp number orders go to. */
  const WhatsAppNumber: string := "5562998806950"

  /** The deep link for an already percent-encoded message. */
  function WhatsAppLink(encodedText: string): string {
    "https://wa.me/" + WhatsAppNumber + "?text=" + encodedText
  }

  /** The message grows by one block per line, numbered after the earlier ones. */
  lemma {:induction false} BlocksAppend(s: seq<LineItem>, x: LineItem, first: nat, block: (nat, LineItem) -> string)
    ensures Blocks(s + [x], first, block) == Blocks(s, first, block) + block(first + |s|, x)
  {
    if s == [] {
      assert [x][1..] == [];
      assert s + [x] == [x];
    } else {
      var head, tail := s[0], s[1..];
      assert (s + [x])[0] == head;
      assert (s + [x])[1..] == tail + [x];
      BlocksAppend(tail, x, first + 1, block);
      calc {
        Blocks(s + [x], first, block);
        block(first, head) + Blocks(tail + [x], first + 1, block);
        block(first, head) + (Blocks(tail, first + 1, block) + block(first + |s|, x));
        (block(first, head) + Blocks(tail, first + 1, block)) + block(first + |s|, x);
      }
    }
  }

  /** The lines are listed in cart order: line k's block, numbered k + 1, sits
      between the blocks of the lines before it and those after it. */
  lemma {:induction false} BlocksAt(s: seq<LineItem>, k: nat, first: nat, block: (nat, LineItem) -> string)
    requires k < |s|
    ensures Blocks(s, first, block)
      == Blocks(s[..k], first, block) + block(first + k, s[k]) + Blocks(s[k + 1..], first + k + 1, block)
  {
    var head := block(first, s[0]);
    if k == 0 {
      assert s[..0] == [];
      assert s[1..] == s[k + 1..];
    } else {
      var tail := s[1..];
      var before, mid, after := Blocks(s[1..k], first + 1, block), block(first + k, s[k]),
                                Blocks(s[k + 1..], first + k + 1, block);
      assert Blocks(tail, first + 1, block) == before + mid + after by {
        BlocksAt(tail, k - 1, first + 1, block);
        assert tail[..k - 1] == s[1..k];
        assert tail[k - 1] == s[k];
        assert tail[k..] == s[k + 1..];
      }
      assert Blocks(s[..k], first, block) == head + before by {
        assert s[..k][0] == s[0] && s[..k][1..] == s[1..k];
      }
      assert Blocks(s, first, block) == head + Blocks(tail, first + 1, block);
      assert head + (before + mid + after) == (head + before) + mid + after;
    }
  }

  /** Every block opens with its 1-based number and the line's name in bold. */
  lemma ItemBlockOpens(index: nat, it: LineItem, money: real -> string)
    ensures var n := NatToString(index + 1);
      ItemBlock(index, it, money)[..|n| + 3 + |it.name|] == n + ". *" + it.name
      && DigitsValue(n) == index + 1
  {
    NatToStringRoundTrip(index + 1);
  }
}
