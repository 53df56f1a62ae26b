// The minimal cart of script.js: entries are only ever appended, and every
// refresh recomputes the list lines, the running sum and the WhatsApp link.

module MiniCart {

  /** `{ nome, preco }`, one entry of `carrinho`. */
  datatype Entry = Entry(nome: string, preco: real)

  /** The sum of the prices, in list order (`soma += item.preco`). */
  function Soma(s: seq<Entry>): (r: real)
    ensures (forall j :: 0 <= j < |s| ==> s[j].preco >= 0.0) ==> r >= 0.0
  {
    if s == [] then 0.0 else Soma(s[..|s| - 1]) + s[|s| - 1].preco
  }

  /** The text of one `<li>`; `fixed` is the text `toFixed(2)` gives. */
  function ListLine(e: Entry, fixed: real -> string): string {
    e.nome + " - R$ " + fixed(e.preco)
  }

  /** The `<li>` texts of the entries, in order. */
  function ListLines(s: seq<Entry>, fixed: real -> string): (r: seq<string>)
    ensures |r| == |s|
    ensures forall k :: 0 <= k < |s| ==> r[k] == ListLine(s[k], fixed)
  {
    if s == [] then [] else ListLines(s[..|s| - 1], fixed) + [ListLine(s[|s| - 1], fixed)]
  }

  /** One line of the order message: a bullet, the name and the price. */
  function Bullet(e: Entry, fixed: real -> string): string {
    "• " + e.nome + " - R$ " + fixed(e.preco)
  }

  /** `carrinho.map(...)` with the bullet lines. */
  function Bullets(s: seq<Entry>, fixed: real -> string): (r: seq<string>)
    ensures |r| == |s|
    ensures forall k :: 0 <= k < |s| ==> r[k] == Bullet(s[k], fixed)
  {
    if s == [] then [] else Bullets(s[..|s| - 1], fixed) + [Bullet(s[|s| - 1], fixed)]
  }

  /** `Array.prototype.join(sep)`: the strings with `sep` between neighbours. */
  function Join(xs: seq<string>, sep: string): string {
    if xs == [] then ""
    else if |xs| == 1 then xs[0]
    else Join(xs[..|xs| - 1], sep) + sep + xs[|xs| - 1]
  }

  /** The total shown under the list. */
  function TotalText(s: seq<Entry>, fixed: real -> string): string {
    "Total: R$ " + fixed(Soma(s))
  }

  /** The order message before percent-encoding. */
  function PedidoText(s: seq<Entry>, fixed: real -> string): (r: string)
    ensures var g, t := "Olá! Quero fazer um pedido:\n", TotalText(s, fixed);
      |r| >= |g| + |t| && r[..|g|] == g && r[|r| - |t|..] == t
  {
    "Olá! Quero fazer um pedido:\n" + Join(Bullets(s, fixed), "\n")
    + "\n\n*Via WhatsApp + Frete*\n" + TotalText(s, fixed)
  }

  /** The fixed link prefix, number included. */
  const PedidoLink: string := "https://wa.me/5562998806950?text="

  /** The sum over two lists one after the other is the sum of the two sums. */
  lemma {:induction false} SomaConcat(a: seq<Entry>, b: seq<Entry>)
    ensures Soma(a + b) == Soma(a) + Soma(b)
  {
    if b == [] {
      assert a + b == a;
    } else {
      var c := b[..|b| - 1];
      SomaConcat(a, c);
      assert (a + b)[..|a + b| - 1] == a + c;
      assert (a + b)[|a + b| - 1] == b[|b| - 1];
    }
  }

  /** Joining splits at any inner position: the lines before it, the separator,
      the lines from it on. Hence the message keeps the entries' order. */
  lemma {:induction false} JoinSplit(xs: seq<string>, sep: string, k: nat)
    requires 0 < k < |xs|
    ensures Join(xs, sep) == Join(xs[..k], sep) + sep + Join(xs[k..], sep)
  {
    var n := |xs|;
    if k == n - 1 {
      assert xs[k..] == [xs[n - 1]];
    } else {
      var init := xs[..n - 1];
      JoinSplit(init, sep, k);
      assert init[..k] == xs[..k];
      var rest := xs[k..];
      assert rest[..|rest| - 1] == init[k..];
      assert rest[|rest| - 1] == xs[n - 1];
      calc {
        Join(xs, sep);
        Join(init, sep) + sep + xs[n - 1];
        Join(xs[..k], sep) + sep + Join(init[k..], sep) + sep + xs[n - 1];
        Join(xs[..k], sep) + sep + (Join(init[k..], sep) + sep + xs[n - 1]);
        Join(xs[..k], sep) + sep + Join(rest, sep);
      }
    }
  }

  /** Joining one more line appends the separator and that line. */
  lemma JoinAppend(xs: seq<string>, sep: string, x: string)
    requires xs != []
    ensures Join(xs + [x], sep) == Join(xs, sep) + sep + x
  {
    assert (xs + [x])[..|xs|] == xs;
  }

  /** With nothing in the cart the message still has its frame and a total of 0. */
  lemma EmptyPedido(fixed: real -> string)
    ensures PedidoText([], fixed)
      == "Olá! Quero fazer um pedido:\n" + "\n\n*Via WhatsApp + Frete*\n" + "Total: R$ " + fixed(0.0)
  {
  }

  /** The cart of script.js: a list that only grows. */
  class Carrinho {
    var carrinho: seq<Entry>

    /** `const carrinho = []`. */
    constructor()
      ensures carrinho == []
    {
      carrinho := [];
    }

    /** atualizarCarrinho: the `<li>` texts, the running sum, the total text and
        the order link, recomputed from the list; the list itself is not changed. */
    method AtualizarCarrinho(fixed: real -> string, encode: string -> string)
      returns (lista: seq<string>, soma: real, total: string, href: string)
      ensures lista == ListLines(carrinho, fixed)
      ensures soma == Soma(carrinho)
      ensures total == "Total: R$ " + fixed(Soma(carrinho))
      ensures href == PedidoLink + encode(PedidoText(carrinho, fixed))
    {
      lista := [];
      soma := 0.0;
      var i := 0;
      while i < |carrinho|
        invariant 0 <= i <= |carrinho|
        invariant lista == ListLines(carrinho[..i], fixed)
        invariant soma == Soma(carrinho[..i])
      {
        var item := carrinho[i];
        assert carrinho[..i + 1][..i] == carrinho[..i];
        lista := lista + [item.nome + " - R$ " + fixed(item.preco)];
        soma := soma + item.preco;
        i := i + 1;
      }
      assert carrinho[..i] == carrinho;
      total := "Total: R$ " + fixed(soma);
      var texto := encode(PedidoText(carrinho, fixed));
      href := PedidoLink + texto;
    }

    /** adicionarAoCarrinho: append `{nome, preco}`, with no merging, then refresh. */
    method AdicionarAoCarrinho(nome: string, preco: real, fixed: real -> string, encode: string -> string)
      returns (lista: seq<string>, soma: real, total: string, href: string)
      modifies this
      ensures carrinho == old(carrinho) + [Entry(nome, preco)]
      ensures lista == ListLines(carrinho, fixed) && soma == Soma(old(carrinho)) + preco
      ensures total == "Total: R$ " + fixed(soma)
      ensures href == PedidoLink + encode(PedidoText(carrinho, fixed))
    {
      carrinho := carrinho + [Entry(nome, preco)];
      assert carrinho[..|carrinho| - 1] == old(carrinho);
      lista, soma, total, href := AtualizarCarrinho(fixed, encode);
    }
  }

  /** Adding the same name twice keeps two separate entries, after the earlier ones. */
  lemma AddTwiceKeepsBoth(s: seq<Entry>, nome: string, preco: real)
    ensures var t := (s + [Entry(nome, preco)]) + [Entry(nome, preco)];
      |t| == |s| + 2 && t[..|s|] == s && t[|s|] == t[|s| + 1] == Entry(nome, preco)
      && Soma(t) == Soma(s) + 2.0 * preco
  {
    var t := (s + [Entry(nome, preco)]) + [Entry(nome, preco)];
    assert t[..|t| - 1] == s + [Entry(nome, preco)];
    assert t[..|t| - 1][..|s|] == s;
  }
}
