# Dymelti storefront cart, modelled in Dafny

This project models the client-side shopping logic of the Dymelti Martinez
storefront. That logic lives in three scripts:

- **The cart manager of `scripts/cart.js`.**
  - The cart is an ordered list of line items.
  - Lines are keyed by product id, size and colour.
  - `addToCart` merges a product into its line or appends a new line. `removeFromCart` splices by position.
  - The item count and total are folds over the list.
  - `applyDiscount` and `removeDiscount` work from a remembered `originalPrice`.
  - `clearCart` empties the cart.
  - `finalizarPedido` refuses an empty cart. Otherwise it builds the WhatsApp order message.
  - The cart is saved to a key-value store and loaded back from it.
  - The `window.*` wrappers save after every add and remove.
- **The minimal cart of `script.js`.** Entries are only ever appended. A refresh recomputes the list lines, the running sum, the total text and the order link.
- **The helpers of `scripts/main.js`.** They are `toggleFavorite` on a list of product ids, `validateForm`, `isValidEmail` and `formatPhone`.

## Layout

- `common.dfy`
  - Module `Options`: the `Option` type.
  - Module `Strings`: JavaScript white space and digits, decimal printing of numbers and `trim`.
- `cart_lines.dfy` (module `CartLines`): line items and keys. It holds the pure meaning of adding, removing, the count and the total, with lemmas.
- `cart_discount.dfy` (module `CartDiscount`): applying and removing a discount, one line at a time and for the whole cart. Includes the no-compounding and total-scaling laws.
- `cart_storage.dfy` (module `CartStorage`): the store after a save, the cart after a load, and their round trip.
- `cart_order.dfy` (module `CartOrder`): the order message and the WhatsApp link.
- `cart_manager.dfy` (module `CartManager`)
  - Class `Cart` holds the mutable `items` list and the `storage` map.
  - Its methods update these in place. Each method is proved equal to the functions above.
  - The lookup, the discount loops and the message loop are written as loops with invariants.
- `mini_cart.dfy` (module `MiniCart`): class `Carrinho` and the refresh loop of `script.js`.
- `favorites.dfy` (module `Favorites`): class `FavoriteList` and the toggle.
- `forms.dfy` (module `FormValidation`): `validateForm` and `isValidEmail`, with a proof that the email test is exactly the regular expression.
- `phone.dfy` (module `PhoneFormat`): `formatPhone`.

## How the JavaScript is represented

- **Prices** are `real`. Floating-point rounding is not modelled.
- **Formatting** of a price, `toFixed(2)` with or without `.replace('.', ',')`, is a parameter `real -> string`.
- **`encodeURIComponent`** is a parameter `string -> string`.
- **JSON**
  - `JSON.stringify` of the cart is a parameter `seq<LineItem> -> string`.
  - `JSON.parse` is a parameter `string -> Option<seq<LineItem>>`. `None` stands for every load that ends in the `catch` and resets the cart. That covers malformed text, and also valid JSON that is not a cart array (`null`, `{}`, `[null]`), because the `updateCartUI()` call in the same `try` (`scripts/cart.js:258`) then throws when the cart elements are on the page.
- **localStorage**
  - The store is a `map<string, string>`.
  - A write the browser refuses is the boolean `accepted`. The write is caught, so the store keeps its old value.
- **`originalPrice`**
  - This optional property is `Option<real>`.
  - JavaScript truthiness (`item.originalPrice || item.price`, `if (item.originalPrice)`) is spelled out. A value counts only when it is present and different from 0.
- **`splice(index, 1)`** has its full JavaScript meaning:
  - A negative index counts from the end.
  - An index before the start clamps to 0.
  - An index at or past the end deletes nothing.
- **Strings** are sequences of Unicode characters. JavaScript's `length` counts UTF-16 code units, and `Strings.Utf16Length` counts them the same way: two for a character above U+FFFF.

Several edge cases behave in ways a reader might not expect. The model does what the code does:

- **removeFromCart with a negative index.** One might expect an out-of-range index to be ignored. The code passes the index to `splice`, which counts a negative index from the end. `CartLines.RemoveNegative` states what happens, including the clamp to the first line.
- **Which operations save.** Only the `window.addToCart` and `window.removeFromCart` wrappers save (`scripts/cart.js:325-337`). `clearCart`, `applyDiscount` and `removeDiscount` change the cart without saving it. `CartManager.Cart.ClearCart` and the discount methods leave `storage` unchanged.
- **A price of 0 under a discount.** Both discount operations test `originalPrice` for truthiness, not for presence. A line whose price is 0 therefore keeps `originalPrice: 0` after the discount is removed (`CartDiscount.ZeroPriceKeepsMarker`). Its price is still right, and a later discount still starts from the right base.
- **An empty email.** `validateForm` rejects `""` through `!formData.email`, before `isValidEmail` is consulted.

## Model

| member | source | states |
|---|---|---|
| CartLines.Added | scripts/cart.js:5-26 | the cart after an add has the same number of lines or one more, and it holds a line with the product's key |
| CartLines.FindLine | scripts/cart.js:7-11 | the position of the first line whose id, size and colour equal the key, or -1 exactly when no line has that key |
| CartManager.FindIndex | scripts/cart.js:7-11 | the loop that compares the three key fields finds the same position as `FindLine` |
| CartLines.AddMerges | scripts/cart.js:13-14 | when the product's key is first found at line i, adding raises line i's quantity by 1; the length and every other line are unchanged |
| CartLines.AddAppends | scripts/cart.js:15-25 | when no line has the key, adding appends one line at the end: quantity 1, the product's name, price and colour swatch, `images[0]` or nothing for no images, and no original price |
| CartLines.AddPreservesWellFormed | scripts/cart.js:5-26 | adding keeps every quantity at least 1 and no two lines with the same key |
| CartLines.AddSnapshotsFirstAdd | scripts/cart.js:13-14 | once a line exists, adding a product with the same key but other presentation fields gives the same cart: price and name are a snapshot of the first add |
| CartLines.AddRepeated | scripts/cart.js:5-26 | n adds of a new product give exactly one new line, at the end, with quantity n; earlier lines are untouched |
| CartManager.Cart.AddToCart | scripts/cart.js:5-26 | the cart becomes `Added(old cart, p)`, the invariant is kept and the store is untouched |
| CartLines.SpliceStart | scripts/cart.js:34 | splice's start: an index within the cart as given, a negative one counted from the end, clamped to 0 below and to the length above |
| CartLines.Removed | scripts/cart.js:34 | removal deletes one line exactly when splice's start falls inside the cart; the lines before the start are kept, and the lines after the deleted one move up by one |
| CartLines.RemoveInRange | scripts/cart.js:33-34 | an index inside the cart deletes exactly that line; the lines before and after keep their order |
| CartLines.RemoveBeyondEnd | scripts/cart.js:34 | an index at or past the end leaves the cart as it was |
| CartLines.RemoveNegative | scripts/cart.js:34 | a negative index counts from the end; one below minus the length deletes the first line |
| CartLines.RemovePreservesWellFormed | scripts/cart.js:34 | deleting a line keeps the cart's invariant |
| CartLines.DropKeepsWellFormed | scripts/cart.js:34 | cutting the line at a position inside the cart out of it keeps every line valid and every (id, size, colour) key distinct |
| CartManager.Cart.RemoveFromCart | scripts/cart.js:33-34 | the cart becomes `Removed(old cart, index)` with splice's start position, the invariant is kept and the store is untouched |
| CartLines.ItemCount | scripts/cart.js:51 | the reduce of quantities is at least the number of lines when every quantity is at least 1 |
| CartLines.Total | scripts/cart.js:106 | the reduce of price times quantity is never negative when prices and quantities are not |
| CartLines.CountConcat | scripts/cart.js:51 | the item count of two lists joined is the sum of their counts |
| CartLines.TotalConcat | scripts/cart.js:106 | the total of two lists joined is the sum of their totals |
| CartLines.TotalsUpdate | scripts/cart.js:51 | replacing one line changes count and total by the difference of the two lines |
| CartLines.LineTotalIncrement | scripts/cart.js:14 | one more unit of a line adds its unit price to that line's price times quantity |
| CartLines.TotalsIncrement | scripts/cart.js:14 | one more of a line raises the count by 1 and the total by its unit price |
| CartLines.TotalsAdded | scripts/cart.js:5-26 | every add raises the count by 1 and the total by the unit price of the line that grew |
| CartLines.TotalsRemoved | scripts/cart.js:34 | deleting line i lowers the count by its quantity and the total by its price times quantity |
| CartLines.CountAtLeastLines | scripts/cart.js:51-55 | in a well-formed cart the count is at least the number of lines, and it is positive (the badge shows) exactly when the cart has lines |
| CartLines.ScenarioTotals | scripts/cart.js:5-26 | two adds of one variant at 50 and one of another at 30 give two lines, quantities 2 and 1, a count of 3 and a total of 130 |
| CartDiscount.DiscountedItem | scripts/cart.js:271-272 | one discounted line keeps its key and quantity, is priced at its base times `1 - p/100`, and keeps the same base for the next discount |
| CartDiscount.RestoredItem | scripts/cart.js:282-285 | one restored line keeps its key and quantity, is priced at its base, and no longer has a truthy `originalPrice` |
| CartDiscount.Discounted | scripts/cart.js:270-273 | applyDiscount changes each line on its own, leaving the number and order of lines alone |
| CartDiscount.Restored | scripts/cart.js:281-286 | removeDiscount changes each line on its own, leaving the number and order of lines alone |
| CartDiscount.DiscountTwice | scripts/cart.js:271-272 | a line discounted by p1 and then by p2 equals the line discounted by p2 alone |
| CartDiscount.NoCompounding | scripts/cart.js:267-273 | applying p1 and then p2 to the cart gives the same cart as applying p2 alone |
| CartDiscount.TenThenTwenty | scripts/cart.js:271-272 | 10% followed by 20% leaves every line at 0.8 times its base price, not 0.9 × 0.8 |
| CartDiscount.RestoreIdempotent | scripts/cart.js:280-286 | removing the discount twice is the same as removing it once |
| CartDiscount.RestoreDiscountedItem | scripts/cart.js:282-284 | after a discount and its removal, a line's price is its base price, the same price a removal alone gives |
| CartDiscount.RestoreAfterDiscount | scripts/cart.js:267-286 | apply then remove leaves every line at its pre-discount base price |
| CartDiscount.DiscountRoundTrip | scripts/cart.js:267-286 | on a cart with no discount and no zero prices, apply then remove gives back the identical cart |
| CartDiscount.ZeroPriceKeepsMarker | scripts/cart.js:270-286 | a line of price 0 keeps a stale `originalPrice` of 0 after apply then remove, because 0 is falsy |
| CartDiscount.TotalScaled | scripts/cart.js:106 | scaling every unit price by f and keeping the quantities scales the total by f |
| CartDiscount.DiscountedPriceScaled | scripts/cart.js:271-272 | a discounted unit price is the base price times `1 - p/100`, with the quantity kept |
| CartDiscount.DiscountScalesPrices | scripts/cart.js:270-273 | every discounted unit price is the base price times `1 - p/100` |
| CartDiscount.DiscountTotal | scripts/cart.js:267-273 | the discounted total is the undiscounted total times `1 - p/100` |
| CartDiscount.DiscountKeepsLines | scripts/cart.js:270-286 | discounts change prices only: keys, quantities and the cart's invariant are kept |
| CartDiscount.CountUnchangedByPrice | scripts/cart.js:51 | lists with the same quantities have the same item count, so a discount never changes the badge |
| CartManager.Cart.ApplyDiscount | scripts/cart.js:267-273 | the forEach turns the cart into `Discounted(old cart, p)`; an empty cart is returned at once; the store is untouched |
| CartManager.Cart.RemoveDiscount | scripts/cart.js:280-286 | the forEach turns the cart into `Restored(old cart)`; the store is untouched |
| CartManager.Cart.ClearCart | scripts/cart.js:175-176 | the cart is empty afterwards and the store is untouched |
| CartStorage.SavedStorage | scripts/cart.js:244-250 | an accepted save puts the serialised cart under `dymelti_cart`; a refused one leaves the store; every other key is kept either way |
| CartStorage.LoadedCart | scripts/cart.js:253-264 | an absent or empty entry keeps the cart; otherwise the parsed cart replaces it, or the cart is emptied when parsing fails |
| CartStorage.SaveLoadRoundTrip | scripts/cart.js:244-264 | a load after an accepted save reproduces the saved cart exactly, whatever the cart held before |
| CartManager.Cart.SaveCartToStorage | scripts/cart.js:244-250 | the store gains the serialised cart under `dymelti_cart`, or stays as it was when the write is refused; the cart is unchanged |
| CartManager.Cart.LoadCartFromStorage | scripts/cart.js:253-264 | saved text that parses replaces the cart; an absent or empty entry leaves it; text that does not parse empties it |
| CartManager.Cart.AddToCartAndSave | scripts/cart.js:329-332 | `window.addToCart`: the cart after the add, then saved |
| CartManager.Cart.RemoveFromCartAndSave | scripts/cart.js:334-337 | `window.removeFromCart`: the cart after the removal, then saved |
| CartOrder.OrderText | scripts/cart.js:135-149 | the message opens with the header and ends with the closing lines carrying the cart's total |
| CartOrder.BlocksAppend | scripts/cart.js:138-144 | one more line appends one more block, numbered after the earlier ones |
| CartOrder.BlocksAt | scripts/cart.js:138-144 | line k's block, numbered k + 1, sits between the blocks of the lines before it and those after it, so the message lists the lines in cart order |
| CartOrder.ItemBlockOpens | scripts/cart.js:139 | each block opens with its 1-based number, whose digits read back as that number, then `. *` and the line's name |
| CartOrder.ItemBlock | scripts/cart.js:139-143 | a line's block (number and name, then size, colour and quantity) ends with the line's price, quantity times unit price in money format, followed by a blank line |
| CartOrder.OrderClosing | scripts/cart.js:147-149 | the closing text opens with the bold total label and the cart total in money format, before the payment and delivery lines |
| CartManager.AppendBlocks | scripts/cart.js:138-144 | the `mensagem +=` loop yields the prefix followed by every line's block in order |
| CartManager.BuildOrderText | scripts/cart.js:135-149 | the message is the header, the blocks and the closing with the total |
| CartManager.Cart.FinalizarPedido | scripts/cart.js:128-158 | no link exactly when the cart is empty; otherwise the link to 5562998806950 carrying the encoded order message; the cart is unchanged |
| Strings.NatToStringRoundTrip | scripts/cart.js:139 | the printed line number reads back as the number printed |
| Strings.IntToStringRoundTrip | scripts/cart.js:142 | the printed quantity has a '-' exactly when it is negative, and its digits read back as its magnitude |
| MiniCart.Soma | script.js:14-20 | the running sum is never negative when no price is |
| MiniCart.PedidoText | script.js:24 | the order message opens with the greeting and ends with the total line |
| MiniCart.ListLines | script.js:15-18 | one `<li>` text per entry, in list order |
| MiniCart.Bullets | script.js:24 | one bullet line per entry, in list order |
| MiniCart.SomaConcat | script.js:19 | the running sum over two lists joined is the sum of their sums |
| MiniCart.JoinSplit | script.js:24 | the joined message splits at any inner line into the lines before it, a newline and the lines from it on, so entries appear in insertion order |
| MiniCart.JoinAppend | script.js:24 | one more line adds a separator and that line at the end of the joined text |
| MiniCart.EmptyPedido | script.js:22-25 | an empty cart still gives the greeting, the delivery line and a total of 0 |
| MiniCart.Carrinho.AtualizarCarrinho | script.js:8-26 | the loop yields the `<li>` text of every entry and the sum of all prices; the total text and the link to 5562998806950 follow from them |
| MiniCart.Carrinho.AdicionarAoCarrinho | script.js:3-6 | the entry is appended with no merging and the refresh is recomputed on the longer list |
| MiniCart.AddTwiceKeepsBoth | script.js:4 | adding the same name twice gives two entries after the untouched earlier ones, and the sum grows by twice the price |
| Favorites.FirstIndex | scripts/main.js:149 | `indexOf`: -1 exactly when the id is absent, otherwise the first position holding it |
| Favorites.IndexOf | scripts/main.js:149 | the scan finds the same position as `FirstIndex` |
| Favorites.Toggled | scripts/main.js:149-155 | a present id is taken out at its first position; an absent id is appended after the unchanged list |
| Favorites.SliceOutIsWithoutAt | scripts/main.js:151 | the splice of one position inside the list keeps the elements before it and shifts those after it down by one |
| Favorites.FavoriteList.ToggleFavorite | scripts/main.js:146-159 | the list becomes `Toggled(old list, id)`, and a list without duplicates stays without duplicates |
| Favorites.ToggleRemovesFirst | scripts/main.js:150-151 | a present id loses only its first occurrence; the rest keep their order and the multiset loses exactly one copy |
| Favorites.ToggleAppends | scripts/main.js:153-154 | an absent id is appended at the end |
| Favorites.ToggleTwiceAbsent | scripts/main.js:149-155 | toggling an absent id twice restores the original list |
| Favorites.WithoutAtMembers | scripts/main.js:151 | taking one position out of a list without duplicates keeps it without duplicates and loses only that id |
| Favorites.AppendFresh | scripts/main.js:154 | appending an id the list lacks keeps it without duplicates |
| Favorites.ToggleKeepsNoDuplicates | scripts/main.js:149-155 | a toggle never introduces a duplicate into a list without duplicates |
| Favorites.ToggleFlipsMembership | scripts/main.js:149-155 | on a list without duplicates a toggle flips the id's membership and leaves every other id's membership alone |
| FormValidation.IsValidEmail | scripts/main.js:257-259 | `isValidEmail` holds exactly for the strings `^[^\s@]+@[^\s@]+\.[^\s@]+$` matches |
| FormValidation.FirstAtDecidesPattern | scripts/main.js:258 | given the first '@', the regular expression matches exactly when that '@' is inside, every other character is plain and a '.' lies strictly inside the rest |
| FormValidation.ShapeGivesPattern | scripts/main.js:258 | an '@' inside the address with only plain characters elsewhere and a '.' strictly inside the part after it makes the regular expression match |
| FormValidation.PatternGivesShape | scripts/main.js:258 | when the regular expression matches, the first '@' has that shape |
| FormValidation.ValidateForm | scripts/main.js:238-253 | the name error is present exactly when the name is missing or its trimmed `length` in UTF-16 units is below 2; the email error is present exactly when the email is missing, empty or invalid; the name error comes first; `isValid` holds exactly when there is no error |
| FormValidation.OneCharacterName | scripts/main.js:242 | a name of one non-space character passes exactly when it lies above U+FFFF, because `length` then counts 2 |
| Strings.Utf16Length | scripts/main.js:242 | `length` lies between the number of characters and twice that |
| Strings.Utf16LengthBasic | scripts/main.js:242 | on text without characters above U+FFFF, `length` is the number of characters |
| Strings.Trim | scripts/main.js:242 | `trim` never lengthens, leaves no white space at either end, and gives "" exactly for all-space text |
| FormValidation.TrimmedNameValid | scripts/main.js:242 | a name of at least two characters with no white space at either end passes |
| Strings.TrimIsSlice | scripts/main.js:242 | `trim` keeps one slice of the name: white space on both sides of it, and the slice neither starts nor ends with white space |
| Strings.TrimIdempotent | scripts/main.js:242 | trimming a trimmed name changes nothing |
| PhoneFormat.FirstRun | scripts/main.js:269 | the leftmost position where eleven consecutive digits start, or -1 when there is none |
| PhoneFormat.NoRunUnchanged | scripts/main.js:269 | a string without eleven consecutive digits is returned unchanged |
| PhoneFormat.FormatKeepsDigits | scripts/main.js:269 | formatting keeps the digits and their order, and adds exactly four characters when it rewrites |
| PhoneFormat.RunSplit | scripts/main.js:269 | the number cut at a position with at least eleven characters after it is the text before, the two, five and four characters of the run's groups, and the rest |
| PhoneFormat.FormattedSplit | scripts/main.js:269 | the formatted number is the text before the run, then '(', the area code, ') ', the first five digits, '-', the last four and the unchanged rest |
| PhoneFormat.FormatPhone | scripts/main.js:268-270 | with no run of eleven digits the text is returned; otherwise the text before the first run is kept, the run becomes `(`, two digits, `) `, five digits, `-`, four digits, the text after it is kept, and the length grows by 4 |

## Left out

- The DOM is not modelled: `updateCartItems` HTML, badge styling, `toggleCart`, notifications, modals, key and click listeners. Only the values these show are modelled (count, total, message, list texts).
- `setTimeout` and `confirm` after checkout are not modelled, because they are asynchronous UI. They only ever call `clearCart`, which is modelled.
- `window.open` is not modelled. `CartManager.Cart.FinalizarPedido` returns the URL it would open, and returns `None` where the code shows the empty-cart alert.
- Floating-point arithmetic and `toFixed(2)` rounding are not modelled. Prices are exact reals, and formatting is a parameter.
- `JSON.stringify`, `JSON.parse` and `encodeURIComponent` are parameters. The laws assumed of them, such as "parse reads back what stringify wrote", appear as preconditions of `CartStorage.SaveLoadRoundTrip` only.
- `localStorage.getItem` throwing is not modelled. A store that cannot be read behaves like a malformed entry: the load empties the cart.
- The favourites list's own storage is not modelled. `toggleFavorite` reads `dymelti_favorites` with a `'[]'` default and writes it back. The model keeps the list as the field of `FavoriteList`, whose constructor takes the saved list, and does not model JSON or the store around it.
- `updateFavoriteButtons` is not modelled, because it is DOM rendering.
- `CartOrder.OrderText` has no lemma locating each line's full block text in the finished message. `CartOrder.BlocksAt` and `CartOrder.ItemBlockOpens` state the order and numbering of the blocks instead.
- `IsSpace` lists the white-space characters of JavaScript's `\s` and `trim` explicitly. `IsDigit` is `0`-`9`, as `\d` is without the unicode flag.
- `PhoneFormat.FormatPhone` and `FormValidation.IsValidEmail` decide the regular expressions directly rather than through a regular-expression engine. The contract of `IsValidEmail` equates the email one with the pattern's meaning. `FirstRun` and the contract of `FormatPhone` state the phone one's leftmost match and replacement.
