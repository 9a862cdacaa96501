# Storefront cart engine and catalog search, in Dafny

This project models the logic core of a small client-side storefront script
(`script.js`). The core has two parts:

- **The cart engine.** The cart is an ordered list of lines `{name, price, quantity}` kept
  under one browser-storage key. `orderProduct` adds a product, or bumps the quantity of a
  line that already has that name. `updateQuantity` moves a line's quantity by a delta and
  drops the line at 0 or below. `removeItem` splices a line out by position. `clearCart`
  deletes the key. The derived values are the badge count (the sum of quantities), the
  cart total (the sum of price × quantity) and the order summary (`"<name> (x<qty>)"`
  joined by `", "`).
- **The search filter.** It lower-cases the search-box value, shows nothing for an empty
  value, and otherwise keeps the fixed catalog entries whose lower-cased name contains the
  query, in catalog order.

Layout:

- `option.dfy`: module `Options`, the `Option` datatype. It stands for an absent storage
  key, a missing catalog entry and an omitted price argument.
- `text.dfy`: module `Text`. It holds ASCII lower-casing, `includes` as a left-to-right
  prefix scan, the decimal rendering of quantities and `join`.
- `catalog.dfy`: module `Catalog`. It holds the eight catalog products, `find` by name, a
  generic `filter`, and the search suggestions.
- `cart.dfy`: module `Cart`. It holds the line datatype, the derived sums and summary, one
  pure function per cart operation with lemmas about it, and the class `CartStore`.
  `CartStore` holds the storage slot, and its methods perform the operations in place.

The storage slot is `slot: Option<seq<Line>>`. `None` means the key is absent, and an
absent key reads as the empty cart. `clearCart` removes the key, which is not the same as
writing `[]`. An `updateQuantity` on a position with no line returns before writing
anything. The JSON round trip through storage is taken to be the identity. Every
operation except `clearCart` and an ignored `updateQuantity` reads the whole cart from
the slot, changes it, and writes it back; `clearCart` removes the key without reading it. Each method's
contract says that the new slot holds a pure function of the old cart (`Ordered`,
`QuantityChanged`, `Without`), and the lemmas about those functions carry the properties.

The cart invariant `WellFormed` says that no two lines share a name and that every
quantity is at least 1. Storage can hold anything, so no operation requires the
invariant. Each operation's function is proved to preserve it.

Prices are whole numbers (the catalog prices are whole). The explicit `price` argument of
`orderProduct` is an `Option<int>`. Both `None` and `Some(0)` fall back to the catalog
price, because JavaScript treats 0 as false in `price || …`.

Behaviour of `script.js` that the model keeps as written:

- The search for "ss" suggests Dress alone: "sneakers" has two s letters, but not next
  to each other. `Catalog.SuggestionsForSs` proves it.
- `JSON.parse(…) || []` reads a missing key, and any stored value JavaScript treats as
  false (`null`, `false`, `0`, `""`), as the empty cart. `JSON.parse` throws on malformed
  stored text. The model's slot holds a list or nothing, so neither case arises in it.
- `removeItem` has no bounds guard. `splice` counts a negative index from the end and
  clamps it at 0, so `-1` removes the last line and any index at or below `-length`
  removes the first (`Cart.SpliceRemoves`). The code throws only when nothing was
  removed, which takes an empty cart or an index at or past the end. The model keeps the
  `splice` behaviour and states the throwing case as a precondition.

## Model

| member | source | states |
|---|---|---|
| `Text.Lower` | script.js:142 | lower-casing keeps the length and maps each character by itself |
| `Text.LowerIdempotent` | script.js:142-146 | lower-casing an already lower-cased string changes nothing |
| `Text.Contains` | script.js:146 | `includes` as a left-to-right scan testing the query as a prefix at each position (its meaning is `Text.ContainsIffOccurs`) |
| `Text.ContainsIffOccurs` | script.js:146 | the prefix-scan `includes` holds exactly when the query occurs at some position of the name |
| `Text.NatToStringRoundTrip` | script.js:88 | the decimal rendering of a quantity reads back as the same number |
| `Text.IntToString` | script.js:88 | a rendered integer is non-empty and all digits, with a leading minus sign exactly for a negative number and no leading zero (the shortest form), and its digits read back as the number's magnitude |
| `Text.Join` | script.js:88 | `join`: the parts in order with the separator between neighbours (its properties are `Text.JoinConcat` and `Cart.SummaryAppend`) |
| `Text.JoinConcat` | script.js:88 | joining two non-empty lists of parts end to end equals joining each and putting the separator between |
| `Catalog.Products` | script.js:2-11 | the eight catalog entries with their prices, in display order |
| `Catalog.ProductsNamesUnique` | script.js:2-11 | no two catalog entries share a name |
| `Catalog.Find` | script.js:38 | `find` gives `None` exactly when no entry has the name; otherwise it gives the first entry with that name |
| `Catalog.FindUnique` | script.js:38 | in a catalog without duplicate names, looking up an entry's name gives back that entry |
| `Catalog.Filter` | script.js:146 | `filter` with a callback (its meaning is `Catalog.FilterMembers`, `Catalog.FilterConcat` and `Catalog.FilterIsSubsequence`) |
| `Catalog.NameMatches` | script.js:146 | the callback: the lower-cased name contains the lower-cased query |
| `Catalog.Suggestions` | script.js:142-147 | the suggestion list for a search-box value (its meaning is `Catalog.SuggestionsSpec`) |
| `Catalog.FilterMembers` | script.js:146 | an element is kept by `filter` exactly when it is in the input and the callback accepts it |
| `Catalog.FilterConcat` | script.js:146 | filtering two lists end to end is the two filtered lists end to end, so the input order is kept |
| `Catalog.FilterIsSubsequence` | script.js:146 | what `filter` keeps is a subsequence of its input |
| `Catalog.SuggestionsEmptyQuery` | script.js:144 | an empty search value gives no suggestions |
| `Catalog.SuggestionsSpec` | script.js:142-147 | an empty query gives nothing; otherwise the suggestions are a subsequence of the catalog and contain exactly the entries whose lower-cased name contains the lower-cased query |
| `Catalog.SuggestionsCaseInsensitive` | script.js:142 | a query and its lower-cased form give the same suggestions, so the search ignores the query's letter case |
| `Catalog.SuggestionsForSs` | script.js:142-147 | any query that lower-cases to "ss" suggests Dress alone |
| `Cart.BadgeCount` | script.js:30 | the badge count: the `reduce` sum of the quantities, left to right |
| `Cart.Total` | script.js:63-67 | the cart total: the sum of price times quantity, left to right |
| `Cart.BadgeCountConcat` | script.js:30 | the badge count of two carts end to end is the sum of their badge counts |
| `Cart.BadgeCountBounds` | script.js:30 | in a well-formed cart the badge count is at least the number of lines, and it is 0 exactly when the cart is empty |
| `Cart.TotalConcat` | script.js:63-67 | the total of two carts end to end is the sum of their totals |
| `Cart.LineText` | script.js:88 | one line's summary text `"<name> (x<qty>)"` |
| `Cart.Summary` | script.js:88 | the order summary: the line texts joined by `", "` |
| `Cart.SummaryAppend` | script.js:88 | a one-line summary is that line's text, and each further line adds `", "` and its text at the end |
| `Cart.SummaryEmpty` | script.js:87-88 | the summary is empty exactly when the cart is |
| `Cart.SummaryConcat` | script.js:88 | the summary of two non-empty carts end to end is their summaries joined by ", " |
| `Cart.IndexOf` | script.js:41 | the position found is the first line with that name, or the cart length when there is none |
| `Cart.FindLine` | script.js:41 | the loop stops at the first line with the name, or at the end when there is none |
| `Cart.ResolvePrice` | script.js:38-39 | `price || (found ? found.price : 0)` with integer prices (its cases are `Cart.ResolvePriceCases`) |
| `Cart.ResolvePriceCases` | script.js:38-39 | a non-zero explicit price wins; otherwise a catalog name gets its catalog price and any other name gets 0 |
| `Cart.Ordered` | script.js:37-47 | the cart `orderProduct` writes back (its meaning is `Cart.OrderedExisting` and `Cart.OrderedNew`) |
| `Cart.OrderedExisting` | script.js:41-43 | ordering a name already present raises that line's quantity by 1 and keeps its price, the cart length and every other line |
| `Cart.OrderedNew` | script.js:44-45 | ordering an absent name appends exactly one line with quantity 1 and the resolved price |
| `Cart.OrderedWellFormed` | script.js:41-45 | ordering keeps names unique and quantities at least 1 |
| `Cart.OrderedBadge` | script.js:41-46 | ordering raises the badge count by exactly 1, whether the name was present or not |
| `Cart.OrderedTotal` | script.js:41-46 | ordering raises the total by the unit price of the line that now carries the name |
| `Cart.QuantityChanged` | script.js:115-116 | the cart `updateQuantity` writes back for a position that holds a line (its meaning is `Cart.QuantityChangedKeeps` and `Cart.QuantityChangedDrops`) |
| `Cart.QuantityChangedKeeps` | script.js:115 | when the new quantity stays positive, only that line changes, and its quantity changes by exactly the delta |
| `Cart.QuantityChangedDrops` | script.js:116 | when the new quantity is 0 or below, the result is the cart with that line cut out: the lines before it stay, the lines after it move up by one |
| `Cart.QuantityChangedWellFormed` | script.js:115-116 | a quantity change keeps names unique and quantities at least 1 |
| `Cart.QuantityChangedBadge` | script.js:115 | when the line is kept, the badge count moves by exactly the delta |
| `Cart.QuantityChangedTotal` | script.js:115 | when the line is kept, the total moves by the line's unit price times the delta |
| `Cart.Without` | script.js:123 | the cart with one position cut out, as `splice(start, 1)` leaves it |
| `Cart.SpliceRemoves` | script.js:123 | `splice(index, 1)` removes exactly one line: index -1 the last line, any index at or below minus the length the first line, and a non-negative index that very line |
| `Cart.WithoutWellFormed` | script.js:123 | cutting a line out keeps names unique and quantities at least 1 |
| `Cart.WithoutBadge` | script.js:123 | cutting a line out lowers the badge count by that line's quantity (so a dropped line loses its whole quantity) |
| `Cart.WithoutTotal` | script.js:123 | cutting a line out lowers the total by that line's price times quantity |
| `Cart.CartStore.Contents` | script.js:29 | the cart as read from storage: an absent key reads as the empty cart |
| `Cart.CartStore.constructor` | script.js:29 | a fresh store has no key, and its cart reads as empty |
| `Cart.CartStore.OrderProduct` | script.js:36-51 | the stored cart becomes `Ordered` of the cart read before: the bumped line, or the new line at the end (badge, total and well-formedness then follow from the `Ordered` lemmas) |
| `Cart.CartStore.UpdateQuantity` | script.js:112-119 | a position with no line leaves the slot untouched, without writing; otherwise the stored cart becomes `QuantityChanged` of the cart read before |
| `Cart.CartStore.RemoveItem` | script.js:121-127 | the stored cart loses exactly the line at the `splice` position (see `Cart.SpliceRemoves`), and that line's name is returned for the toast |
| `Cart.CartStore.ClearCart` | script.js:129-133 | the key is removed, the cart reads as empty, and the badge count and total are both 0 |
| `Cart.CartStore.RenderCart` | script.js:63-67 | the running total equals the cart total; the summary exists exactly when the cart is non-empty, and it is then the non-empty joined summary |
| `Catalog.FilterForSs` | script.js:146 | filtering the catalog for "ss" keeps the Dress entry alone |
| `Cart.DressPrice` | script.js:38-39 | Dress ordered with no price gets its catalog price 50 |
| `Cart.DressScenario` | script.js:36-51 | ordering Dress twice gives one line at price 50 with quantity 2 (badge 1, then 2), and a change of -2 then empties the cart |
| `Cart.GadgetNotInCatalog` | script.js:2-11 | no catalog entry is named "Gadget" |
| `Cart.UnknownNameScenario` | script.js:39 | an unknown name ordered with no price gets a line with price 0, and the total is 0 |

## Left out

- Toast notifications and their 3-second auto-hide timer (script.js:14-25). They are UI
  and timing, and the stale-hide race is about timing, not cart logic.
- DOM construction: the rows, the badge, total and checkout elements, the clear button
  and the early returns when an element is missing (script.js:31-32, 56-62, 69-82,
  93-106). `RenderCart` keeps only the total and the summary that the rendering computes.
- `localStorage`, `JSON.parse` and `JSON.stringify` are browser I/O and a foreign
  serializer. The slot is a field, the round trip is the identity, and the exception for
  malformed stored text is not modelled.
- `toFixed(2)`, floating-point prices and the `wa.me` link with `encodeURIComponent`
  (script.js:74, 85, 89-91) are left out. Prices are integers, and the summary string is
  modelled without the URL around it.
- Event wiring: the `input` and `click` listeners, clicking a suggestion, hiding on an
  outside click, and `DOMContentLoaded` start-up (script.js:141, 149-166, 170-174).
- `Text.Lower`: only A-Z are lower-cased. JavaScript's `toLowerCase` also maps non-ASCII
  letters. The catalog names are ASCII, but a query need not be: JavaScript lower-cases
  U+212A (the Kelvin sign) to "k", so that query suggests Denim Jacket and Sneakers,
  while the model leaves it unchanged and suggests nothing.
- `Cart.CartStore.RemoveItem`: a position at or past the end, or any position in an empty
  cart, makes the source throw after it has written the unchanged cart back. That case
  is a precondition, not a modelled failure.
- `Cart.BadgeCount`, `Cart.Total`, `Text.IntToString`: JavaScript numbers are doubles.
  `quantity++`, the `reduce` sum and `total +=` are exact only up to 2^53, and `${q}`
  switches to exponent form (such as "1e+21") from 10^21 on. The model uses unbounded
  integers and plain decimal digits.
- Quantities, deltas and positions are integers. Values that JavaScript would accept from
  tampered storage or from callers (strings, fractions, `NaN`) are not modelled.
