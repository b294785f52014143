# Storefront cart and slide-index model

A Dafny model of the client-side logic of a storefront web UI:

- **Cart store** (`cart.dfy`, module `Cart`). The cart is an ordered list of lines, each a
  product's `id`, `price` and `quantity` (stock) with a `count`, matched by `id`. The four
  mutators `addProductToCart`, `removeOne`, `removeProductFromCart` and `resetCart` are
  methods of the class `CartStore`, whose fields are the line list and the local-storage
  map. Each method is proved equal to a pure function of the old list (`Added`,
  `RemovedOne`, `Removed`, `[]`). Lemmas about those functions state what each mutator
  keeps: unique ids, counts between one and stock, and the line order. They also state how
  the total moves. The derived total is `Total`, an accumulator fold from the first line to
  the last, like the source's `reduce`. It is proved equal to the plain sum of
  `price * count`. The persistence subscription is `Persist`. Start-up loading is `Load` and `Open`.
- **Phone rule of the address form** (`phone.dfy`, module `AddressForm`). The pattern
  `^09(1|2|4|5)[0-9]{7}$` is modelled as ten character classes matched position by
  position. It is proved to accept exactly the ten-character strings that start with
  `09`, then have 1, 2, 4 or 5, then seven decimal digits.
- **Carousel index** (`carousel.dfy`, module `CarouselIndex`). This is the `current` cell
  with the `next` and `prev` updaters and the indicator buttons. On the valid range,
  `next` and `prev` are rotations by plus and minus one. They undo each other, and
  `children.length` clicks on `next` come back to the start. Exactly one indicator is
  highlighted. `next` wraps only on equality, so from past the end it keeps counting up.
- **Slider index** (`slider.dfy`, module `SliderIndex`). This is the `counter` cell with
  `nextSlide` and `prevSlide`. `nextSlide` wraps from any counter at or past the last
  index, so it returns a valid index from any non-negative counter. On the valid range
  both transitions agree with the carousel's. A negative counter is not mapped into range
  by `nextSlide`, but no sequence of clicks produces one while there is a child.

Behaviour of the code a reader may not expect:

- A new line keeps the requested `count`, even above stock (src/components/CartSide.tsx:37-38).
- An add at the stock limit returns without a signal (src/components/CartSide.tsx:43).
- `removeOne` deletes a line whose count is 1 or less (src/components/CartSide.tsx:52-56).
- Unparsable stored text makes module start-up throw (src/components/CartSide.tsx:18).

## Model

| member | source | states |
|---|---|---|
| `Cart.FindIndex` | src/components/CartSide.tsx:36 | the result is -1 exactly when no line has the id, otherwise the first position holding it |
| `Cart.FoundIsOnly` | src/components/CartSide.tsx:36 | with unique ids, the position found is the one line with that id |
| `Cart.NewLine` | src/components/CartSide.tsx:38 | the new line carries the product's id, price and stock, holds exactly the requested count, and its amount is `price * count` |
| `Cart.SpliceOne` | src/components/CartSide.tsx:33 | `splice(start, 1)` deletes the line at an in-range start, the last line for start -1, and nothing on an empty list or past the end |
| `Cart.Fold` | src/components/CartSide.tsx:24-28 | when no line has a negative amount, folding never drops below the starting accumulator |
| `Cart.Total` | src/components/CartSide.tsx:23-29 | an empty cart totals 0; a cart without negative amounts never totals below 0 |
| `Cart.FoldIsSum` | src/components/CartSide.tsx:24-28 | folding the lines into any starting accumulator adds the sum of their `price * count` to it |
| `Cart.TotalIsSumOfAmounts` | src/components/CartSide.tsx:23-29 | the total equals the sum over lines of `price * count`; it is 0 for an empty cart |
| `Cart.TotalAppend` | src/components/CartSide.tsx:24-28 | the total of two concatenated line lists is the sum of their totals |
| `Cart.TotalReplace` | src/components/CartSide.tsx:24-28 | replacing one line changes the total by the difference of the two lines' amounts |
| `Cart.TotalDelete` | src/components/CartSide.tsx:24-28 | deleting one line takes its amount off the total |
| `Cart.Added` | src/components/CartSide.tsx:35-44 | an absent id appends one new line with the given count at the end, other lines unchanged; a present id keeps the length and ignores the count; the found line gains one unit only if stock exceeds its count; every other line is unchanged |
| `Cart.AddedKeepsUnique` | src/components/CartSide.tsx:35-44 | adding keeps every id at most once |
| `Cart.AddedKeepsStock` | src/components/CartSide.tsx:37-43 | increments never pass stock; a new line is within stock only if the requested count is |
| `Cart.AddedTotal` | src/components/CartSide.tsx:35-44 | the total grows by `price * count` for a new line, by one `price` for an increment, and not at all at the stock limit |
| `Cart.FillToStock` | src/components/CartSide.tsx:35-44 | five adds of a product with stock 5 and price 100 give one line of 5 units and total 500; a sixth add changes nothing |
| `Cart.RemovedOne` | src/components/CartSide.tsx:45-57 | an absent id is a no-op; a count above 1 drops by one; a count of 1 or less deletes the line; other lines are untouched and keep their order |
| `Cart.RemovedOneKeepsUnique` | src/components/CartSide.tsx:45-57 | removing one unit keeps every id at most once |
| `Cart.RemovedOneKeepsStock` | src/components/CartSide.tsx:45-57 | removing one unit keeps every remaining count between 1 and stock |
| `Cart.RemovedOneLastUnitDropsProduct` | src/components/CartSide.tsx:52-56 | removing the last unit leaves no line with that product's id |
| `Cart.RemovedOneTotal` | src/components/CartSide.tsx:45-57 | the total drops by one `price`, or by the line's whole amount when the line goes, or not at all for an absent id |
| `Cart.Removed` | src/components/CartSide.tsx:31-34 | a present id's line is deleted and the others keep their order; an absent id deletes the last line of a non-empty cart; an empty cart stays empty |
| `Cart.RemovedKeepsUnique` | src/components/CartSide.tsx:31-34 | removing a product keeps every id at most once |
| `Cart.RemovedDropsProduct` | src/components/CartSide.tsx:31-34 | removing a present product leaves no line for it and takes its whole amount off the total |
| `Cart.RemovedKeepsStock` | src/components/CartSide.tsx:31-34 | removing a product, present or absent, keeps every remaining count between 1 and stock |
| `Cart.Serialize` | src/components/CartSide.tsx:61-63 | the stored form of a cart loads back as the same cart |
| `Cart.Lookup` | src/components/CartSide.tsx:18 | `getItem` gives a value exactly when the key is stored, and then the stored value |
| `Cart.Load` | src/components/CartSide.tsx:17-21 | loading fails exactly on unparsable text; a missing key or a falsy stored value gives the empty cart |
| `Cart.CartStore.CurrentTotal` | src/components/CartSide.tsx:23 | the derived total is the sum of `price * count` over the current lines |
| `Cart.CartStore.constructor` | src/components/CartSide.tsx:17 | the store starts with the given lines and storage |
| `Cart.CartStore.Open` | src/components/CartSide.tsx:17-21 | start-up fails exactly when the stored text does not parse; otherwise the cart is what was stored under "cart", and empty when nothing was |
| `Cart.CartStore.Persist` | src/components/CartSide.tsx:61-63 | the whole cart is written under "cart", and nothing else in storage changes |
| `Cart.CartStore.AddProductToCart` | src/components/CartSide.tsx:35-44 | `count` defaults to 1; the new line list is `Added` of the old one; storage is rewritten exactly when the list changed; unique ids are kept |
| `Cart.CartStore.RemoveOne` | src/components/CartSide.tsx:45-57 | the new line list is `RemovedOne` of the old one; storage is rewritten exactly when the list changed; unique ids are kept |
| `Cart.CartStore.RemoveProductFromCart` | src/components/CartSide.tsx:31-34 | the new line list is `Removed` of the old one; storage is rewritten exactly when the list changed; unique ids are kept |
| `Cart.CartStore.ResetCart` | src/components/CartSide.tsx:58-60 | the cart is empty, its total is 0, and the empty cart is written to storage |
| `Cart.PersistedReloads` | src/components/CartSide.tsx:61-63 | once the cart has been written, what storage holds under "cart" loads back as the cart in memory |
| `AddressForm.MatchesClasses` | src/components/CartSide.tsx:138 | an anchored match consumes exactly one character per class, the first in the first class |
| `AddressForm.MatchesClassesIff` | src/components/CartSide.tsx:138 | an anchored match of a fixed class sequence holds exactly when the string has one character per class, each in its class |
| `AddressForm.IsValidPhone` | src/components/CartSide.tsx:136-139 | accepts exactly length 10, prefix `09`, third character in {1,2,4,5}, and decimal digits at positions 3 to 9 |
| `CarouselIndex.Next` | src/components/Carousel.tsx:14-17 | `len-1` maps to 0 and any other index to its successor; on `[0, len)` the result stays in range and is `(current + 1) mod len` |
| `CarouselIndex.Prev` | src/components/Carousel.tsx:19-22 | 0 maps to `len-1` and any other index to its predecessor; on `[0, len)` the result stays in range and is `(current - 1) mod len` |
| `CarouselIndex.PrevUndoesNext` | src/components/Carousel.tsx:14-22 | for in-range indices `prev(next(c)) == c` |
| `CarouselIndex.NextUndoesPrev` | src/components/Carousel.tsx:14-22 | for in-range indices `next(prev(c)) == c` |
| `CarouselIndex.NextPastEndDoesNotWrap` | src/components/Carousel.tsx:15-16 | from an index past the end, `next` increments and the result is out of range |
| `CarouselIndex.NextTimes` | src/components/Carousel.tsx:14-17 | any number of `next` clicks from an in-range index stays in range |
| `CarouselIndex.NextTimesRotates` | src/components/Carousel.tsx:14-17 | `k <= len` clicks on `next` from an in-range index give `(c + k) mod len` |
| `CarouselIndex.NextCycle` | src/components/Carousel.tsx:14-17 | `len` clicks on `next` return to the starting index |
| `CarouselIndex.Indicators` | src/components/Carousel.tsx:48-54 | there is one indicator per child, highlighted exactly when its index is `current` |
| `CarouselIndex.OneActiveIndicator` | src/components/Carousel.tsx:48-54 | exactly one indicator is highlighted while `current` is in range, none otherwise |
| `CarouselIndex.Carousel.constructor` | src/components/Carousel.tsx:13 | `current` starts at 0, and the index invariant holds |
| `CarouselIndex.Carousel.ClickNext` | src/components/Carousel.tsx:14-17 | `current` becomes `Next` of its old value and stays in range |
| `CarouselIndex.Carousel.ClickPrev` | src/components/Carousel.tsx:19-22 | `current` becomes `Prev` of its old value and stays in range |
| `CarouselIndex.Carousel.ClickIndicator` | src/components/Carousel.tsx:51 | clicking indicator `i` sets `current` to `i`, after which exactly one indicator is highlighted |
| `SliderIndex.NextSlide` | src/components/Slider.tsx:12-15 | a counter at or past the last index goes to 0; with at least one child, every non-negative counter gives a valid index; on `[0, len)` the result is `(counter + 1) mod len` |
| `SliderIndex.PrevSlide` | src/components/Slider.tsx:16-19 | a counter of 0 or less goes to `len-1`; on `[0, len)` the result stays in range and is `(counter - 1) mod len` |
| `SliderIndex.PrevSlideUndoesNextSlide` | src/components/Slider.tsx:12-19 | for in-range counters `prevSlide` undoes `nextSlide` |
| `SliderIndex.NextSlideUndoesPrevSlide` | src/components/Slider.tsx:12-19 | for in-range counters `nextSlide` undoes `prevSlide` |
| `SliderIndex.SingleSlideIsFixed` | src/components/Slider.tsx:12-19 | with one child both transitions give 0 |
| `SliderIndex.AgreesWithCarousel` | src/components/Slider.tsx:12-15 | on in-range counters the slider moves like the carousel; past the end the slider wraps to 0 and the carousel increments |
| `SliderIndex.Slider.constructor` | src/components/Slider.tsx:9 | `counter` starts at 0, and the index invariant holds |
| `SliderIndex.Slider.ClickNext` | src/components/Slider.tsx:12-15 | `counter` becomes `NextSlide` of its old value and the index invariant is kept |
| `SliderIndex.Slider.ClickPrev` | src/components/Slider.tsx:16-19 | `counter` becomes `PrevSlide` of its old value and the index invariant is kept |
| `SliderIndex.Slider.Displayed` | src/components/Slider.tsx:31 | with at least one child, `counter` is a valid index and the displayed element is `children[counter]` |

## Left out

- Rendering is not modelled: JSX, styling, dialogs, selects, toasts and the `motion` offset of the carousel are presentation only.
- The reactive libraries are not modelled. Valtio's `proxy`, `derive`, `subscribe` and `useSnapshot`, and React's `useState` and `useCallback`, become plain fields, functions and method calls.
- Valtio delivers change notifications in a batch. Several mutations in one tick therefore cause a single storage write. The model writes after each mutation that changes the cart, so its stored copy is the cart after the batch.
- Local storage and JSON are abstracted. A stored value is modelled by what `JSON.parse` makes of it: unparsable text, a falsy value, or a cart object. A truthy stored value that is not a cart object is not modelled.
- Prices are whole numbers. The source's price is a string coerced by `*`, and a non-numeric price (which gives `NaN`) is not modelled.
- The `Product` type of the product list has no `id` or `quantity`; the cart reads both from untyped records. The model's `Product` always has them. A record without `quantity` never increments in the source, because `undefined > n` is false; the model does not cover that case.
- `{ count, ...p }` lets a `count` field of `p` override the argument. Products carry no `count`, so the model's `NewLine` always uses the argument.
- Cart lines are shared proxy objects in the source, and the UI passes them back into the mutators. The model treats lines as values. `removeOne` and `removeProductFromCart` take only the id, because that is the only field they read.
- Network calls (`getLocations`, `getShipping`, `getCategories`, `getStoreData`) and react-query are I/O and are not modelled.
- The rest of the `react-hook-form` wiring is not modelled, since only the phone pattern is a checkable rule. The `required` checks are also not modelled.
- `changeView` in `src/stores.ts` is a single field assignment and is not modelled.
- `faker` data, configuration files, `Meta.tsx` and `TextArea.tsx` are not part of this model.
- Variant-bearing cart lines, the paginated product feed and filter-tagged fetches have no code among the modelled files.
- `children` is a constant of each component. A parent that re-renders with a different number of children is not modelled.
- `nextSlide` and `prevSlide` are memoised on `counter`. Their condition reads the rendered counter, while both updaters read the latest value. The model treats each click as one step on a single value.
- CarouselIndex.NextTimesRotates: states the rotation formula for at most `len` clicks, which is enough for the full cycle `NextCycle`; larger click counts are covered only by the range bound of `NextTimes`.
