# Marivelas cart and checkout, in Dafny

This project models the shopping cart and the checkout of the Marivelas candle storefront.

The cart provider holds three pieces of state:

- the ordered line items, each a candle in one colour with a quantity;
- the packaging option: none, standard or premium;
- the `isCartLoaded` flag.

It offers the add, remove, update-quantity, set-packaging and clear operations. It derives the item count, subtotal, packaging cost, shipping cost and total. It loads its state from browser storage once, and after that load it saves the state on every change.

The checkout has three parts:

- a small state machine over the current order id (`string | null`) and the popup flag;
- the builder of the order summary the customer e-mails to the seller;
- the popup's view of that summary.

Modules, one file each:

- `Wrappers` (`wrappers.dfy`): `Option`, the model of `T | null`.
- `Text` (`text.dfy`): decimal rendering of naturals and integers, and `toFixed(2)` on integer cents (`FormatCents`). Each comes with a parser and a proved round trip.
- `CartItems` (`cart_items.dfy`): the entities, and the pure list updates behind each operation (`map`/`filter`/spread). The derived values are left folds, as `reduce` computes them. This file holds the lemmas about all of them.
- `CartContext` (`cart_context.dfy`): the provider as the class `CartStore`, with one method per operation and the two storage effects. Storage is two slots held as fields.
- `CartDisplay` (`cart_display.dfy`): the summary text as a list of lines, and the method that builds it with a loop over the cart. The dialog is the class `Checkout`.

Modelling choices:

- Prices are integer cents.
- The three cost constants are a `CostConstants` parameter of the store.
- The seller's address is a parameter of the checkout.
- `Date.now()` is the `timestamp` argument of the checkout actions.
- The cart slot is seen through what `JSON.parse` makes of it: nothing stored, text that does not parse, or a parsed list.
- The summary's fixed wording is a `Wording` record. `SourceWording` holds the storefront's own texts, and the checkout uses it. Every proof holds for any wording.

## Model

| member | source | states |
|---|---|---|
| Text.NatToString | src/components/cart-display.tsx:51 | a natural prints as at least one digit, with no leading zero |
| Text.NatToStringRoundTrip | src/components/cart-display.tsx:51 | reading the digits of a printed natural gives it back |
| Text.NatToStringInjective | src/components/cart-display.tsx:81 | different naturals print differently |
| Text.IntToString | src/components/cart-display.tsx:51 | the quantity's `${}` text is non-empty and starts with '-' exactly for negatives |
| Text.IntToStringRoundTrip | src/components/cart-display.tsx:51 | the printed quantity parses back to itself |
| Text.FormatCents | src/components/cart-display.tsx:51-58 | `toFixed(2)` on cents: at least "0.00" long, signed exactly for negatives |
| Text.UnsignedCentsRoundTrip | src/components/cart-display.tsx:54-58 | "units.DD" parses back to 100 * units + DD |
| Text.FormatCentsRoundTrip | src/components/cart-display.tsx:54-58 | every amount printed with two decimals parses back to the same number of cents |
| Text.FormatCentsInjective | src/components/cart-display.tsx:54-58 | two different amounts never print the same text |
| CartItems.AddLine | src/context/cart-context.tsx:78-91 | the length grows by one exactly when the line id is new; existing lines keep their id, candle and colour in order; the id is then present |
| CartItems.RemoveLines | src/context/cart-context.tsx:93-95 | keeps exactly the lines whose id differs, never more lines than before |
| CartItems.UpdateLines | src/context/cart-context.tsx:97-107 | a quantity of at least 1 keeps the length and every line's id, candle and colour; below 1 no line has the id |
| CartItems.ItemCount | src/context/cart-context.tsx:118-120 | with positive quantities the count is at least the number of lines |
| CartItems.Subtotal | src/context/cart-context.tsx:122-124 | non-negative prices and quantities give a non-negative subtotal |
| CartItems.PackagingCost | src/context/cart-context.tsx:126-135 | nothing for an empty cart or no packaging; standard charges its fee exactly when the cart has lines (or the fee is zero) |
| CartItems.ShippingCost | src/context/cart-context.tsx:137-139 | an empty cart ships for free |
| CartItems.TotalPrice | src/context/cart-context.tsx:141-143 | an empty cart costs nothing |
| CartItems.ItemId | src/context/cart-context.tsx:80 | no contract of its own: the id is the candle id, a dash and the colour value; `ItemIdInjective` and `ItemIdCollision` state when it tells lines apart |
| CartItems.ItemIdInjective | src/context/cart-context.tsx:80 | with dash-free colour values a line id determines the candle id and the colour value |
| CartItems.AvailableColors | src/config/candle-options.ts:8-17 | a constant: the eight catalogue colours with their names, values and hex codes, in order |
| CartItems.PackagingLabel | src/components/cart-display.tsx:55 | the three option names "none", "standard" and "premium", each naming exactly one option |
| CartItems.CatalogueColorsDashFree | src/config/candle-options.ts:8-17 | every catalogue colour value is dash-free |
| CartItems.ItemIdCollision | src/context/cart-context.tsx:80 | without that condition two different candle/colour pairs share a line id |
| CartItems.AddExisting | src/context/cart-context.tsx:80-88 | adding a candle/colour whose line exists raises that line's quantity by exactly one and changes nothing else |
| CartItems.AddAbsent | src/context/cart-context.tsx:89 | adding a candle/colour without a line appends a one-unit line at the end |
| CartItems.AddPreservesWellFormed | src/context/cart-context.tsx:78-91 | unique ids and quantities of at least one survive an add |
| CartItems.AddRepeatedlyMerges | src/context/cart-context.tsx:78-91 | n adds of a new candle/colour leave one line holding n units |
| CartItems.AddExistingSubtotal | src/context/cart-context.tsx:80-88 | adding to an existing line adds that line's stored unit price to the subtotal, since the stored candle is kept |
| CartItems.RemoveAbsent | src/context/cart-context.tsx:93-95 | removing an absent id changes nothing |
| CartItems.RemoveExisting | src/context/cart-context.tsx:93-95 | removing the id of its one line drops exactly that line and keeps the rest in order |
| CartItems.RemoveAppend | src/context/cart-context.tsx:93-95 | filtering a concatenation is the concatenation of the filtered parts, whatever ids the cart holds |
| CartItems.RemoveIdempotent | src/context/cart-context.tsx:93-95 | removing twice equals removing once |
| CartItems.RemovePreservesWellFormed | src/context/cart-context.tsx:93-95 | unique ids and positive quantities survive a remove |
| CartItems.RemoveKeepsUnique | src/context/cart-context.tsx:93-95 | filtering keeps ids unique |
| CartItems.UpdateBelowOneRemoves | src/context/cart-context.tsx:97-101 | a quantity below one gives exactly the result of removing the id |
| CartItems.UpdateExisting | src/context/cart-context.tsx:102-106 | otherwise only the matching line's quantity becomes the new one |
| CartItems.UpdateAbsent | src/context/cart-context.tsx:102-106 | updating an absent id changes nothing |
| CartItems.UpdatePreservesWellFormed | src/context/cart-context.tsx:97-107 | unique ids and positive quantities survive an update |
| CartItems.ItemCountAppend | src/context/cart-context.tsx:118-120 | the count of a concatenation is the sum of the counts: it is the sum of quantities |
| CartItems.SubtotalAppend | src/context/cart-context.tsx:122-124 | the subtotal of a concatenation is the sum of the subtotals: it is the sum of price times quantity |
| CartItems.SumsAfterReplace | src/context/cart-context.tsx:118-124 | replacing one line changes count and subtotal by exactly that line's difference |
| CartItems.AddSums | src/context/cart-context.tsx:118-124 | an add puts one more unit in the count and, for a new line, the candle's price in the subtotal |
| CartItems.RemoveSums | src/context/cart-context.tsx:118-124 | a remove takes that line's units and amount out of the sums |
| CartItems.NonEmptyIffUnits | src/context/cart-context.tsx:118-120 | with positive quantities, a cart has lines exactly when it has units |
| CartItems.ShippingIffNonEmpty | src/context/cart-context.tsx:137-139 | shipping is charged if and only if the cart has lines |
| CartItems.PremiumIsPerUnitSurcharge | src/context/cart-context.tsx:130-133 | premium packaging equals raising every candle's price by the per-unit fee |
| CartItems.StandardIsFlat | src/context/cart-context.tsx:127-129 | standard packaging is the same fee for any non-empty cart |
| CartItems.TotalAtLeastSubtotal | src/context/cart-context.tsx:141-143 | with non-negative constants the total is never below the subtotal |
| CartItems.ClearedCartCostsNothing | src/context/cart-context.tsx:113-143 | the cleared cart has count, subtotal, packaging, shipping and total zero |
| CartContext.LoadedItems | src/context/cart-context.tsx:53-61 | nothing stored keeps the lines, a parse error empties them, parsed lines replace them |
| CartContext.LoadedPackaging | src/context/cart-context.tsx:63-66 | a stored option replaces the current one, otherwise it stays |
| CartContext.CartStore.constructor | src/context/cart-context.tsx:47-49 | a fresh provider: no lines, standard packaging, not loaded, storage as found |
| CartContext.CartStore.SaveEffect | src/context/cart-context.tsx:71-76 | storage receives the current state only once the cart is loaded, and is untouched otherwise |
| CartContext.CartStore.Load | src/context/cart-context.tsx:52-68 | the loaded lines and option per slot, the flag set whatever the outcome, the state then saved |
| CartContext.CartStore.AddToCart | src/context/cart-context.tsx:78-91 | the lines become the add result, the rest unchanged, saved when loaded, the cart invariant kept |
| CartContext.CartStore.RemoveFromCart | src/context/cart-context.tsx:93-95 | the lines become the filtered list, saved when loaded, the invariant kept |
| CartContext.CartStore.UpdateQuantity | src/context/cart-context.tsx:97-107 | below one it removes the line, otherwise it sets the quantity; saved when loaded, the invariant kept |
| CartContext.CartStore.UpdatePackagingOption | src/context/cart-context.tsx:109-111 | only the option changes, saved when loaded |
| CartContext.CartStore.ClearCart | src/context/cart-context.tsx:113-116 | no lines, standard packaging, every derived value zero, saved when loaded |
| CartContext.Reload | src/context/cart-context.tsx:52-76 | a new provider over the saved storage restores the same lines and option |
| CartDisplay.OrderIdInjective | src/components/cart-display.tsx:81 | two order ids are equal only for equal clock readings |
| CartDisplay.Truthy | src/components/cart-display.tsx:44 | no contract of its own: `!orderId` and `orderId ?` as a predicate, present and non-empty; `OrderIdTruthy` states that generated ids pass it and `null` does not |
| CartDisplay.OrderIdTruthy | src/components/cart-display.tsx:81 | every generated order id is truthy and the absent id is not, so a checkout's popup always asks for instructions |
| CartDisplay.OrderId | src/components/cart-display.tsx:81 | the id is "MV-" followed by a non-empty run of decimal digits |
| CartDisplay.OrderIdText | src/components/cart-display.tsx:46 | no contract of its own: `${orderId}` for an id that is a string or `null`, with `null` printing as "null"; `SummaryStartsWithSubject` states that the subject line quotes it |
| CartDisplay.HeaderLines | src/components/cart-display.tsx:46-48 | the three opening appends are six lines: subject with the id, greeting, request, each followed by a blank line |
| CartDisplay.ItemLine | src/components/cart-display.tsx:51 | no contract of its own: what it states is proved by `ItemLineReadsBack` |
| CartDisplay.CostLines | src/components/cart-display.tsx:54-59 | the cost appends are eight lines; `CostLinesReadBack` states what they carry |
| CartDisplay.InstructionLines | src/components/cart-display.tsx:62-71 | the instruction appends are eleven lines; `SummaryInstructionsIff` states where the id and the total appear |
| CartDisplay.SummaryLines | src/components/cart-display.tsx:43-76 | no contract of its own: header, one item line per cart line, cost block and optional instructions; the lemmas on line 6 + k, on lines 6 + n to 13 + n and on the lines from 14 + n state the layout |
| CartDisplay.OrderSummary | src/components/cart-display.tsx:44 | the summary is "" exactly for an empty cart without a truthy order id |
| CartDisplay.SummaryStartsWithSubject | src/components/cart-display.tsx:46 | otherwise it starts with the subject line quoting the order id |
| CartDisplay.SummaryListsItems | src/components/cart-display.tsx:50-52 | line 6 + k is the item line of cart line k, in cart order |
| CartDisplay.ItemLineReadsBack | src/components/cart-display.tsx:51 | an item line shows name, colour, quantity and price times quantity, both numbers readable back |
| CartDisplay.SummaryReportsCosts | src/components/cart-display.tsx:54-59 | right after the n item lines, lines 6 + n to 13 + n are exactly the cost block |
| CartDisplay.CostLinesReadBack | src/components/cart-display.tsx:54-58 | the Subtotal, Packaging, shipping and TOTAL lines carry the store's derived values, and each amount parses back from the text after its prefix |
| CartDisplay.SummaryInstructionsIff | src/components/cart-display.tsx:61-72 | the instruction block closes the text if and only if instructions were asked for and the id is truthy; its payment amount is the total |
| CartDisplay.AppendItems | src/components/cart-display.tsx:50-52 | the `forEach` appends give exactly the text of the item lines, one per cart line in cart order |
| CartDisplay.AppendCosts | src/components/cart-display.tsx:54-59 | the six cost appends produce the text of the cost lines |
| CartDisplay.AppendInstructions | src/components/cart-display.tsx:61-72 | the ten instruction appends produce the text of the instruction lines |
| CartDisplay.Checkout.constructor | src/components/cart-display.tsx:34-35 | no order id, popup closed, no notices |
| CartDisplay.Checkout.GenerateOrderSummary | src/components/cart-display.tsx:43-76 | the loop's text is the rendered summary lines for the current cart |
| CartDisplay.Checkout.Summary | src/components/cart-display.tsx:38-43 | no contract of its own: `generateOrderSummary` as a closure over the context's current lines, packaging option and derived values; `GenerateOrderSummary` is proved to return it and `OrderSummaryForPopup` shows it |
| CartDisplay.Checkout.OrderSummaryForPopup | src/components/cart-display.tsx:78 | the popup text is "" exactly when there is no truthy order id; otherwise it is the summary with instructions |
| CartDisplay.Checkout.ProceedToCheckout | src/components/cart-display.tsx:78-84 | the id becomes "MV-" followed by the timestamp, the popup opens and shows the summary with instructions for that id |
| CartDisplay.Checkout.ClickPlaceOrder | src/components/cart-display.tsx:177 | the disabled button does nothing on an empty cart |
| CartDisplay.Checkout.Cancel | src/components/cart-display.tsx:192 | the id is dropped, the popup closes and shows "", the cart is untouched |
| CartDisplay.Checkout.Dismiss | src/components/cart-display.tsx:175 | closing the dialog otherwise keeps the id |
| CartDisplay.Checkout.ConfirmInstructions | src/components/cart-display.tsx:86-96 | the cart is cleared once, one notice quotes the id, the id is dropped, the popup closes |
| CartDisplay.Checkout.ClickEmptyCart | src/components/cart-display.tsx:167 | clears the cart; the disabled button does nothing on an empty cart |
| CartDisplay.CancelThenConfirm | src/components/cart-display.tsx:80-96 | after a cancelled checkout, a checkout at a different clock reading gets a different id; the cart is unchanged after the cancel and cleared only by the confirmation |

## Left out

- Floating point: prices are integer cents, and `FormatCents` is the exact `toFixed(2)` of those cents. That agrees with JavaScript while the double computed for each amount stays within half a cent of the exact value, so that `toFixed(2)` still rounds to the right cent: 0.10 × 3 is 0.30000000000000004 as a double, yet prints "0.30". This holds for amounts far below 1e21, where `toFixed` would switch to exponent notation, up to roughly 2e13 euros. Binary rounding beyond that is not modelled.
- `Candle` keeps only `id`, `name` and `price` of the candle record in `src/types/index.ts:4-11`. `imageUrl`, `dataAiHint` and `description` are display data that no cart or checkout operation reads.
- `JSON.parse` and `JSON.stringify`: the cart slot is the abstract outcome of the parse. A parsed value that is not a list of lines is not modelled, nor is the `console.error` logged on a parse failure (`src/context/cart-context.tsx:58`).
- `CartContext.CartStore.SaveEffect` writes `Parsed(items)`, taking `JSON.parse(JSON.stringify(items))` to give back the same lines. `CartContext.Reload` rests on that assumption.
- A `localStorage.getItem` or `setItem` that throws is not modelled. Lines 53, 63 and 73-74 of `src/context/cart-context.tsx` are outside the `try`, so an exception there escapes the effect and the provider fails to mount; that path is not modelled.
- An empty string in either slot is treated like nothing stored: both are falsy for the `if (localData)` and `if (localPackaging)` tests.
- The stored packaging string is taken as one of the three options. The source casts it without checking.
- React batching and re-render scheduling: each operation runs the save effect at once. Setting the packaging to its current value also saves, although React would skip the effect.
- The order summary's `useMemo` dependencies: `OrderSummaryForPopup` is recomputed from the current state.
- `CartDisplay.Checkout.ConfirmInstructions`: the toast is reduced to a recorded notice quoting the order id. Its title, seller address and duration are left out.
- `Date.now()` and the seller's e-mail address are parameters. The cost constants come from `src/config/constants`, which is not part of this model, so they are parameters too.
- `isColorLight` in `src/lib/utils.ts`: floating-point luminance for display.
- The rendering components, the product list with its paging, and the contact form with its validation and server action. The components change the cart only through the modelled operations: `addToCart` (`src/components/candle-card.tsx:59`), `updateQuantity` (`src/components/cart-item.tsx:53`) and `removeFromCart` (`src/components/cart-item.tsx:122`). They only ever pass whole quantities: the input goes through `parseInt` (`src/components/cart-item.tsx:104`), and the minus button, disabled at a quantity of 1 or less (`src/components/cart-item.tsx:97`), subtracts one. So `quantity: int` loses nothing they can produce.
- `Date.now()` returns the same value for two checkouts in the same millisecond, so two such checkouts get the same `MV-` id: a checkout's id identifies its clock reading, not the checkout. `OrderIdInjective` and `CancelThenConfirm` therefore speak of different clock readings, not of different calls.
- `CartItems.ItemCount`, `CartItems.Subtotal`: their own contracts state bounds only. Their meaning as sums is stated by `ItemCountAppend`, `SubtotalAppend` and `SumsAfterReplace`.
