# AS storefront — a verified model of its pricing, discount, catalogue and checkout logic

AS is a React storefront for an Algerian shop. It has an admin side
(products, orders, settings) and a client side (shop, cart, checkout).
This project models the logic behind the pages in Dafny and proves
properties about it:

- the store service (`StoreContext`): settings, the 48-wilaya delivery
  table, discount codes, validation of a typed code and the delivery price
  of a wilaya for a given weight;
- the product catalogue (`ProductContext`) and the pages that filter,
  sort, count and edit products (`ClientShop`, `Products`, `ProductCard`,
  `ProductModal`);
- the cart summary (`ClientCart`) and the checkout (`ClientCheckout`):
  total weight, shipping, discount, tax and rounded totals, plus the
  step-by-step session with its form, discount box and order placement;
- the settings page (`Settings`): adding, toggling and deleting discount
  codes, the tax rate, and the first ten rows of the delivery table;
- the orders page (`Orders`): filtering, revenue and status counts;
- the language service (`LanguageContext`) and the demo login (`AuthContext`).

Modules, one per source file, plus four shared ones:

| module | file | models |
|---|---|---|
| `Wrappers` | Wrappers.dfy | `Option` |
| `Lists` | Lists.dfy | `find`, `filter`, `map` over matching elements, `reduce` to a sum, `splice` of one element, and the stable `sort` (as an insertion sort by a numeric key) |
| `Text` | Text.dfy | `toLowerCase` / `toUpperCase` on ASCII letters, `trim`, `includes` |
| `Money` | Money.dfy | `Math.round` |
| `Store` | Store.dfy | `contexts/StoreContext.tsx` |
| `Catalog` | Catalog.dfy | `contexts/ProductContext.tsx` |
| `Shop` | Shop.dfy | `pages/Client/ClientShop.tsx` |
| `ProductCard` | ProductCard.dfy | `components/Products/ProductCard.tsx` |
| `ProductModal` | ProductModal.dfy | `components/Products/ProductModal.tsx` |
| `ProductsPage` | ProductsPage.dfy | `pages/Products.tsx` |
| `Cart` | Cart.dfy | `pages/Client/ClientCart.tsx` |
| `Checkout` | Checkout.dfy | `pages/Client/ClientCheckout.tsx` |
| `SettingsPage` | SettingsPage.dfy | `pages/Settings.tsx` |
| `Orders` | Orders.dfy | `pages/Orders.tsx` |
| `Language` | Language.dfy | `contexts/LanguageContext.tsx` |
| `Auth` | Auth.dfy | `contexts/AuthContext.tsx` |

State that the source updates in place is modelled as classes:

- `Store.StoreService`, `Catalog.ProductCatalog`, `Language.LanguageState` and `Auth.AuthSession` for the contexts;
- `Checkout.CheckoutSession`, `SettingsPage.SettingsPage`, `ProductsPage.ProductsPage`, `ProductModal.ProductFormState` and `Orders.OrdersPage` for the pages' `useState` hooks.

Each method states the whole new state. Values are datatypes.

Conventions:

- Money and weights are exact `real`s.
- `Math.round(x)` is `⌊x + 0.5⌋`.
- Wherever the code reads the clock, a random source or user input (`Date.now()`, `prompt`, `parseFloat`, `parseInt`, `toString`), the model takes the value as a parameter.
- Where the shop's documented behaviour and its code disagree, the model follows the code:
  - A fixed discount is not capped at the subtotal, so the total can drop below the shipping price (`Checkout.FixedDiscountCanExceedSubtotal`).
  - `addDiscountCode` appends the code without checking for a duplicate code or id.
  - The tax rate is whatever `parseFloat` returned. No bound is checked.
  - The step buttons set the step directly, without validating the form.
  - A code with an expiry date is valid only strictly before that instant.
  - Before a wilaya is chosen, checkout shipping is the literal 500, not the configured default shipping price.

## Model

Source paths are relative to the repository root. Every row names a member that carries an `ensures` clause.

| member | source | states |
|---|---|---|
| Lists.FindFirst | _public_html/as/project/src/contexts/StoreContext.tsx:189-194 | the index it returns holds the first element that passes the test; none means that no element passes |
| Lists.Find | _public_html/as/project/src/contexts/ProductContext.tsx:288 | `Array.find`: a found element is in the list and passes the test; none exactly when no element passes |
| Lists.FindIsFirst | _public_html/as/project/src/contexts/StoreContext.tsx:199 | `find` returns the element at the first passing index |
| Lists.Filter | _public_html/as/project/src/pages/Client/ClientShop.tsx:30-38 | `Array.filter`: never longer than the input; every kept element is from the input and passes the test |
| Lists.FilterMultiset | _public_html/as/project/src/pages/Client/ClientShop.tsx:30-38 | each passing element is kept as often as it occurs, and every failing one is dropped |
| Lists.FilterIsSubsequence | _public_html/as/project/src/pages/Client/ClientShop.tsx:30-38 | the filtered list keeps the input's order |
| Lists.FilterAppend | _public_html/as/project/src/pages/Orders.tsx:96-97 | filtering distributes over concatenation |
| Lists.FilterKeepsAll | _public_html/as/project/src/pages/Products.tsx:38-41 | filtering returns the whole list if and only if every element passes |
| Lists.FilterIdempotent | _public_html/as/project/src/pages/Client/ClientShop.tsx:30-38 | filtering twice with the same test equals filtering once |
| Lists.Count | _public_html/as/project/src/pages/Products.tsx:76 | `filter(p).length` is at most the list's length |
| Lists.CountAppendOne | _public_html/as/project/src/pages/Products.tsx:76 | the empty list counts zero; one more element adds one exactly when it passes the test |
| Lists.CountDisjoint | _public_html/as/project/src/pages/Products.tsx:85-94 | two tests that never both hold count at most the whole list together |
| Lists.MapWhere | _public_html/as/project/src/contexts/StoreContext.tsx:179-181 | `map(x => p(x) ? f(x) : x)`: same length; each element is transformed exactly when it passes the test, otherwise kept |
| Lists.SumOfAppend | _public_html/as/project/src/pages/Orders.tsx:94 | the sum of a concatenation is the sum of the sums |
| Lists.SumOf | _public_html/as/project/src/pages/Orders.tsx:94 | `reduce((sum, x) => sum + f(x), 0)`: zero for no elements, the one term for one element |
| Lists.SumOfNonNegative | _public_html/as/project/src/pages/Client/ClientCheckout.tsx:108 | a sum of non-negative terms is non-negative |
| Lists.SumOfPartition | _public_html/as/project/src/pages/Orders.tsx:94 | the sum over the passing elements plus the sum over the failing ones is the whole sum |
| Lists.RemoveAt | _public_html/as/project/src/components/Products/ProductModal.tsx:84-89 | `filter((_, i) => i !== index)`: drops exactly the element at a valid index; leaves the list unchanged for any other index |
| Lists.InsertByKey | _public_html/as/project/src/pages/Client/ClientShop.tsx:40-48 | insertion step of the sort: the result is the list plus the new element, as a multiset |
| Lists.InsertByKeySorted | _public_html/as/project/src/pages/Client/ClientShop.tsx:40-48 | inserting into a list sorted by key keeps it sorted |
| Lists.SortByKey | _public_html/as/project/src/pages/Client/ClientShop.tsx:40-48 | the sort returns a permutation of its input, ordered by key |
| Lists.InsertByKeyStable | _public_html/as/project/src/pages/Client/ClientShop.tsx:40-48 | the insertion step puts the new element after every element with the same key |
| Lists.SortByKeyStable | _public_html/as/project/src/pages/Client/ClientShop.tsx:40-48 | the sort is stable: for every key, elements with that key keep their original relative order |
| Lists.SortByConstantKeyIsIdentity | _public_html/as/project/src/pages/Client/ClientShop.tsx:46 | a comparator that calls every pair equal leaves the list as it is |
| Text.LowerChar | _public_html/as/project/src/pages/Client/ClientShop.tsx:31 | an upper-case ASCII letter becomes the lower-case letter 32 code points above it; every other character is kept |
| Text.UpperChar | _public_html/as/project/src/pages/Settings.tsx:35 | a lower-case ASCII letter becomes the upper-case letter 32 code points below it; every other character is kept |
| Text.Lower | _public_html/as/project/src/pages/Client/ClientShop.tsx:31 | `toLowerCase`: same length; lower-cases every character |
| Text.Upper | _public_html/as/project/src/pages/Settings.tsx:35 | `toUpperCase`: same length; upper-cases every character |
| Text.LowerOfUpper | _public_html/as/project/src/contexts/StoreContext.tsx:190 | upper-casing a code never changes how it compares case-insensitively |
| Text.TrimStart | _public_html/as/project/src/pages/Client/ClientCheckout.tsx:63 | drops exactly the leading white space: the result is a suffix, and what was dropped is all white space |
| Text.TrimEnd | _public_html/as/project/src/pages/Client/ClientCheckout.tsx:63 | drops exactly the trailing white space: the result is a prefix, and what was dropped is all white space |
| Text.Trim | _public_html/as/project/src/pages/Client/ClientCheckout.tsx:63-64 | `trim` returns a contiguous piece of the string, lying between the leading and the trailing white space, and neither of its ends is white space |
| Text.TrimEmptyIffAllSpace | _public_html/as/project/src/pages/Client/ClientCheckout.tsx:63 | `discountCode.trim()` is falsy if and only if the text is all white space |
| Text.TrimIsBothEnds | _public_html/as/project/src/pages/Client/ClientCheckout.tsx:63 | `trim` equals `trimStart` followed by `trimEnd` |
| Text.ContainsIffOccurs | _public_html/as/project/src/pages/Orders.tsx:87-89 | `includes` holds if and only if the needle occurs at some index |
| Text.Contains | _public_html/as/project/src/pages/Orders.tsx:87-89 | every string includes the empty needle, and a string includes only needles no longer than itself |
| Money.Round | _public_html/as/project/src/pages/Client/ClientCheckout.tsx:501 | `Math.round`: the integer within half a unit, halves going up |
| Money.RoundIsUnique | _public_html/as/project/src/pages/Client/ClientCheckout.tsx:501 | only one integer meets the rounding contract |
| Money.RoundMonotone | _public_html/as/project/src/pages/Client/ClientCart.tsx:127 | rounding preserves order |
| Money.RoundOfInteger | _public_html/as/project/src/contexts/StoreContext.tsx:205 | rounding an integer gives it back |
| Store.UpdateTaxRateOnly | _public_html/as/project/src/contexts/StoreContext.tsx:166-168 | an update carrying only the tax rate sets it and leaves every other setting unchanged |
| Store.MergeSettings | _public_html/as/project/src/contexts/StoreContext.tsx:166-168 | `{ ...prev, ...newSettings }`: each setting carried by the update replaces the old one, every other setting is kept |
| Store.MergeNoChange | _public_html/as/project/src/contexts/StoreContext.tsx:166-168 | an empty update leaves the settings unchanged |
| Store.MergeSettingsIdempotent | _public_html/as/project/src/contexts/StoreContext.tsx:166-168 | applying the same update twice equals applying it once |
| Store.MergeSettingsCompose | _public_html/as/project/src/contexts/StoreContext.tsx:166-168 | two successive updates act as one combined update, the later fields winning |
| Store.UpdateCodes | _public_html/as/project/src/contexts/StoreContext.tsx:178-182 | same length; exactly the codes with the id are merged with the update, every other code is unchanged |
| Store.MergeCode | _public_html/as/project/src/contexts/StoreContext.tsx:180 | `{ ...code, ...updates }`: each field carried by the update replaces the old one, every other field is kept |
| Store.DeleteCodes | _public_html/as/project/src/contexts/StoreContext.tsx:184-186 | every remaining code was in the list and has another id |
| Store.DeleteKeepsOthers | _public_html/as/project/src/contexts/StoreContext.tsx:184-186 | deletion keeps every code with another id as often as it occurred, removes every code with the id, and keeps the order |
| Store.UpdateAbsentIdIsIdentity | _public_html/as/project/src/contexts/StoreContext.tsx:178-182 | updating an id that no code has changes nothing |
| Store.DeleteAfterUpdate | _public_html/as/project/src/contexts/StoreContext.tsx:178-186 | when the update does not change ids, deleting after updating equals deleting alone |
| Store.AddThenDelete | _public_html/as/project/src/contexts/StoreContext.tsx:174-186 | adding a code with a fresh id and then deleting that id restores the list |
| Store.DeleteCodesIdempotent | _public_html/as/project/src/contexts/StoreContext.tsx:184-186 | deleting the same id twice equals deleting it once |
| Store.ValidateDiscountCode | _public_html/as/project/src/contexts/StoreContext.tsx:188-196 | a returned code is in the list and is eligible: same code ignoring case, active, minimum met, not expired. None is returned if and only if no code is eligible |
| Store.ValidateReturnsFirstMatch | _public_html/as/project/src/contexts/StoreContext.tsx:188-196 | the first eligible code in list order is the one returned |
| Store.InactiveNeverValidates | _public_html/as/project/src/contexts/StoreContext.tsx:191 | a typed code whose every matching entry is inactive never validates |
| Store.Welcome10Example | _public_html/as/project/src/contexts/StoreContext.tsx:111-119 | WELCOME10 is refused for a 4000 DA order (minimum 5000) and accepted for 6000 DA when typed in lower case |
| Store.FindDeliveryPrice | _public_html/as/project/src/contexts/StoreContext.tsx:199 | a found row is in the table and is for the wilaya; none exactly when no row is |
| Store.WeightedPrice | _public_html/as/project/src/contexts/StoreContext.tsx:204-206 | `Math.round(base * (weight * multiplier))`: an integer within half a dinar of the exact product |
| Store.EntryPrice | _public_html/as/project/src/contexts/StoreContext.tsx:202-208 | the row's home or stop-desk price; when weight-based shipping is on and the row has a non-zero multiplier, instead the whole number within half a dinar of that price × (weight × multiplier) |
| Store.CalculateDeliveryPrice | _public_html/as/project/src/contexts/StoreContext.tsx:198-209 | a wilaya without a row costs the default shipping price; otherwise the first matching row's price for the delivery type, weighted when weight-based shipping is on and the row has a multiplier; an absent weight counts as 1 |
| Store.PriceIgnoresWeightWhenDisabled | _public_html/as/project/src/contexts/StoreContext.tsx:204-208 | with weight-based shipping off, the weight never changes the price |
| Store.WeightedPriceMonotone | _public_html/as/project/src/contexts/StoreContext.tsx:205 | for a non-negative base and multiplier, a heavier parcel never costs less |
| Store.EntryPriceMonotone | _public_html/as/project/src/contexts/StoreContext.tsx:202-208 | for one row with non-negative prices, a heavier parcel never costs less |
| Store.PriceMonotoneInWeight | _public_html/as/project/src/contexts/StoreContext.tsx:198-209 | for a table with non-negative prices and multipliers, the delivery price never decreases with weight |
| Store.AlgerHomeExample | _public_html/as/project/src/contexts/StoreContext.tsx:64 | Alger, home delivery, 1 kg, default settings: round(750 × 0.7) = 525 |
| Store.AlgerRow | _public_html/as/project/src/contexts/StoreContext.tsx:49-64 | Alger is the 16th row of the built-in table and no earlier row is Alger |
| Store.NoRowForAppend | _public_html/as/project/src/contexts/StoreContext.tsx:48-97 | a wilaya absent from two parts of the table is absent from both together |
| Store.MissingFromTable | _public_html/as/project/src/contexts/StoreContext.tsx:199-200 | a wilaya absent from every part of the built-in table has no row there and costs the default shipping price |
| Store.GroupLacksMSila | _public_html/as/project/src/contexts/StoreContext.tsx:48-97 | no row of the built-in table is named `MSila` |
| Store.GroupLacksAccentedBordj | _public_html/as/project/src/contexts/StoreContext.tsx:48-97 | no row of the built-in table is named `Bordj Bou Arréridj` |
| Store.VariantSpellingsMissing | _public_html/as/project/src/contexts/StoreContext.tsx:198-200 | with the built-in table, `MSila` and `Bordj Bou Arréridj` cost the default shipping price |
| Store.MSilaRow | _public_html/as/project/src/contexts/StoreContext.tsx:76 | the table has 48 rows; the 28th is M'Sila (900 / 350 / 1.0), and no earlier row has that name |
| Store.BordjRow | _public_html/as/project/src/contexts/StoreContext.tsx:82 | the table has 48 rows, and the 34th is Bordj Bou Arreridj (850 / 400 / 1.0) |
| Store.StoreService.constructor | _public_html/as/project/src/contexts/StoreContext.tsx:139-152 | each of the three stores starts from its saved value, or from the built-in default when nothing was saved |
| Store.StoreService.UpdateSettings | _public_html/as/project/src/contexts/StoreContext.tsx:166-168 | the new settings are the old ones merged with the update; the price table and the codes are unchanged |
| Store.StoreService.UpdateDeliveryPrices | _public_html/as/project/src/contexts/StoreContext.tsx:170-172 | the price table is replaced; settings and codes are unchanged |
| Store.StoreService.AddDiscountCode | _public_html/as/project/src/contexts/StoreContext.tsx:174-176 | the code is appended at the end with no duplicate check; the rest is unchanged |
| Store.StoreService.UpdateDiscountCode | _public_html/as/project/src/contexts/StoreContext.tsx:178-182 | the code list becomes `UpdateCodes` of the old one; the rest is unchanged |
| Store.StoreService.DeleteDiscountCode | _public_html/as/project/src/contexts/StoreContext.tsx:184-186 | the code list becomes `DeleteCodes` of the old one; the rest is unchanged |
| Catalog.NewProduct | _public_html/as/project/src/contexts/ProductContext.tsx:254-264 | the new product has the given id, is active, and is in stock exactly when its stock is positive. A missing rating becomes 4.5 and missing reviews 0; every other field comes from the data |
| Catalog.UpdatedProduct | _public_html/as/project/src/contexts/ProductContext.tsx:267-279 | every field comes from the update where it has one and from the product otherwise, except that the in-stock flag is recomputed and always agrees with the stock |
| Catalog.MergeProduct | _public_html/as/project/src/contexts/ProductContext.tsx:271-275 | `{ ...product, ...productData }`: each field carried by the patch replaces the old one, every other field is kept |
| Catalog.UpdateProducts | _public_html/as/project/src/contexts/ProductContext.tsx:267-279 | same length; exactly the products with the id are updated |
| Catalog.DeleteProducts | _public_html/as/project/src/contexts/ProductContext.tsx:282-284 | every remaining product was in the list and has another id |
| Catalog.DeleteKeepsOtherProducts | _public_html/as/project/src/contexts/ProductContext.tsx:282-284 | deletion keeps every product with another id as often as it occurred, in order |
| Catalog.FindProduct | _public_html/as/project/src/contexts/ProductContext.tsx:287-289 | a found product has the id; none exactly when no product has it |
| Catalog.FindProductReturnsFirst | _public_html/as/project/src/contexts/ProductContext.tsx:288 | the first product with the id is the one found |
| Catalog.AddedProductIsFound | _public_html/as/project/src/contexts/ProductContext.tsx:254-289 | a product added under a fresh id is then found by that id |
| Catalog.DeletedProductIsGone | _public_html/as/project/src/contexts/ProductContext.tsx:282-289 | after deletion the id is no longer found |
| Catalog.OperationsKeepStockConsistent | _public_html/as/project/src/contexts/ProductContext.tsx:254-284 | adding, updating and deleting keep every product's in-stock flag equal to `stock > 0` |
| Catalog.ProductCatalog.constructor | _public_html/as/project/src/contexts/ProductContext.tsx:234-242 | the list starts from the saved products, or from the initial list |
| Catalog.ProductCatalog.AddProduct | _public_html/as/project/src/contexts/ProductContext.tsx:254-264 | the new product is appended at the end |
| Catalog.ProductCatalog.UpdateProduct | _public_html/as/project/src/contexts/ProductContext.tsx:267-279 | the list becomes `UpdateProducts` of the old one |
| Catalog.ProductCatalog.DeleteProduct | _public_html/as/project/src/contexts/ProductContext.tsx:282-284 | the list becomes `DeleteProducts` of the old one |
| Shop.FilteredProducts | _public_html/as/project/src/pages/Client/ClientShop.tsx:30-38 | every product shown is in the catalogue and matches the search, the category and the new / sale / featured filter |
| Shop.FilteredKeepsOrder | _public_html/as/project/src/pages/Client/ClientShop.tsx:30-38 | the shop keeps catalogue order and shows every matching product, each as often as it occurs |
| Shop.EmptySearchListsEverything | _public_html/as/project/src/pages/Client/ClientShop.tsx:31-37 | with an empty search and both filters on "all", every product is shown |
| Shop.SortedProducts | _public_html/as/project/src/pages/Client/ClientShop.tsx:40-48 | the sorted list is a permutation of the filtered one, ordered by price ascending, price descending or rating descending |
| Shop.SortIsStable | _public_html/as/project/src/pages/Client/ClientShop.tsx:40-48 | products the comparator calls equal keep their relative order |
| Shop.DefaultSortKeepsOrder | _public_html/as/project/src/pages/Client/ClientShop.tsx:46 | an unknown sort value leaves the filtered order unchanged |
| ProductCard.StatusColor | _public_html/as/project/src/components/Products/ProductCard.tsx:11-15 | red if and only if stock is 0; yellow if and only if stock is non-zero and below 10; green if and only if stock is at least 10 |
| ProductCard.StatusText | _public_html/as/project/src/components/Products/ProductCard.tsx:17-21 | "Out of Stock", "Low Stock" and "In Stock" under the same three conditions |
| ProductCard.ColorAgreesWithText | _public_html/as/project/src/components/Products/ProductCard.tsx:11-21 | the badge colour always agrees with the badge text |
| ProductCard.StatusIgnoresStatusString | _public_html/as/project/src/components/Products/ProductCard.tsx:11-21 | the status argument never affects the badge |
| ProductCard.BadgeLabel | _public_html/as/project/src/components/Products/ProductCard.tsx:35-44 | the stock alert shows if and only if stock is below 10, and says "Out of Stock" exactly at 0 |
| ProductCard.BadgeMatchesStatusText | _public_html/as/project/src/components/Products/ProductCard.tsx:17-44 | a shown stock alert says the same as the status text |
| ProductCard.BarColorAgreesWithStatus | _public_html/as/project/src/components/Products/ProductCard.tsx:99-100 | the stock bar's colour agrees with the status badge in all three cases |
| ProductCard.StockBarWidth | _public_html/as/project/src/components/Products/ProductCard.tsx:102 | the bar's width is at most 100 %, full exactly from 100 units, equal to the stock below that, and never negative for a non-negative stock |
| ProductCard.StockBarMonotone | _public_html/as/project/src/components/Products/ProductCard.tsx:102 | more stock never gives a shorter bar |
| ProductModal.FormFor | _public_html/as/project/src/components/Products/ProductModal.tsx:24-46 | an empty form with no product; otherwise the product's fields, with missing description and images as empty |
| ProductModal.Submit | _public_html/as/project/src/components/Products/ProductModal.tsx:48-61 | an empty main image is replaced by the default picture and an empty gallery by the three default pictures, so both are non-empty; every other field is passed on |
| ProductModal.SubmitKeepsLoadedImages | _public_html/as/project/src/components/Products/ProductModal.tsx:24-61 | re-submitting a product that has images keeps them |
| ProductModal.ProductFormState.constructor | _public_html/as/project/src/components/Products/ProductModal.tsx:14-46 | the form starts empty, as the effect leaves it for no product |
| ProductModal.ProductFormState.ReceiveProduct | _public_html/as/project/src/components/Products/ProductModal.tsx:24-46 | the effect reloads the form with `FormFor` the product only when the product differs from the one last loaded; otherwise the form, unsaved typing included, is kept |
| ProductModal.ProductFormState.EditField | _public_html/as/project/src/components/Products/ProductModal.tsx:194-262 | typing into a field changes that field only |
| ProductModal.ProductFormState.ClearImage | _public_html/as/project/src/components/Products/ProductModal.tsx:121 | the main image is cleared; nothing else changes |
| ProductModal.ProductFormState.ImageLoaded | _public_html/as/project/src/components/Products/ProductModal.tsx:63-72 | the loaded picture becomes the main image of the form as it was when the file was chosen, so typing done while the file was read is dropped |
| ProductModal.ProductFormState.AddImageUrl | _public_html/as/project/src/components/Products/ProductModal.tsx:74-82 | a non-empty answer is appended to the gallery; a cancelled or empty answer changes nothing |
| ProductModal.ProductFormState.RemoveImage | _public_html/as/project/src/components/Products/ProductModal.tsx:84-89 | the gallery loses the picture at that index; nothing else changes |
| ProductModal.AddThenRemoveImage | _public_html/as/project/src/components/Products/ProductModal.tsx:74-89 | removing the picture just added restores the gallery |
| ProductModal.RemoveImageKeepsOthers | _public_html/as/project/src/components/Products/ProductModal.tsx:84-89 | removal shortens the gallery by one and shifts the later pictures down, keeping the earlier ones |
| ProductsPage.AdminFilteredProducts | _public_html/as/project/src/pages/Products.tsx:38-41 | every listed product is in the catalogue and has the term in its name or category, ignoring case |
| ProductsPage.AdminFilterKeepsOrder | _public_html/as/project/src/pages/Products.tsx:38-41 | the list keeps catalogue order and shows every matching product |
| ProductsPage.EmptyTermListsAll | _public_html/as/project/src/pages/Products.tsx:38-41 | an empty search lists the whole catalogue |
| ProductsPage.ProductStats | _public_html/as/project/src/pages/Products.tsx:67-94 | total is the number of products; active, out-of-stock and low-stock are the numbers of products passing each test; each is at most the total, and out-of-stock plus low-stock never exceeds it |
| ProductsPage.StatsOfAppend | _public_html/as/project/src/pages/Products.tsx:67-94 | no products give four zero counts; one more product adds one to the total and one to each count whose test it passes |
| ProductsPage.CardAgreesWithStats | _public_html/as/project/src/pages/Products.tsx:85-94 | for a non-negative stock, a card reads "Out of Stock" / "Low Stock" exactly when the page counts the product as such |
| ProductsPage.NegativeStockUncounted | _public_html/as/project/src/pages/Products.tsx:85-94 | a negative stock reads "Low Stock" on the card but is counted neither as out of stock nor as low stock |
| ProductsPage.EditKeepsUnsubmittedFields | _public_html/as/project/src/pages/Products.tsx:29-32 | saving an edit changes only the submitted fields and the in-stock flag; id, status, rating, reviews and the flags are kept |
| ProductsPage.AddFromDialog | _public_html/as/project/src/pages/Products.tsx:29-34 | a product added from the dialog is active, rated 4.5 with 0 reviews, and in stock exactly when its stock is positive |
| ProductsPage.ProductsPage.constructor | _public_html/as/project/src/pages/Products.tsx:10-11 | the dialog starts closed with nothing being edited, its form empty |
| ProductsPage.ProductsPage.HandleAddProduct | _public_html/as/project/src/pages/Products.tsx:15-18 | opens the dialog for a new product; the form is emptied only when a product was being edited before, otherwise it keeps what was typed last time |
| ProductsPage.ProductsPage.HandleEditProduct | _public_html/as/project/src/pages/Products.tsx:20-23 | opens the dialog on the chosen product; the form is loaded from it unless it is the product already loaded, whose unsaved edits stay |
| ProductsPage.ProductsPage.CloseModal | _public_html/as/project/src/pages/Products.tsx:211 | closes the dialog and keeps the edited product |
| ProductsPage.ProductsPage.HandleDeleteProduct | _public_html/as/project/src/pages/Products.tsx:25-27 | the catalogue loses the products with the id |
| ProductsPage.ProductsPage.HandleSaveProduct | _public_html/as/project/src/pages/Products.tsx:29-36 | saving updates the edited product, or appends a new one with the clock's id; the dialog closes |
| Cart.Summary | _public_html/as/project/src/pages/Client/ClientCart.tsx:119-132 | shipping is a flat 800; tax is the subtotal's 19 % rounded; total is subtotal + 800 + that rounded tax |
| Cart.CartView | _public_html/as/project/src/pages/Client/ClientCart.tsx:12-29 | the empty-cart page shows exactly when the cart is empty; otherwise a summary of the subtotal |
| Cart.CartTotalNearExact | _public_html/as/project/src/pages/Client/ClientCart.tsx:127-132 | the cart total is within half a dinar of subtotal × 1.19 + 800 |
| Cart.CartTotalMonotone | _public_html/as/project/src/pages/Client/ClientCart.tsx:127-132 | a larger subtotal never gives a smaller tax or total |
| Cart.CartTotalWholeDinars | _public_html/as/project/src/pages/Client/ClientCart.tsx:132 | with a whole-dinar subtotal, the total is a whole number |
| Cart.CartSummaryExample | _public_html/as/project/src/pages/Client/ClientCart.tsx:119-132 | a 1000 DA cart shows 190 DA tax and a 1990 DA total |
| Cart.MinusRequest | _public_html/as/project/src/pages/Client/ClientCart.tsx:69 | the minus button asks for the same item at one less than its quantity |
| Cart.PlusRequest | _public_html/as/project/src/pages/Client/ClientCart.tsx:76 | the plus button asks for the same item at one more than its quantity |
| Cart.TrashRequest | _public_html/as/project/src/pages/Client/ClientCart.tsx:88 | the bin button asks to remove that item |
| Cart.PlusThenMinusRestores | _public_html/as/project/src/pages/Client/ClientCart.tsx:69-76 | plus followed by minus, or minus followed by plus, asks for the original quantity |
| Checkout.TotalWeightAppend | _public_html/as/project/src/pages/Client/ClientCheckout.tsx:108 | the weight of two carts together is the sum of their weights |
| Checkout.TotalWeight | _public_html/as/project/src/pages/Client/ClientCheckout.tsx:108 | an empty cart weighs nothing; a single line weighs its weight, or 0.5 kg when the weight is missing or zero, times its quantity |
| Checkout.Shipping | _public_html/as/project/src/pages/Client/ClientCheckout.tsx:109 | before a wilaya is chosen shipping is 500 whatever the configured default; a chosen wilaya is priced by the delivery table at the cart weight, and one without a row ships at the configured default |
| Checkout.DiscountAmount | _public_html/as/project/src/pages/Client/ClientCheckout.tsx:110-111 | no code takes off nothing; a fixed code takes off its value; a percentage code takes off that share of the subtotal, which for at most 100 % is between nothing and the whole subtotal |
| Checkout.PriceOrder | _public_html/as/project/src/pages/Client/ClientCheckout.tsx:107-114 | the quote carries the subtotal, the shipping and the discount; discounted subtotal = subtotal − discount; total = (subtotal − discount) × (1 + rate / 100) + shipping = discounted subtotal + shipping + tax |
| Checkout.TotalWeightOfUnweighted | _public_html/as/project/src/pages/Client/ClientCheckout.tsx:108 | items without a weight weigh half a kilogram each |
| Checkout.DropDownSpellings | _public_html/as/project/src/pages/Client/ClientCheckout.tsx:41-49 | the drop-down has 48 options; the 28th is `MSila` and the 34th `Bordj Bou Arréridj` |
| Checkout.DropDownOptionsWithoutRow | _public_html/as/project/src/pages/Client/ClientCheckout.tsx:41-49 | the drop-down's `MSila` and `Bordj Bou Arréridj` differ from the table's `M'Sila` and `Bordj Bou Arreridj`, and both ship at the default price |
| Checkout.StateOptions | _public_html/as/project/src/pages/Client/ClientCheckout.tsx:237-239 | the drop-down options read from the table: one per row, with that row's name |
| Checkout.EveryOptionHasARow | _public_html/as/project/src/pages/Client/ClientCheckout.tsx:109 | with options read from the table, every option finds a row and ships at that row's price |
| Checkout.MSilaShipsAtItsRow | _public_html/as/project/src/contexts/StoreContext.tsx:76 | read from the table, the 28th option is M'Sila, and a 1 kg home delivery there costs 900 |
| Checkout.DisplayTax | _public_html/as/project/src/pages/Client/ClientCheckout.tsx:501 | the tax shown is within half a dinar of the exact tax |
| Checkout.DisplayTotal | _public_html/as/project/src/pages/Client/ClientCheckout.tsx:506 | the total shown is within half a dinar of the exact total |
| Checkout.TaxIgnoresShipping | _public_html/as/project/src/pages/Client/ClientCheckout.tsx:109-114 | the tax does not depend on the wilaya or the delivery type, and two quotes' totals differ by exactly their shipping |
| Checkout.DisplayedLinesAddUp | _public_html/as/project/src/pages/Client/ClientCheckout.tsx:501-506 | when discounted subtotal plus shipping is a whole number, the rounded total is that number plus the rounded tax |
| Checkout.AlgerOrderExample | _public_html/as/project/src/pages/Client/ClientCheckout.tsx:107-114 | a 2000 DA, 1 kg order to Alger by home delivery: shipping 525, tax 380, total 2905 |
| Checkout.FixedDiscountCanExceedSubtotal | _public_html/as/project/src/pages/Client/ClientCheckout.tsx:110-114 | a 500 DA fixed code without a minimum, added on the settings page, is accepted on a 300 DA cart; it makes the discounted subtotal −200 and the tax negative, for a total of 262 |
| Checkout.ShownButtonsMoveToNeighbour | _public_html/as/project/src/pages/Client/ClientCheckout.tsx:284-411 | every step button the page shows moves to an adjacent step within 1..3 |
| Checkout.DiscountControlsExclusive | _public_html/as/project/src/pages/Client/ClientCheckout.tsx:446-480 | the apply and remove controls are never shown together; with discount codes enabled exactly one is shown, with them disabled neither |
| Checkout.InitialForm | _public_html/as/project/src/pages/Client/ClientCheckout.tsx:23-39 | the form has exactly the twelve named fields, all empty |
| Checkout.CheckoutSession.constructor | _public_html/as/project/src/pages/Client/ClientCheckout.tsx:14-39 | the session starts at step 1 with an empty form, no wilaya, home delivery, and no discount |
| Checkout.CheckoutSession.CurrentView | _public_html/as/project/src/pages/Client/ClientCheckout.tsx:89-105 | the confirmation shows if and only if the order was placed; otherwise the form at the current step |
| Checkout.CheckoutSession.HandleInputChange | _public_html/as/project/src/pages/Client/ClientCheckout.tsx:51-60 | the field takes the value; the wilaya follows the `state` field; nothing else changes |
| Checkout.CheckoutSession.SetDeliveryType | _public_html/as/project/src/pages/Client/ClientCheckout.tsx:255-271 | sets the delivery type only |
| Checkout.CheckoutSession.SetDiscountCode | _public_html/as/project/src/pages/Client/ClientCheckout.tsx:455 | sets the typed code only |
| Checkout.CheckoutSession.ApplyDiscount | _public_html/as/project/src/pages/Client/ClientCheckout.tsx:62-71 | blank text changes nothing. Otherwise the first eligible code for the trimmed text is applied, and a failed lookup keeps the previous discount. A changed discount is always an active code from the list. Starting with no code applied, as the page requires to show the button, the result is no discount or the validated code |
| Checkout.CheckoutSession.RemoveDiscount | _public_html/as/project/src/pages/Client/ClientCheckout.tsx:73-76 | clears both the applied discount and the typed code |
| Checkout.CheckoutSession.PressStepButton | _public_html/as/project/src/pages/Client/ClientCheckout.tsx:284-411 | a step button sets the step to its target without checking the form |
| Checkout.CheckoutSession.PlaceOrder | _public_html/as/project/src/pages/Client/ClientCheckout.tsx:78-87 | placing the order shows the confirmation and keeps the rest of the session |
| SettingsPage.BuildDiscountCode | _public_html/as/project/src/pages/Settings.tsx:31-44 | the new code is the typed one upper-cased and equal ignoring case. It is active with no expiry; a minimum of 0 becomes "no minimum" |
| SettingsPage.AddedCodeValidates | _public_html/as/project/src/pages/Settings.tsx:31-44 | a code added here then validates for any order that meets its minimum, when no earlier code does |
| SettingsPage.ToggleFlipsOnlyThatCode | _public_html/as/project/src/pages/Settings.tsx:311 | with unique ids, the toggle flips that code's active flag and changes no other code |
| SettingsPage.ToggleTwiceRestores | _public_html/as/project/src/pages/Settings.tsx:311 | toggling the same code twice restores the list |
| SettingsPage.VisibleDeliveryRows | _public_html/as/project/src/pages/Settings.tsx:204 | `slice(0, 10)`: a prefix of the table, of ten rows when the table has that many, otherwise the whole table |
| SettingsPage.DefaultTableShowsTen | _public_html/as/project/src/pages/Settings.tsx:204 | of the built-in table's 48 rows, the page shows 10, starting with Adrar |
| SettingsPage.SettingsPage.constructor | _public_html/as/project/src/pages/Settings.tsx:19-25 | the add panel starts closed with an empty form |
| SettingsPage.SettingsPage.OpenAddPanel | _public_html/as/project/src/pages/Settings.tsx:231 | opens the add panel, keeping the form |
| SettingsPage.SettingsPage.CancelAddPanel | _public_html/as/project/src/pages/Settings.tsx:280-285 | "Annuler" closes the add panel and keeps the form as typed |
| SettingsPage.SettingsPage.EditForm | _public_html/as/project/src/pages/Settings.tsx:247-269 | replaces the form, keeping the panel state |
| SettingsPage.SettingsPage.HandleAddDiscount | _public_html/as/project/src/pages/Settings.tsx:31-44 | a form with a code and a positive value appends the built code, empties the form and closes the panel; any other form changes nothing |
| SettingsPage.SettingsPage.ToggleDiscount | _public_html/as/project/src/pages/Settings.tsx:311 | the code list becomes the old one with that code's active flag flipped |
| SettingsPage.SettingsPage.DeleteDiscount | _public_html/as/project/src/pages/Settings.tsx:321 | the code list loses every code with that id |
| SettingsPage.SettingsPage.SetTaxRate | _public_html/as/project/src/pages/Settings.tsx:135 | the tax rate becomes the parsed value; nothing else changes |
| Orders.FilteredOrders | _public_html/as/project/src/pages/Orders.tsx:86-92 | every order listed is in the list, matches the search in customer, id or e-mail, and has the chosen status |
| Orders.FilteredOrdersKeepOrder | _public_html/as/project/src/pages/Orders.tsx:86-92 | the list keeps its order and shows every matching order |
| Orders.UnfilteredListsAll | _public_html/as/project/src/pages/Orders.tsx:86-92 | an empty search with status "all" lists every order |
| Orders.Counts | _public_html/as/project/src/pages/Orders.tsx:95-97 | total is the number of orders; pending counts the pending or processing orders and delivered the delivered ones; pending plus delivered never exceeds the total |
| Orders.CountsOfAppend | _public_html/as/project/src/pages/Orders.tsx:95-97 | no orders give zero counts; one more order adds one to the total and one to the pending or delivered count it falls under |
| Orders.RevenueSplitsByStatus | _public_html/as/project/src/pages/Orders.tsx:94 | revenue is the revenue of the orders with a status plus that of the others |
| Orders.RevenueNonNegative | _public_html/as/project/src/pages/Orders.tsx:94 | revenue from non-negative totals is non-negative |
| Orders.RevenueOfAppend | _public_html/as/project/src/pages/Orders.tsx:94 | one more order adds its total to the revenue |
| Orders.TotalRevenue | _public_html/as/project/src/pages/Orders.tsx:94 | no orders give no revenue; a single order gives its total |
| Orders.OrdersPage.constructor | _public_html/as/project/src/pages/Orders.tsx:62 | no order is selected at first |
| Orders.OrdersPage.Select | _public_html/as/project/src/pages/Orders.tsx:241 | selecting an order opens its details |
| Orders.OrdersPage.Close | _public_html/as/project/src/pages/Orders.tsx:268 | closing clears the selection |
| Language.Translate | _public_html/as/project/src/contexts/LanguageContext.tsx:458-460 | the current language's non-empty text, else the English one, else the key |
| Language.TranslateNeverEmpty | _public_html/as/project/src/contexts/LanguageContext.tsx:458-460 | a non-empty key never translates to an empty text |
| Language.UnknownLanguageFallsBackToEnglish | _public_html/as/project/src/contexts/LanguageContext.tsx:458-460 | a language missing from the table translates as English |
| Language.TranslateComesFromTable | _public_html/as/project/src/contexts/LanguageContext.tsx:458-460 | every translation is the key or a text from the table |
| Language.InitialLanguage | _public_html/as/project/src/contexts/LanguageContext.tsx:447-450 | the saved non-empty language, otherwise French |
| Language.Dir | _public_html/as/project/src/contexts/LanguageContext.tsx:455-462 | the direction is "rtl" exactly when `isRTL` holds, and "ltr" otherwise |
| Language.LanguageState.constructor | _public_html/as/project/src/contexts/LanguageContext.tsx:447-450 | the service starts in `InitialLanguage` of the saved value |
| Language.LanguageState.SetLanguage | _public_html/as/project/src/contexts/LanguageContext.tsx:447 | switching sets the language |
| Auth.AuthSession.constructor | _public_html/as/project/src/contexts/AuthContext.tsx:13-14 | the session starts signed out, keeping the stored token |
| Auth.AuthSession.RestoreSession | _public_html/as/project/src/contexts/AuthContext.tsx:16-22 | a non-empty stored token signs the administrator in; no token changes nothing |
| Auth.AuthSession.Login | _public_html/as/project/src/contexts/AuthContext.tsx:24-33 | succeeds if and only if the demo credentials match exactly. Success signs in with the typed e-mail and stores the demo token; failure changes nothing |
| Auth.AuthSession.Logout | _public_html/as/project/src/contexts/AuthContext.tsx:35-39 | signs out and forgets the token |
| Auth.LoginSurvivesReload | _public_html/as/project/src/contexts/AuthContext.tsx:16-33 | after a successful login and a reload, the administrator is still signed in |
| Auth.LogoutSurvivesReload | _public_html/as/project/src/contexts/AuthContext.tsx:16-39 | after a logout and a reload, nobody is signed in |

## Left out

- Persistence: saved values (settings, delivery table, discount codes, products, language, session token) enter as constructor parameters. Writing them back to `localStorage` as JSON is not modelled.
- Effects outside the state: in `handlePlaceOrder`, the 2-second timer and what it then runs (`clearCart` and the navigation to `/shop/orders`) are not modelled. Only `orderPlaced` is set. The order itself is not recorded anywhere.
- Input parsing (`parseFloat`, `parseInt`, `toString`, `Date.now`): each result is a parameter. `NaN` cannot be represented in `real`, so a tax rate or price that failed to parse is not modelled.
- Shop.SortedProducts: the `name` sort uses `localeCompare`, whose collation is not modelled, so that sort value is excluded. The `rating` sort requires every product to carry a rating, because a missing rating makes the comparator return `NaN`.
- Text.Lower: `toLowerCase` and `toUpperCase` are modelled on ASCII letters only. Accented and non-Latin letters are left unchanged.
- The sample data: the initial product list in `ProductContext` and the mock orders in `Orders` are not modelled (they are parameters). The built-in settings, delivery table and discount codes are modelled.
- The cart itself (`CartContext`) is not part of this model. `getTotalPrice()` is the subtotal parameter, and the quantity and removal buttons are modelled as the requests they send.
- Rendering: JSX markup, CSS classes other than the status colours, and the images shown are not modelled. The closed product dialog renders nothing, which the model does not capture because it has no view of the dialog.
- Translation table: its contents are a parameter; `t`'s fallback chain is modelled.
- Expiry dates: the source compares `new Date(expiryDate)` with `new Date()`. The model takes both as integer instants.
- Image upload: `FileReader` is asynchronous. Its result enters as `ProductModal.ProductFormState.ImageLoaded`, together with the form captured when the file was chosen.
- ProductModal.ProductFormState.ReceiveProduct: compares the product by value, while React compares the `product` prop by reference. A newly built product object equal to the one last loaded reloads the form in the source but not in the model. The page passes the product it holds, so `ProductsPage.ProductsPage` reloads exactly when `editingProduct` changes value.
- Checkout.CheckoutSession.ApplyDiscount: may be called in any state. The page renders the apply button only when `Checkout.ApplyShown` holds (discount codes enabled and no code applied, ClientCheckout.tsx:446-459), and the remove button only under `Checkout.RemoveShown`. The methods do not require these, so the branch where an applied code is replaced is not reachable from the page.
- Browser dialogs: the `prompt` answer in `addImageUrl` is a parameter (`None` when cancelled). The `alert` after a failed discount lookup is not modelled.
- Form validation: the HTML `required` attributes on the checkout and product forms are not modelled. The model allows every submission the handlers allow.
- Sizes and colours: product size and colour choices on the shop page are not modelled.
- View modes and search boxes: the grid/list toggle and the text of the search boxes are not modelled. The search text is a parameter of each filter.

## Findings

| source | as written | input that shows it | evidently intended | confidence | as-written member | corrected member |
|---|---|---|---|---|---|---|
| _public_html/as/project/src/pages/Client/ClientCheckout.tsx:45-46 | the wilaya drop-down is its own list of 48 names and spells two of them `MSila` and `Bordj Bou Arréridj`, while the delivery table has `M'Sila` and `Bordj Bou Arreridj` (_public_html/as/project/src/contexts/StoreContext.tsx:76, 82); the lookup is exact, so those two wilayas find no row and ship at the default price | choose `MSila`, home delivery, one 1 kg item: shipping is 500 instead of the table's 900 | every option of the drop-down names a row of the delivery table | not executed | Checkout.DropDownOptionsWithoutRow | Checkout.StateOptions, Checkout.EveryOptionHasARow |
