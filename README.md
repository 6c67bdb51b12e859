# Diff POS — a Dafny model of the cart, checkout and listing rules

This project models the rules at the heart of the Diff point-of-sale web
application:

- the cart store: merge-or-append on add, keyed by (product, size, color);
  remove by id; a guarded quantity update; clear;
- the price breakdown derived from the cart: subtotal, percent discount,
  taxable amount, tax at 7.5 % by default, total, and the item count;
- the checkout panel: the discount dialog, the checkout button, the
  payment dialog with cash change, and the per-line quantity stepper;
- the product catalog and its lookups by category, id, barcode and search
  text;
- the register screen: search, then category, then barcode scan;
- the product tile with its size/color choice and quantity stepper;
- the sign-in session and its role flags;
- the role-gated navigation;
- the role-scoped sales history with its summary sums and CSV lines.

Each source file is one module:

| module | file | form |
|---|---|---|
| `CartContext` | `cart_context.dfy` | pure list and pricing functions plus the `CartStore` class over them |
| `CartSidebar` | `cart_sidebar.dfy` | the `Panel` class (dialog state over a shared `CartStore`) and the pure payment decision |
| `Sales` | `sales.dfy` | pure filtering, sums and CSV construction |
| `Products` | `products.dfy` | the 24-product catalog and pure lookups |
| `Pos` | `pos.dfy` | the pure grid pipeline and the `PosScreen` class |
| `ProductCard` | `product_card.dfy` | the `Card` class |
| `AuthContext` | `auth_context.dfy` | the pure credential lookup and the `Session` class |
| `Sidebar` | `sidebar.dfy` | the pure role gate over the navigation entries |

Two support modules hold the JavaScript built-ins the code leans on:

- `Collections`: `filter`, `findIndex`, `find` and the subsequence relation.
- `Text`: `toLowerCase`, `includes`, `trim`, `join`, number-to-text, and the `Split` that undoes `join`.

Every state-changing method is specified by a pure function of the old
state, and the properties are proved about those functions.

Modelling choices:

- Money is held exactly. Cart amounts are `real`, because the tax rate 7.5 is fractional. Sales-history amounts are whole-naira `int`.
- The line id (clock plus random number) and the receipt number (clock) are parameters the caller supplies.
- Text typed into a number field is an `Entry`: empty, a number, or text that is not a number. `ParseOrZero` reads it the way `parseFloat(text) || 0` does.

## Model

| member | source | states |
|---|---|---|
| CartContext.Removed | src/contexts/CartContext.tsx:57-59 | the remaining lines are an order-preserving subsequence holding exactly the lines whose id differs |
| CartContext.WithQuantity | src/contexts/CartContext.tsx:63-65 | same length; a line takes the new quantity exactly when its id matches, any other line is unchanged |
| CartContext.CartStore.constructor | src/contexts/CartContext.tsx:34-36 | a new cart has no lines, discount 0 and tax rate 7.5, and satisfies the one-line-per-selection invariant |
| CartContext.CartStore.AddItem | src/contexts/CartContext.tsx:38-55 | the new line list is `Added` of the old one, and the one-line-per-selection invariant is kept |
| CartContext.CartStore.RemoveItem | src/contexts/CartContext.tsx:57-59 | the new line list is `Removed` of the old one, and the invariant is kept |
| CartContext.CartStore.UpdateQuantity | src/contexts/CartContext.tsx:61-66 | a quantity below 1 changes nothing; otherwise the new list is `WithQuantity` of the old one, and the invariant is kept |
| CartContext.CartStore.ClearCart | src/contexts/CartContext.tsx:68-71 | no lines and discount 0 afterwards; the tax rate is not touched |
| CartContext.CartStore.SetDiscountPercent | src/contexts/CartContext.tsx:35 | the discount percent becomes the given value; nothing else changes |
| CartContext.CartStore.SetTaxRate | src/contexts/CartContext.tsx:36 | the tax rate becomes the given value; nothing else changes |
| CartContext.AddedMerges | src/contexts/CartContext.tsx:40-51 | adding a selection already present grows that line by the added quantity; the length and every other line stay the same |
| CartContext.AddedAppends | src/contexts/CartContext.tsx:47-53 | adding a new selection appends exactly one line at the end, carrying the given price; earlier lines are unchanged |
| CartContext.AddedKeepsUniqueKeys | src/contexts/CartContext.tsx:40-53 | add never creates a second line for one (product, size, color) |
| CartContext.AddedKeepsPositiveQuantities | src/contexts/CartContext.tsx:40-53 | adding a positive quantity keeps every line's quantity at least 1 |
| CartContext.SelectionQuantityUpdate | src/contexts/CartContext.tsx:49 | setting one line's quantity shifts the selection total and the item count by exactly that line's change |
| CartContext.SubtotalGrow | src/contexts/CartContext.tsx:49 | growing one line by some quantity grows the subtotal by that quantity at the line's price |
| CartContext.MergedSubtotal | src/contexts/CartContext.tsx:40-51 | a merging add grows the subtotal by the added quantity at the price already on the line |
| CartContext.AppendedSubtotal | src/contexts/CartContext.tsx:53 | appending a line grows the subtotal by that line's price times its quantity |
| CartContext.AddedQuantities | src/contexts/CartContext.tsx:38-78 | after an add, the selection's total quantity and the item count both grow by the added quantity |
| CartContext.AddedSubtotal | src/contexts/CartContext.tsx:38-73 | after an add, the subtotal grows by quantity × the unit price: the price already on the line on a merge, the item's own price on an append |
| CartContext.AddedTwice | src/contexts/CartContext.tsx:40-53 | adding q1 then q2 of one selection keeps one line per selection, and that selection holds q1 + q2 more |
| CartContext.SelectionQuantityCongruent | src/contexts/CartContext.tsx:42-44 | only product, size and color decide which lines an item merges with |
| CartContext.RemovedAbsent | src/contexts/CartContext.tsx:57-59 | removing an id no line carries leaves the cart as it was |
| CartContext.RemovedKeepsUniqueKeys | src/contexts/CartContext.tsx:57-59 | removal keeps the one-line-per-selection invariant and positive quantities |
| CartContext.UpdatedKeepsInvariants | src/contexts/CartContext.tsx:61-66 | an update keeps the one-line-per-selection invariant, and with quantity at least 1 keeps all quantities positive |
| CartContext.UpdatedOnlyThatId | src/contexts/CartContext.tsx:63-65 | lines with another id are untouched; a line with the id differs from the old one in its quantity only |
| CartContext.EmptyCartPrices | src/contexts/CartContext.tsx:73-78 | the empty cart has subtotal, discount, taxable amount, tax, total and item count all 0 |
| CartContext.PricingIdentities | src/contexts/CartContext.tsx:73-77 | total = subtotal − discount + tax, and the tax is charged on subtotal − discount, not on the subtotal |
| CartContext.ZeroDiscount | src/contexts/CartContext.tsx:74-75 | a 0 % discount gives discount 0 and a taxable amount equal to the subtotal |
| CartContext.SubtotalNonNegative | src/contexts/CartContext.tsx:73 | non-negative prices and quantities give a non-negative subtotal |
| CartContext.PercentOfBounds | src/contexts/CartContext.tsx:74-76 | a percentage in [0, 100] of a non-negative amount lies between 0 and that amount |
| CartContext.PricingBounds | src/contexts/CartContext.tsx:73-77 | with a discount in [0, 100] and a non-negative rate: discount and taxable amount lie in [0, subtotal], tax ≥ 0, and total ≥ taxable amount |
| CartContext.WorkedExample | src/contexts/CartContext.tsx:73-77 | 15000 × 2 at 10 % discount and 7.5 % tax gives 30000, 3000, 27000, 2025, 29025 |
| CartContext.Added | src/contexts/CartContext.tsx:38-55 | the definition of the merge-or-append list `addItem` leaves, which `CartStore.AddItem` is proved against; what it means is stated by `AddedMerges`, `AddedAppends`, `AddedKeepsUniqueKeys`, `AddedQuantities` and `AddedSubtotal` |
| CartContext.RemovedCounts | src/contexts/CartContext.tsx:58 | removal keeps every copy of a line with another id and no copy of a line with that id, so it is exact also for repeated lines |
| CartContext.Subtotal | src/contexts/CartContext.tsx:73 | the definition of Σ price × quantity, folded as `reduce` does, that `SubtotalGrow`, `SubtotalNonNegative` and `AddedSubtotal` speak about |
| CartContext.ItemCount | src/contexts/CartContext.tsx:78 | the definition of Σ quantity that `SelectionQuantityUpdate`, `AddedQuantities` and `RemovedAbsent` speak about |
| CartContext.PriceOf | src/contexts/CartContext.tsx:73-77 | the definition of the breakdown (discount on the subtotal, tax on what remains) that `PricingIdentities`, `PricingBounds`, `ZeroDiscount` and `WorkedExample` speak about |
| CartContext.CartStore.Prices | src/contexts/CartContext.tsx:73-78 | the breakdown derived from the store's current lines, discount and rate; a definition read by the checkout panel |
| CartSidebar.AppliedDiscount | src/components/pos/CartSidebar.tsx:33-40 | the resulting percent is either the old one or the parsed entry, and stays within [0, 100] when it started there |
| CartSidebar.Settle | src/components/pos/CartSidebar.tsx:50-58 | refused exactly when cash below the total is offered; a completed payment carries the receipt number, the method and a change ≥ 0 |
| CartSidebar.SteppedDown | src/components/pos/CartSidebar.tsx:134-140 | the minus button keeps every quantity at least 1 |
| CartSidebar.SteppedUp | src/components/pos/CartSidebar.tsx:144-146 | the plus button keeps every quantity at least 1 |
| CartSidebar.Panel.constructor | src/components/pos/CartSidebar.tsx:27-31 | dialogs closed, cash selected, amount empty, and the discount field showing the cart's current percent |
| CartSidebar.Panel.ShowDiscountDialog | src/components/pos/CartSidebar.tsx:167 | the discount dialog is open or closed as asked |
| CartSidebar.Panel.ClosePayment | src/components/pos/CartSidebar.tsx:247 | the payment dialog is closed |
| CartSidebar.Panel.EnterDiscount | src/components/pos/CartSidebar.tsx:219-232 | the discount field holds the typed or preset entry |
| CartSidebar.Panel.ChooseMethod | src/components/pos/CartSidebar.tsx:263-285 | the chosen payment method is recorded |
| CartSidebar.Panel.EnterAmount | src/components/pos/CartSidebar.tsx:305-306 | the amount field holds the typed entry |
| CartSidebar.Panel.ApplyDiscount | src/components/pos/CartSidebar.tsx:33-40 | applied exactly when the parsed entry is in [0, 100]; the cart's percent becomes `AppliedDiscount`; the dialog closes only when applied |
| CartSidebar.Panel.Checkout | src/components/pos/CartSidebar.tsx:42-48 | the payment step opens exactly when the cart is not empty; otherwise nothing changes |
| CartSidebar.Panel.Pay | src/components/pos/CartSidebar.tsx:50-73 | the outcome is `Settle` of the method, the parsed amount and the cart total. A refusal changes neither the panel nor the cart. A success empties the cart, zeroes the discount, keeps the tax rate, closes the dialog and clears the amount. |
| CartSidebar.Panel.StepDown | src/components/pos/CartSidebar.tsx:134-140 | the cart's lines become `SteppedDown`, and the invariant is kept |
| CartSidebar.Panel.StepUp | src/components/pos/CartSidebar.tsx:144-146 | the cart's lines become `SteppedUp`, and the invariant is kept |
| CartSidebar.DiscountOutOfRange | src/components/pos/CartSidebar.tsx:35 | a percent outside [0, 100] leaves the discount as it was |
| CartSidebar.DiscountInRange | src/components/pos/CartSidebar.tsx:34-36 | a percent inside [0, 100] becomes the discount; text that is not a number applies 0 |
| CartSidebar.CashChange | src/components/pos/CartSidebar.tsx:53-58 | cash is refused exactly below the total; otherwise the change is received − total, and 0 for the exact amount |
| CartSidebar.NonCashSettles | src/components/pos/CartSidebar.tsx:53-58 | transfer and POS payments always complete, with change 0 whatever was typed |
| CartSidebar.CashExample | src/components/pos/CartSidebar.tsx:53-58 | 30000 cash against a 29025 total completes with change 975 |
| CartSidebar.StepperEffect | src/components/pos/CartSidebar.tsx:134-146 | minus does nothing at quantity ≤ 1 and takes exactly one off above it; plus adds exactly one to a line whose quantity is at least 0 (every cart line holds at least 1); the list length is kept |
| CartSidebar.MethodName | src/components/pos/CartSidebar.tsx:10 | the definition of the three method names as the code spells them; `Sales.MethodNameSafe` states they hold no comma or line break |
| CartSidebar.ParseOrZero | src/components/pos/CartSidebar.tsx:34 | the definition of reading an entry as `parseFloat` does, with 0 for no number, which `AppliedDiscount` and `Settle` read |
| Sales.FilteredSales | src/pages/Sales.tsx:90-97 | an order-preserving subsequence holding exactly the sales that match search, date and role |
| Sales.SumFilter | src/pages/Sales.tsx:100-102 | summing over the filtered list equals summing over all sales with the hidden ones counted as 0 |
| Sales.MaskedSumBounds | src/pages/Sales.tsx:100-102 | with non-negative amounts, a visible sum lies between 0 and the sum over all sales |
| Sales.SummaryOfVisible | src/pages/Sales.tsx:100-102 | the three summary cards are sums over the visible sales only, each between 0 and the all-sales sum |
| Sales.NonAdminSeesOwn | src/pages/Sales.tsx:95 | for a non-admin, every visible sale was rung up by that user; with nobody signed in, nothing is visible |
| Sales.AdminSeesAll | src/pages/Sales.tsx:95-96 | for an admin, visibility depends on search and date only |
| Sales.EmptyFiltersRoleOnly | src/pages/Sales.tsx:91-95 | an empty search and no date leave the role rule alone |
| Sales.MockSalesConsistent | src/pages/Sales.tsx:24-81 | every demo sale has total = subtotal − discount + tax, with tax 7.5 % of subtotal − discount |
| Sales.CashierView | src/pages/Sales.tsx:24-97 | the demo cashier sees sales 1, 2 and 4, in that order |
| Sales.CashierTotals | src/pages/Sales.tsx:100-102 | the demo cashier's cards show 193500 sales, 5000 discount and 13500 tax |
| Sales.AdminView | src/pages/Sales.tsx:90-102 | the demo admin sees all four sales, totalling 367650 sales, 23000 discount and 25650 tax |
| Sales.Row | src/pages/Sales.tsx:106-117 | a row has as many fields as the header has columns |
| Sales.RowLines | src/pages/Sales.tsx:106-121 | one line per visible sale, in order, each its row joined with commas |
| Sales.CsvContent | src/pages/Sales.tsx:119-121 | the content starts with the `data:text/csv;charset=utf-8,` prefix |
| Sales.MethodNameSafe | src/pages/Sales.tsx:113 | a payment method name holds no comma and no line break |
| Sales.HeaderSafe | src/pages/Sales.tsx:105 | no column heading holds a comma or a line break |
| Sales.RowReadsBack | src/pages/Sales.tsx:106-121 | for a sale whose text fields hold no comma or line break, its line holds no line break and splits back into its ten fields |
| Sales.HeaderReadsBack | src/pages/Sales.tsx:105-121 | the heading line holds no line break and splits back into the ten headings |
| Sales.RowsReadBack | src/pages/Sales.tsx:106-121 | every sale's line holds no line break and splits back into that sale's fields |
| Sales.LinesHaveNoBreaks | src/pages/Sales.tsx:119-121 | no line of the export holds a line break |
| Sales.CsvReadsBack | src/pages/Sales.tsx:104-121 | the export splits back into the header line plus one line per visible sale, and each line splits back into its fields in header order |
| Sales.MatchesSearch | src/pages/Sales.tsx:91-93 | the definition of the search test (lower-cased query in receipt number or cashier name) that `FilteredSales` and the view lemmas speak about |
| Sales.MatchesDate | src/pages/Sales.tsx:94 | the definition of the date test: no date chosen, or that exact date |
| Sales.MatchesUser | src/pages/Sales.tsx:95 | the definition of the role test that `NonAdminSeesOwn` and `AdminSeesAll` speak about |
| Sales.Visible | src/pages/Sales.tsx:96 | the definition of visibility, the conjunction of the three tests, that `FilteredSales` keeps |
| Sales.FilteredSalesCounts | src/pages/Sales.tsx:90-97 | the filter keeps every copy of a visible sale and no copy of any other |
| Sales.Summary | src/pages/Sales.tsx:100-102 | the definition of the three summary sums that `SummaryOfVisible` and `CashierTotals` speak about |
| Sales.CsvLines | src/pages/Sales.tsx:119-121 | the heading line first, then exactly one line per visible sale in order |
| Sales.MockSales | src/pages/Sales.tsx:24-81 | the four demo sales; `MockSalesConsistent` states each total is subtotal − discount + tax |
| Products.CatalogProductsWellFormed | src/data/products.ts:25-296 | every product has at least one size, at least one color and a positive price |
| Products.CatalogIdKeys | src/data/products.ts:25-296 | the product ids identify the positions, so they are pairwise distinct |
| Products.CatalogBarcodeKeys | src/data/products.ts:25-296 | the barcodes identify the positions, so they are pairwise distinct |
| Products.CatalogBarcodeShape | src/data/products.ts:25-296 | every barcode is non-empty, starts with a capital letter and ends with a digit |
| Products.CatalogWellFormed | src/data/products.ts:25-296 | the catalog is well formed: good products, distinct ids, distinct barcodes |
| Products.ProductsByCategory | src/data/products.ts:298-300 | exactly the products of that category, in list order |
| Products.ProductById | src/data/products.ts:302-304 | none exactly when no product has the id; otherwise the first product with it |
| Products.ProductByBarcode | src/data/products.ts:306-308 | none exactly when no product has the barcode; otherwise the first product with it |
| Products.SearchProducts | src/data/products.ts:310-318 | an order-preserving subsequence holding exactly the products whose lowercased name, barcode or category contains the lowercased query |
| Products.ProductByIdUnique | src/data/products.ts:302-304 | in a well-formed list, looking up a product's id finds that very product |
| Products.ProductByBarcodeUnique | src/data/products.ts:306-308 | in a well-formed list, looking up a product's barcode finds that very product |
| Products.SearchEmptyIsAll | src/data/products.ts:310-318 | the empty query returns the whole list in order |
| Products.CatalogLookups | src/data/products.ts:25-308 | every catalog product is found by its own id and by its own barcode |
| Products.MatchesQuery | src/data/products.ts:311-317 | the definition of the search test (lower-cased query in the lower-cased name, barcode or category) that `SearchProducts` keeps |
| Products.SearchProductsCounts | src/data/products.ts:310-318 | the search keeps every copy of a matching product and no copy of any other |
| Products.Catalog | src/data/products.ts:25-296 | the 24 catalog products, field by field and in order; `CatalogWellFormed` states their ids and barcodes are distinct and every product is well formed |
| Pos.ByCategory | src/pages/POS.tsx:22-24 | the products of the chosen category in list order, or the whole list for "all" |
| Pos.Shown | src/pages/POS.tsx:15-27 | an order-preserving subsequence holding exactly the products that match the search and the category |
| Pos.EmptyQueryShortcut | src/pages/POS.tsx:16-20 | skipping the search for an empty box gives what searching for the empty text would |
| Pos.ShownWithinSearch | src/pages/POS.tsx:18-24 | the grid is an order-preserving subsequence of the search results |
| Pos.InitialGrid | src/pages/POS.tsx:12-26 | an empty box with "all" shows the whole list in order |
| Pos.NameFindsProduct | src/data/products.ts:310-318 | a product's own name, typed as the query, matches it |
| Pos.PosScreen.constructor | src/pages/POS.tsx:10-12 | empty search, "all", the whole list shown, and an empty scanner field |
| Pos.PosScreen.SetSearchQuery | src/pages/POS.tsx:15-27 | the query is recorded and the grid is recomputed from it |
| Pos.PosScreen.SetCategory | src/pages/POS.tsx:15-27 | the tab is recorded and the grid is recomputed from it |
| Pos.PosScreen.TypeBarcode | src/pages/POS.tsx:60-66 | the scanner field holds the typed text |
| Pos.PosScreen.BarcodeKeyDown | src/pages/POS.tsx:30-39 | other keys do nothing. On Enter the trimmed text is looked up and the field is emptied. A hit puts the product's name in the search; a miss leaves the search and grid alone. |
| Pos.ScannedProductShown | src/pages/POS.tsx:15-36 | after a hit, the scanned product is in the grid unless another category's tab is active |
| Pos.ScanFindsProduct | src/pages/POS.tsx:32-33 | scanning any catalog barcode, bare or with any whitespace before and after it, finds exactly that product |
| Pos.CatalogBarcodesUntrimmed | src/pages/POS.tsx:32 | trimming a catalog barcode, bare or padded with any whitespace on either side, gives the barcode |
| Pos.InCategory | src/pages/POS.tsx:22-24 | the definition of the category tab test that `ByCategory` and `ScannedProductShown` speak about |
| ProductCard.Decremented | src/components/products/ProductCard.tsx:127 | never below 1; one less above 2; 1 at or below 2 |
| ProductCard.Card.constructor | src/components/products/ProductCard.tsx:15-18 | the first size, the first color, quantity 1 and options closed, satisfying the tile invariant |
| ProductCard.Card.ShowOptions | src/components/products/ProductCard.tsx:71 | the options panel is open or closed as asked |
| ProductCard.Card.SelectSize | src/components/products/ProductCard.tsx:84-87 | the size becomes the chosen member of the product's own sizes |
| ProductCard.Card.SelectColor | src/components/products/ProductCard.tsx:105-108 | the color becomes the chosen member of the product's own colors |
| ProductCard.Card.Decrement | src/components/products/ProductCard.tsx:127 | the quantity becomes `Decremented` of the old one, so it stays at least 1 |
| ProductCard.Card.Increment | src/components/products/ProductCard.tsx:134 | the quantity grows by exactly 1 |
| ProductCard.Card.AddToCart | src/components/products/ProductCard.tsx:20-32 | the cart adds the product's id, name, current price and image with the chosen size, color and quantity; then quantity 1 and options closed |
| ProductCard.StepperRoundTrip | src/components/products/ProductCard.tsx:127-134 | plus then minus returns to the start; minus then plus never ends below the start |
| ProductCard.AddFromCardQuantities | src/components/products/ProductCard.tsx:20-29 | adding from a tile grows that selection and the item count by the tile's quantity |
| ProductCard.AddFromCardSubtotal | src/components/products/ProductCard.tsx:20-29 | adding from a tile grows the subtotal at the snapshotted price on a merge, or at the product's current price on a new line |
| ProductCard.AddFromCardKeepsPositive | src/components/products/ProductCard.tsx:20-29 | adding from a tile keeps every cart quantity at least 1 |
| ProductCard.CatalogTilesConstructible | src/components/products/ProductCard.tsx:15-16 | every catalog product has a first size and a first color for a tile to start on |
| ProductCard.Request | src/components/products/ProductCard.tsx:21-29 | the definition of the item `handleAddToCart` hands to `addItem`, read by `Card.AddToCart` and the `AddFromCard` lemmas |
| AuthContext.LoginUser | src/contexts/AuthContext.tsx:65-75 | some user exactly when the first account matching both email and password is active, and then it is that account's user |
| AuthContext.Session.constructor | src/contexts/AuthContext.tsx:56-63 | the session starts with the stored user, if any |
| AuthContext.Session.Login | src/contexts/AuthContext.tsx:65-75 | true exactly when `LoginUser` finds a user, who then becomes the current user; on false the current user is unchanged |
| AuthContext.Session.Logout | src/contexts/AuthContext.tsx:77-80 | nobody is signed in afterwards |
| AuthContext.MockAccountsActiveAndDistinct | src/contexts/AuthContext.tsx:26-53 | both demo accounts are active and have different emails |
| AuthContext.MockLoginIff | src/contexts/AuthContext.tsx:66-69 | with the demo accounts, login succeeds exactly when some account matches both fields, and then signs in that account's user |
| AuthContext.AdminLogin | src/contexts/AuthContext.tsx:26-39 | the admin credentials sign in the admin, for whom `isAdmin` holds |
| AuthContext.CashierLogin | src/contexts/AuthContext.tsx:40-52 | the cashier credentials sign in the cashier, who is authenticated but not an admin |
| AuthContext.IsAuthenticated | src/contexts/AuthContext.tsx:88 | the definition of `isAuthenticated`: someone is signed in |
| AuthContext.IsAdmin | src/contexts/AuthContext.tsx:89 | the definition of `isAdmin`: someone is signed in with the admin role, read by `Sales.MatchesUser` |
| AuthContext.MockAccounts | src/contexts/AuthContext.tsx:26-53 | the demo accounts; `MockAccountsActiveAndDistinct` states they are active with distinct emails |
| Sidebar.VisibleItems | src/components/layout/Sidebar.tsx:38-40 | an order-preserving subsequence holding exactly the entries that are not admin-only, or all entries for an admin |
| Sidebar.HrefsDistinct | src/components/layout/Sidebar.tsx:24-32 | no two entries share a link |
| Sidebar.AdminSeesEverything | src/components/layout/Sidebar.tsx:24-40 | an admin sees all seven entries in declared order |
| Sidebar.CashierSeesThree | src/components/layout/Sidebar.tsx:24-40 | anyone else sees exactly Dashboard, POS and Sales, in that order |
| Sidebar.AtMostOneActive | src/components/layout/Sidebar.tsx:38-58 | for every path and role, no two distinct positions of the shown menu are highlighted together |
| Sidebar.Shown | src/components/layout/Sidebar.tsx:39 | the definition of the role gate that `VisibleItems` keeps |
| Sidebar.IsActive | src/components/layout/Sidebar.tsx:58 | the definition of the highlight test that `AtMostOneActive` speaks about |
| Sidebar.NavItems | src/components/layout/Sidebar.tsx:24-32 | the seven entries in declared order; `HrefsDistinct` states no two share a link |
| Collections.Filter | src/data/products.ts:299 | `filter` returns an order-preserving subsequence no longer than its input |
| Collections.FilterMembers | src/data/products.ts:299 | `filter` keeps exactly the elements satisfying the predicate |
| Collections.FindIndex | src/contexts/CartContext.tsx:40-45 | `findIndex` returns the first satisfying index, or −1 exactly when there is none |
| Collections.Find | src/data/products.ts:303 | `find` returns the first satisfying element, or none exactly when there is none |
| Collections.FilterCounts | src/data/products.ts:312-317 | `filter` keeps every occurrence of a value satisfying the predicate and none of the others |
| Text.Includes | src/data/products.ts:314-316 | `includes` holds exactly when the text occurs at some position |
| Text.IncludesEmpty | src/data/products.ts:310-318 | the empty text is included in every text |
| Text.Trim | src/pages/POS.tsx:32 | `trim` gives a contiguous slice whose ends are not whitespace, with only whitespace cut on either side |
| Text.TrimPadded | src/pages/POS.tsx:32 | trimming text padded with whitespace gives the text back when its own ends are not whitespace |
| Text.IndexOf | src/pages/Sales.tsx:121 | the position of the first occurrence of a character, or the length when there is none; a helper of `Split`, the read-back inverse of the export's `join` used by `Sales.CsvReadsBack` |
| Text.Split | src/pages/Sales.tsx:121 | cutting at a separator gives at least one piece; the read-back inverse of the export's `join`, used by `Sales.CsvReadsBack` (the source itself never splits) |
| Text.SplitJoin | src/pages/Sales.tsx:121 | joining pieces that do not hold the separator is undone by cutting at it |
| Text.JoinExcludes | src/pages/Sales.tsx:121 | a character in neither the separator nor any piece is not in the join |
| Text.NatToString | src/pages/Sales.tsx:108-112 | a non-negative number is written as decimal digits without a leading zero |
| Text.IntToString | src/pages/Sales.tsx:108-112 | a number's text is non-empty and holds no comma or line break |
| Text.NatToStringValue | src/pages/Sales.tsx:108-112 | reading the written digits back gives the number |
| Text.Lower | src/data/products.ts:311 | the definition of `toLowerCase` over ASCII letters that the search tests use |
| Text.Join | src/pages/Sales.tsx:121 | the definition of `join` that `SplitJoin` and `JoinExcludes` speak about |

## Left out

- Rendering is not modelled: JSX, icons, routing, theming, toasts (including their messages), the selected-sale detail dialog and the "Low Stock" badge.
- The compact tile prop and the category tab list with its icons are not modelled.
- The Dashboard, Reports, Settings, Products, Cashiers, Login and NotFound pages, MainLayout and App are not part of this model.
- CategorySection.tsx is not part of this model.
- Browser storage is not modelled. Saving, reading and removing the signed-in user in local storage is replaced by a constructor parameter (the stored user, if any).
- Login is modelled synchronously. The promise around the result is not.
- The line id and the receipt number are supplied by the caller. Their uniqueness is not claimed: the code derives them from the clock and a random number and does not guarantee it.
- `formatCurrency` (an `Intl.NumberFormat` call) is not modelled. Neither is the CSV download: the link element, `encodeURI` and the dated file name.
- `parseFloat` itself is not modelled. A numeric field's text is taken already classified as empty, a number or not a number.
- IEEE floating point is not modelled. Amounts are exact.
- `Text.Lower` folds only ASCII letters, which is every letter in the data. Full Unicode case mapping is not modelled.
- `Text.IntToString` writes whole numbers only. Sales amounts are modelled as integers because the demo data is whole naira. A fractional amount is not modelled, and neither is JavaScript's exponent notation for very large numbers.
- `Sales.RowReadsBack` requires the sale's text fields to hold no comma or line break. The code does not quote fields, so a line with such a field does not split back into its fields.
- Lookups take the product list as a parameter. The application always passes the catalog, and `Products.CatalogLookups` and `Pos.ScanFindsProduct` state the results for the catalog itself.
- `ProductCard.Card.constructor` requires non-empty size and color lists. The code would start a tile with an undefined selection otherwise; every catalog product meets the requirement (`ProductCard.CatalogTilesConstructible`).
- `CartContext.CartStore.AddItem` replaces the line list as a value. The code copies the list but bumps the quantity on the line object it shares with the previous state; that aliasing is not modelled.
- No typed errors are modelled, because the handlers return silently.
- No "already settled" payment state is modelled, and no sale record is built or stored: a completed payment exists only as a notification.
- Add does no size, color or quantity validation, and the model adds none.
- A quantity update below 1 is ignored without any signal, and the model does the same.
