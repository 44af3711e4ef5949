# Vendor console business rules, in Dafny

This project models the client-side rules of a React vendor console: a
marketplace dashboard where vendors list their products, follow orders
and sales, and request payouts, and where administrators approve new
vendors. Rendering and HTTP plumbing are not modelled. What remains is the
logic inside the handlers:

- **Status badges.** Products, orders, payments, payouts and vendors each
  have one.
- **Product table.** The upload validators, the checks `handleSave` runs
  before uploading, and the pager with its filter reset.
- **Orders table.** The normaliser that reads three response shapes, and
  the expansion of orders into one row per line item.
- **Recent-orders panel.** A two-shape version of the same normaliser.
- **Payout form.** Its validator and its submit handler.
- **Dashboard metric cards.** Their percentage-change and currency helpers.
- **Monthly sales chart.** Its in-place bucketing loop.
- **Vendor approval.** The approval handler.
- **Modal hook.** Two open/closed flags.

Each source file is one module, and each module takes the source's own form:

- Pure helpers become functions with contracts, plus lemmas about them.
- Component state that handlers update becomes a class whose methods
  `modify` it. Each method's postcondition ties the new state to a pure
  function of the old state (`View() == AfterFetch(old(View()), result)`),
  and the lemmas are proved about those functions.
- A response from a server, and whatever a request throws, is a parameter
  of the handler that awaits it.

JavaScript's number semantics are written out in `JsNumbers`:

- NaN is `None`, and every comparison with NaN is false.
- `Number("")` is 0.
- `Number` needs the whole string to be a decimal literal, while
  `parseFloat` reads the longest decimal prefix.
- Arithmetic is over `real`.

| file | module | source |
|---|---|---|
| common.dfy | `Common` | shared: ASCII `toLowerCase`, `split` on one character, badge colours |
| js_numbers.dfy | `JsNumbers` | shared: `Number(s)`, `parseFloat(s)`, NaN comparisons |
| paging.dfy | `Paging` | `Math.ceil(total / size)`, the `goToPage` guard, offsets (three tables) |
| use_modal.dfy | `UseModal` | src/hooks/useModal.ts |
| products_table.dfy | `ProductsTable` | src/components/tables/BasicTables/BasicTableThree.tsx |
| orders.dfy | `Orders` | orders, badges and row expansion shared by BasicTableFour.tsx and RecentOrders.tsx |
| orders_table.dfy | `OrdersTable` | src/components/tables/BasicTables/BasicTableFour.tsx |
| recent_orders.dfy | `RecentOrders` | src/components/ecommerce/RecentOrders.tsx |
| payouts.dfy | `Payouts` | src/pages/Customers.tsx |
| metrics.dfy | `Metrics` | src/components/ecommerce/EcommerceMetrics.tsx |
| monthly_sales.dfy | `MonthlySales` | src/components/ecommerce/MonthlySalesChart.tsx |
| pending_vendors.dfy | `PendingVendors` | src/pages/PendingVendors.tsx |

The code departs from what the page's wording suggests in three places, and
the model follows the code:

- **Inactive products.** The badge of an inactive product is `warning`, the
  same as a draft, not `default`. `getStatusColor` is called with
  `is_published && is_active`, which makes the badge green for Published
  and amber otherwise.
- **Payout form.** The amount and the payment details are validated
  independently, and both errors can show at once. The rules are not
  "first failure wins".
- **Failed orders fetch.** A failed fetch in the orders table empties the
  list; it does not keep the prior items. The pagination is kept.

## Model

| member | source | states |
|---|---|---|
| Common.ToLower | src/components/tables/BasicTables/BasicTableFour.tsx:124 | lower-casing keeps the length and lowers every ASCII capital, position by position |
| Common.Split | src/components/tables/BasicTables/BasicTableThree.tsx:161 | `split` on one character returns at least one piece, and no piece contains the separator |
| Common.SplitJoin | src/components/tables/BasicTables/BasicTableThree.tsx:161 | joining the pieces of a split with the separator gives back the input |
| Common.SplitAppendPiece | src/components/tables/BasicTables/BasicTableThree.tsx:161 | a separator and a separator-free tail appended to a string add exactly that tail as the last piece |
| JsNumbers.Scan | src/components/tables/BasicTables/BasicTableThree.tsx:224 | a leading `-` or `+` is always read as the sign (negative exactly for `-`), the whole digits are the longest digit run after it, and whatever follows the literal cannot extend it |
| JsNumbers.ScanReassembles | src/components/tables/BasicTables/BasicTableThree.tsx:224 | the sign, digits, point and rest a scan returns put back together give the input |
| JsNumbers.ToNumber | src/pages/Customers.tsx:97 | `Number` is 0 on the empty string, a number exactly when the whole string is one decimal literal with a digit, and that literal's value |
| JsNumbers.ParseFloat | src/components/ecommerce/EcommerceMetrics.tsx:46 | `parseFloat` is a number exactly when the decimal prefix has a digit, and is that prefix's value |
| JsNumbers.ParseFloatAgreesWithNumber | src/components/tables/BasicTables/BasicTableThree.tsx:224 | on a non-empty string that `Number` accepts, `parseFloat` gives the same value, so the `isNaN` test and the `parseFloat` comparison see one number |
| JsNumbers.NumberOfDigits | src/components/ecommerce/MonthlySalesChart.tsx:59 | a non-empty digit string converts to the integer its digits denote |
| JsNumbers.NumberOfDecimal | src/pages/Customers.tsx:97 | digits, a point and digits (at least one digit in all) convert to the number with those whole and fraction digits |
| JsNumbers.DigitsBelowPow10 | src/pages/Customers.tsx:97 | `n` digits denote less than `10^n` |
| JsNumbers.FractionBelowOne | src/pages/Customers.tsx:97 | the fraction digits add less than one: a decimal lies between its whole part and the next integer |
| Paging.TotalPages | src/components/tables/BasicTables/BasicTableThree.tsx:389 | the page count is the ceiling of total over page size: the fewest pages that hold every item |
| Paging.ReachablePageStartsInside | src/components/tables/BasicTables/BasicTableThree.tsx:391-395 | every page the guard admits starts at an item that exists, offset `(page - 1) * size` |
| Paging.ItemOnReachablePage | src/components/tables/BasicTables/BasicTableThree.tsx:343-344 | every item lies on a page the guard admits, within that page's offset window |
| UseModal.ModalFlags.constructor | src/hooks/useModal.ts:3-5 | both flags start at `initialState`, closed by default |
| UseModal.ModalFlags.OpenModal | src/hooks/useModal.ts:7 | opens the modal and leaves the delete flag alone |
| UseModal.ModalFlags.CloseModal | src/hooks/useModal.ts:8 | closes the modal and leaves the delete flag alone |
| UseModal.ModalFlags.ToggleModal | src/hooks/useModal.ts:9 | negates the modal flag and leaves the delete flag alone |
| UseModal.ModalFlags.OpenDeleteModal | src/hooks/useModal.ts:10 | opens the delete modal and leaves the other flag alone |
| UseModal.ModalFlags.CloseDeleteModal | src/hooks/useModal.ts:11 | closes the delete modal and leaves the other flag alone |
| UseModal.ModalFlags.ToggleDeleteModal | src/hooks/useModal.ts:12-15 | negates the delete flag and leaves the other flag alone |
| UseModal.OpenModalTwice | src/hooks/useModal.ts:7 | opening twice ends where opening once does |
| UseModal.CloseModalTwice | src/hooks/useModal.ts:8 | closing twice ends where closing once does |
| UseModal.OpenDeleteModalTwice | src/hooks/useModal.ts:10 | opening the delete modal twice ends where opening it once does |
| UseModal.CloseDeleteModalTwice | src/hooks/useModal.ts:11 | closing the delete modal twice ends where closing it once does |
| UseModal.ToggleTwiceRestores | src/hooks/useModal.ts:9-15 | toggling either flag twice restores both flags |
| ProductsTable.ValidateImage | src/components/tables/BasicTables/BasicTableThree.tsx:113-126 | a thumbnail passes exactly when it is JPEG, PNG or WebP and at most 2 MiB; a wrong type is reported before the size |
| ProductsTable.ThumbnailExamples | src/components/tables/BasicTables/BasicTableThree.tsx:115-123 | a PNG of exactly 2 MiB passes, a 3 MiB PNG fails on size, a GIF fails on type |
| ProductsTable.FileExtension | src/components/tables/BasicTables/BasicTableThree.tsx:161 | the extension contains no dot and no capital letter |
| ProductsTable.FileExtensionAfterLastDot | src/components/tables/BasicTables/BasicTableThree.tsx:161 | the extension is the lower-cased text after the last dot |
| ProductsTable.ValidateDigitalFile | src/components/tables/BasicTables/BasicTableThree.tsx:148-176 | a digital file passes exactly when its type is one of the five listed and it is at most 2000 MiB; a `.zip` name only turns an unlisted type's refusal into a size refusal when the file is too big |
| ProductsTable.DigitalFileVerdictIgnoresName | src/components/tables/BasicTables/BasicTableThree.tsx:163-176 | whether a digital file is accepted never depends on its name |
| ProductsTable.SaveCheck | src/components/tables/BasicTables/BasicTableThree.tsx:218-244 | saving proceeds exactly when the fields are present, the price is a positive number, a given compare-at price is a number above the price, and the file is at most 100 MiB; otherwise the message is that of the first rule broken, in the order fields, price, compare-at price, file size, each stated as an if-and-only-if |
| ProductsTable.SaveBoundaries | src/components/tables/BasicTables/BasicTableThree.tsx:230-244 | a compare-at price equal to the price is refused, a file of exactly 100 MiB is accepted, one byte more is refused |
| ProductsTable.StatusText | src/components/tables/BasicTables/BasicTableThree.tsx:417-421 | Published iff published and active, Draft iff unpublished and active, Inactive iff inactive |
| ProductsTable.StatusColor | src/components/tables/BasicTables/BasicTableThree.tsx:413-415 | `getStatusColor` is green exactly for a true argument and amber exactly for a false one |
| ProductsTable.StatusBadge | src/components/tables/BasicTables/BasicTableThree.tsx:654-660 | the badge is green exactly for a Published product and amber otherwise |
| ProductsTable.ProductsRequest | src/components/tables/BasicTables/BasicTableThree.tsx:342-347 | the query asks for five items at offset `(page - 1) * 5`, sends the search only when non-empty and the status only when not "all" |
| ProductsTable.TwelveProductsThreePages | src/components/tables/BasicTables/BasicTableThree.tsx:389 | twelve products make three pages |
| ProductsTable.ProductsPage.constructor | src/components/tables/BasicTables/BasicTableThree.tsx:41-69 | the form starts empty, on page 1, with the "all" filter |
| ProductsTable.ProductsPage.HandleThumbnailChange | src/components/tables/BasicTables/BasicTableThree.tsx:128-147 | an accepted image replaces the thumbnail and clears the message; a refused one keeps the old thumbnail, shows why, and clears the input |
| ProductsTable.ProductsPage.HandleFileChange | src/components/tables/BasicTables/BasicTableThree.tsx:148-182 | a pick with no file throws (`files[0].type` is read unguarded) and changes nothing; an accepted file replaces `file` and resets its upload state; a refused one changes only the message |
| ProductsTable.ProductsPage.HandleSave | src/components/tables/BasicTables/BasicTableThree.tsx:213-244 | the upload starts exactly when every save rule holds; otherwise the first failed rule's message shows |
| ProductsTable.ProductsPage.GoToPage | src/components/tables/BasicTables/BasicTableThree.tsx:391-395 | the page changes exactly when the target lies in `1..totalPages` |
| ProductsTable.ProductsPage.ChangeStatusFilter | src/components/tables/BasicTables/BasicTableThree.tsx:486-489 | a new status filter sends the table back to page 1 |
| ProductsTable.ProductsPage.ChangeSearchTerm | src/components/tables/BasicTables/BasicTableThree.tsx:529 | typing a search term does not move the page |
| ProductsTable.ProductsPage.SubmitSearch | src/components/tables/BasicTables/BasicTableThree.tsx:498-501 | submitting the search sends the table back to page 1 |
| Orders.OrderStatusBadge | src/components/tables/BasicTables/BasicTableFour.tsx:123-134 | after lower-casing: completed is green, pending amber, cancelled red, anything else default |
| Orders.PaymentStatusBadge | src/components/tables/BasicTables/BasicTableFour.tsx:136-147 | after lower-casing: paid is green, pending amber, failed red, anything else default |
| Orders.BadgesIgnoreCase | src/components/tables/BasicTables/BasicTableFour.tsx:124 | two statuses that differ only in case get the same order and payment colours |
| Orders.RefundedIsDefault | src/components/ecommerce/RecentOrders.tsx:89-113 | a refunded order or payment gets the default colour, in the panel as in the table |
| Orders.OrderRows | src/components/tables/BasicTables/BasicTableFour.tsx:217-218 | an order gives one row per item, in item order, keyed by order id and item index |
| Orders.Rows | src/components/tables/BasicTables/BasicTableFour.tsx:216-218 | the `flatMap` over the orders gives exactly as many rows as there are line items across all orders |
| Orders.RowsAppend | src/components/tables/BasicTables/BasicTableFour.tsx:216 | the rows of consecutive order lists are consecutive, so rows keep the order of the orders |
| Orders.EmptyOrderHasNoRows | src/components/ecommerce/RecentOrders.tsx:220-222 | an order without items contributes no row |
| Orders.RowComesFromAnItem | src/components/tables/BasicTables/BasicTableFour.tsx:216-218 | every row shows an item of one of the orders, at the index its key names |
| Orders.EveryItemHasARow | src/components/tables/BasicTables/BasicTableFour.tsx:216-218 | every item of every order has its row |
| Orders.KeysDistinct | src/components/tables/BasicTables/BasicTableFour.tsx:218 | when order ids are distinct, the row keys are distinct |
| OrdersTable.FallbackPagination | src/components/tables/BasicTables/BasicTableFour.tsx:84-89 | the synthesised pagination is page 1 with every order counted, the page size kept and the fewest pages that hold them |
| OrdersTable.Normalise | src/components/tables/BasicTables/BasicTableFour.tsx:77-103 | the envelope wins when `data` and `pagination` are both present, then a bare array, then an `orders` object; anything else is a format error |
| OrdersTable.EnvelopeWinsOverArray | src/components/tables/BasicTables/BasicTableFour.tsx:77-83 | an array sent beside a pagination object keeps the server's pagination; without it the table restarts at page 1 |
| OrdersTable.AfterFetch | src/components/tables/BasicTables/BasicTableFour.tsx:57-110 | loading ends in every outcome; a failure or a format error empties the list and keeps the pagination; a success never clears an earlier error |
| OrdersTable.FallbackKeepsPageSize | src/components/tables/BasicTables/BasicTableFour.tsx:84-98 | both fallback shapes keep the page size the table asked with |
| OrdersTable.OrdersPage.constructor | src/components/tables/BasicTables/BasicTableFour.tsx:46-54 | the table starts empty, loading, on page 1 of 1 with five orders a page |
| OrdersTable.OrdersPage.FetchOrders | src/components/tables/BasicTables/BasicTableFour.tsx:57-111 | sends the current page size, the page and newest-first sorting, and ends in the state `AfterFetch` gives |
| OrdersTable.OrdersPage.GoToPage | src/components/tables/BasicTables/BasicTableFour.tsx:117-121 | a fetch happens exactly when the page lies in `1..pagination.pages`; otherwise nothing changes |
| RecentOrders.NormaliseRecent | src/components/ecommerce/RecentOrders.tsx:61-76 | a bare array is read first, then an `orders` object; nothing else yields orders |
| RecentOrders.AgreesWithOrdersTable | src/components/ecommerce/RecentOrders.tsx:61-76 | whatever the orders table lists the panel lists too, and whatever the table rejects the panel rejects |
| RecentOrders.AfterFetch | src/components/ecommerce/RecentOrders.tsx:60-83 | loading ends in every outcome, and both a failed request and a format error empty the list with their own message |
| RecentOrders.RecentOrdersPanel.constructor | src/components/ecommerce/RecentOrders.tsx:37-39 | the panel starts empty and loading |
| RecentOrders.RecentOrdersPanel.FetchOrders | src/components/ecommerce/RecentOrders.tsx:43-84 | the panel ends in the state `AfterFetch` gives |
| Payouts.FormErrorsFor | src/pages/Customers.tsx:90-111 | the amount error is "valid amount" iff the amount is empty or not a number, and "exceeds" iff it is a number above a known balance; the details error is set iff the details are empty |
| Payouts.NonNumericAmountRefused | src/pages/Customers.tsx:97-99 | "abc" is not a valid amount |
| Payouts.AmountAboveBalanceRefused | src/pages/Customers.tsx:100-102 | 600 against a balance of 500 exceeds it |
| Payouts.AmountBelowBalanceAccepted | src/pages/Customers.tsx:97-108 | "499.99" against a balance of 500 passes |
| Payouts.AmountEqualToBalanceAccepted | src/pages/Customers.tsx:100 | an amount equal to the balance passes |
| Payouts.NegativeAmountAccepted | src/pages/Customers.tsx:97-103 | a negative amount passes, since no lower bound is checked |
| Payouts.BothErrorsAtOnce | src/pages/Customers.tsx:97-108 | an empty amount and empty details are reported together |
| Payouts.UnknownBalanceNeverExceeded | src/pages/Customers.tsx:100 | when the balance is missing, no number exceeds it |
| Payouts.PayoutStatusBadge | src/pages/Customers.tsx:141-152 | after lower-casing: completed is green, pending amber, failed red, anything else default |
| Payouts.FormatDate | src/pages/Customers.tsx:154-160 | a missing or empty date shows a dash; any other is shown as a date |
| Payouts.AfterPayoutsFetch | src/pages/Customers.tsx:49-76 | the balances are copied from `available_balance` and `pending_balance` and a missing list is empty; a balance body without `data` still replaces the list (it is stored first) but keeps the balance and shows the fetch error; any earlier failure keeps list and balance and shows the error |
| Payouts.PayoutPage.constructor | src/pages/Customers.tsx:34-47 | the page starts with a zero balance, no payouts, a closed modal and the empty bank-transfer form |
| Payouts.PayoutPage.ValidateForm | src/pages/Customers.tsx:90-112 | writes both field errors and returns true exactly when neither is set |
| Payouts.PayoutPage.FetchPayouts | src/pages/Customers.tsx:49-76 | the page ends in the state `AfterPayoutsFetch` gives |
| Payouts.PayoutPage.HandleSubmit | src/pages/Customers.tsx:114-139 | a request with the amount as a number is sent exactly when the form is valid; on acceptance the page refetches, closes the modal and resets the form; on refusal only the error changes |
| Metrics.CalculateChange | src/components/ecommerce/EcommerceMetrics.tsx:38-41 | the change is 0 against a zero baseline, and otherwise satisfies `change * previous == (current - previous) * 100`; NaN in gives NaN out |
| Metrics.ChangeSign | src/components/ecommerce/EcommerceMetrics.tsx:40 | the change is non-negative exactly when `(c - p) / p` is |
| Metrics.ChangeSignAgainstBaseline | src/components/ecommerce/EcommerceMetrics.tsx:38-41 | against a positive baseline the change is non-negative iff the current figure reaches it; against a negative one, iff it does not exceed it |
| Metrics.OrZero | src/components/ecommerce/EcommerceMetrics.tsx:71 | `x \|\| 0` is 0 for NaN and keeps any number |
| Metrics.Strip | src/components/ecommerce/EcommerceMetrics.tsx:46 | the cleaned text is no longer than the input and holds only digits, `.` and `-` |
| Metrics.StripKeepsCleanText | src/components/ecommerce/EcommerceMetrics.tsx:46 | text made only of digits, `.` and `-` is left unchanged |
| Metrics.StripIdempotent | src/components/ecommerce/EcommerceMetrics.tsx:46 | cleaning twice is cleaning once |
| Metrics.StripAppend | src/components/ecommerce/EcommerceMetrics.tsx:46 | the pieces of a concatenation are cleaned separately |
| Metrics.StripRemovesOnlyOthers | src/components/ecommerce/EcommerceMetrics.tsx:46 | the cleaned text is as long as the input exactly when every input character is kept |
| Metrics.ParseCurrency | src/components/ecommerce/EcommerceMetrics.tsx:44-47 | a missing or empty value is 0; otherwise the value is `parseFloat` of the cleaned text |
| Metrics.CurrencyDecorationsIgnored | src/components/ecommerce/EcommerceMetrics.tsx:44-47 | a dollar sign and a thousands comma do not change the amount read, for any digits, points and minus signs around the comma (so `"$1,234.56"` reads as `"1234.56"`) |
| Metrics.TrendBadge | src/components/ecommerce/EcommerceMetrics.tsx:69-76 | the badge is green and points up exactly when the change is a number at least 0; otherwise it is red |
| Metrics.DisplayedPercent | src/components/ecommerce/EcommerceMetrics.tsx:86-91 | the figure shown is the magnitude of the change: non-negative, equal to the change or its negation |
| Metrics.OrdersChange | src/components/ecommerce/EcommerceMetrics.tsx:70-73 | the orders change is always a number, because both operands fall back to 0 |
| Metrics.OrdersBadgeRule | src/components/ecommerce/EcommerceMetrics.tsx:68-76 | the orders badge is green exactly when there are no orders at all, or the last week reaches a quarter of all orders |
| Metrics.UnreadableRevenueIsRed | src/components/ecommerce/EcommerceMetrics.tsx:123-132 | an all-time revenue with no digit makes the change NaN and the badge red |
| Metrics.RevenueChange | src/components/ecommerce/EcommerceMetrics.tsx:123-147 | the revenue card's change: 0 without an all-time revenue, otherwise the change of the cleaned last-week revenue (NaN read as 0) against a quarter of `parseFloat` of the cleaned all-time text |
| Metrics.Quarter | src/components/ecommerce/EcommerceMetrics.tsx:128 | a quarter of a number (NaN stays NaN): four times the result is the input |
| Metrics.RevenueBadgeRule | src/components/ecommerce/EcommerceMetrics.tsx:123-132 | for any readable all-time revenue `t`, the badge is green when `t` is 0, and otherwise exactly when the last week reaches `t/4` (positive `t`) or does not exceed it (negative `t`) |
| Metrics.ZeroTextIsZero | src/components/ecommerce/EcommerceMetrics.tsx:128 | the default all-time revenue `"0"` reads as 0 |
| Metrics.MissingRevenueIsFlat | src/components/ecommerce/EcommerceMetrics.tsx:125-132 | without an all-time revenue the baseline is 0, the change is 0 and the badge is green |
| MonthlySales.Zeros | src/components/ecommerce/MonthlySalesChart.tsx:57 | twelve slots, all 0 |
| MonthlySales.Slot | src/components/ecommerce/MonthlySalesChart.tsx:59-62 | a trend names a slot only when its year converts to the selected year and its month converts to the slot's number plus one, within 0..11 |
| MonthlySales.Record | src/components/ecommerce/MonthlySalesChart.tsx:63 | a trend's slot takes its revenue and every other slot keeps its value |
| MonthlySales.Bucketed | src/components/ecommerce/MonthlySalesChart.tsx:57-66 | the series always has twelve slots |
| MonthlySales.BucketIsLastWrite | src/components/ecommerce/MonthlySalesChart.tsx:63 | each slot holds the revenue of the last trend for that month, or 0; slots are assigned, not summed |
| MonthlySales.UnwrittenSlotStaysZero | src/components/ecommerce/MonthlySalesChart.tsx:57 | a slot no trend writes stays 0 |
| MonthlySales.IgnoredTrendChangesNothing | src/components/ecommerce/MonthlySalesChart.tsx:58-65 | a trend of another year, an out-of-range month or an unreadable date changes no slot |
| MonthlySales.LaterTrendWins | src/components/ecommerce/MonthlySalesChart.tsx:63 | of two trends for one month the later one is shown |
| MonthlySales.YearAndMonth | src/components/ecommerce/MonthlySalesChart.tsx:59 | `split('-').map(Number)`: a month text without a dash gives its own number as the year and NaN as the month |
| MonthlySales.SplitYearMonth | src/components/ecommerce/MonthlySalesChart.tsx:59 | `"YYYY-MM".split('-')` gives the year digits and the month digits |
| MonthlySales.YearAndMonthOfDigits | src/components/ecommerce/MonthlySalesChart.tsx:59 | `"YYYY-MM"` made of digits splits on the dash into the two numbers its digit runs denote |
| MonthlySales.SlotOfYearMonth | src/components/ecommerce/MonthlySalesChart.tsx:59-63 | a well-formed `"YYYY-MM"` of the selected year writes slot `MM - 1` |
| MonthlySales.BucketMonthlySales | src/components/ecommerce/MonthlySalesChart.tsx:57-66 | the in-place loop over the trends leaves the array holding exactly `Bucketed` of the trends |
| MonthlySales.NatToString | src/components/ecommerce/MonthlySalesChart.tsx:47 | the status printed in the HTTP error is a non-empty run of digits |
| MonthlySales.NatToStringReadsBack | src/components/ecommerce/MonthlySalesChart.tsx:47 | the printed status reads back as the status |
| MonthlySales.HttpErrorMessage | src/components/ecommerce/MonthlySalesChart.tsx:47 | the message is the fixed prefix followed by the status in decimal digits, which read back as the status |
| MonthlySales.AfterSalesFetch | src/components/ecommerce/MonthlySalesChart.tsx:30-75 | a response with trends replaces the series and clears the error; a missing `monthly_trends`, an HTTP error or a thrown error keeps the series and shows its message; loading ends every time |
| MonthlySales.SeriesKeepsTwelveSlots | src/components/ecommerce/MonthlySalesChart.tsx:57-68 | whatever comes back, the series keeps twelve slots |
| MonthlySales.YearOptions | src/components/ecommerce/MonthlySalesChart.tsx:206 | five strictly ascending years, exactly those within two of the current year |
| MonthlySales.SalesChart.constructor | src/components/ecommerce/MonthlySalesChart.tsx:23-27 | the chart starts on the current year with twelve zero slots, loading and without error |
| MonthlySales.SalesChart.FetchMonthlySales | src/components/ecommerce/MonthlySalesChart.tsx:30-75 | the chart ends in the state `AfterSalesFetch` gives for the selected year |
| MonthlySales.SalesChart.SelectYear | src/components/ecommerce/MonthlySalesChart.tsx:203 | picking a year stores it and fetches for that year |
| PendingVendors.VendorStatusBadge | src/pages/PendingVendors.tsx:148-159 | exact match: approved is green, pending amber, rejected red, anything else default |
| PendingVendors.CapitalisedStatusIsDefault | src/pages/PendingVendors.tsx:149-151 | "Approved" with a capital gets the default colour, since this map is case-sensitive |
| PendingVendors.AfterUsersFetch | src/pages/PendingVendors.tsx:45-67 | a success replaces users and total and leaves the error; a failure shows its message; loading ends |
| PendingVendors.RefusalMessage | src/pages/PendingVendors.tsx:96-99 | a refusal shows the server's message when it is non-empty, else "Failed to approve vendor"; a thrown error shows its own message |
| PendingVendors.AfterApprove | src/pages/PendingVendors.tsx:77-114 | after a success the list is refetched and the modal closed; after a failure the error shows and the modal stays; loading ends either way |
| PendingVendors.RefusalAlwaysExplained | src/pages/PendingVendors.tsx:96-98 | a refused approval always leaves a non-empty message |
| PendingVendors.PendingVendorsPage.constructor | src/pages/PendingVendors.tsx:33-43 | the page starts loading, on page 1, with status "approved", no notes, no selection and a closed modal |
| PendingVendors.PendingVendorsPage.TotalPages | src/pages/PendingVendors.tsx:121 | the page count holds every vendor at five a page |
| PendingVendors.PendingVendorsPage.GoToPage | src/pages/PendingVendors.tsx:131-135 | the page changes exactly when the target lies in `1..totalPages` |
| PendingVendors.PendingVendorsPage.ChangeSearchTerm | src/pages/PendingVendors.tsx:210 | typing stores the search term and changes nothing else |
| PendingVendors.PendingVendorsPage.SubmitSearch | src/pages/PendingVendors.tsx:179-182 | submitting the search form resets the page to 1 |
| PendingVendors.PendingVendorsPage.FetchUsers | src/pages/PendingVendors.tsx:45-67 | the page ends in the state `AfterUsersFetch` gives |
| PendingVendors.PendingVendorsPage.OpenModalForVendor | src/pages/PendingVendors.tsx:125-129 | remembers the vendor and opens the review modal |
| PendingVendors.PendingVendorsPage.HandleApprove | src/pages/PendingVendors.tsx:70-115 | without a selected vendor (none, or the falsy id 0) nothing is sent and nothing changes; otherwise the request carries the vendor, status and notes, and the page ends as `AfterApprove` says; the delete-modal flag never changes |

## Left out

- HTTP, `fetch`/`axios`, the bearer token and `localStorage` are not modelled. Every response, and every thrown error, is a parameter of the handler that awaits it. URLs and query-string text are not built; the query is a record.
- Concurrency is not modelled. This covers `Promise.all` over the two payout requests (both are given together, as one response), the parallel uploads, and stale responses that arrive out of order. Each handler runs to completion in one step.
- The upload and product-creation part of `handleSave` (BasicTableThree.tsx:246 onwards) is not modelled, nor are the product, category and delete requests. The model stops where the checks pass.
- `fetchProducts` reading `data.data.products` is not modelled; it is plain I/O.
- JSX, rendering, CSS and the chart configuration are not modelled. Neither are `URL.createObjectURL` previews, `console`, `alert` and the dropdown of the sales chart.
- Locale formatting is not modelled: `toLocaleDateString`, `Intl.NumberFormat` and `toFixed`. `Payouts.FormatDate` keeps the ISO string where the page shows a localised date.
- Payouts.Balance: `None` stands for a missing balance field (`undefined`). A server that sends `available_balance: null` would make `Number(amount) > null` compare the amount with 0, so every positive amount would be refused; that value is not modelled.
- JsNumbers.ParseFloat: does not skip leading whitespace and does not read exponents or `Infinity`, like `JsNumbers.ToNumber`. The texts it reads here (stripped currency and price fields) are affected only when they hold such forms.
- Common.ToLower: folds ASCII capitals only; other Unicode letters are kept. The statuses it lower-cases are ASCII words.
- JsNumbers.ToNumber: covers decimal literals `[+-]?d*(.d*)?` only. It does not trim whitespace and does not read exponents, hexadecimal, binary, octal or `Infinity`, so such strings are NaN in the model. Numbers are exact reals, not IEEE doubles, so rounding is not modelled.
- Metrics: the card's inputs are taken as numbers or strings as the server sends them. A non-string revenue, on which `.replace` would throw, is not modelled.
- OrdersTable.PageInfo: the page size is positive. A server that sends `limit: 0` would make the fallback page count divide by zero; that case is not modelled.
- OrdersTable.Normalise: when the envelope's `data` is an object rather than an array, the table stores it and rendering would fail on `flatMap`. The model records this as `NotAList` and does not model the render.
- Orders.RowKey: the key `${order_id}-${itemIndex}` is kept as the pair (id, index). The string, and collisions between ids such as `1-23` and `12-3`, are not modelled.
- MonthlySales.Slot: a fractional month index (for instance `"2024-1.5"`) makes the source write a non-index property of the array. The chart never shows such a property, so the model writes no slot.
- PendingVendors: `setStatus` is never called by the page, so `status` stays "approved". A change of the search term or of `currentPage` (including the reset to page 1 on submitting the search) only triggers a refetch of the same unparameterised request. That refetch is `FetchUsers`; the term and page are never sent.
- The product page's own review modal and status selection (BasicTableThree.tsx:375-387) are not modelled; they only feed the left-out product update request.
- `src/pages/Vendors.tsx` is page composition with no logic, so it is not modelled.
