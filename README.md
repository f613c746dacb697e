# JDS Delivery: invoice calculator, delivery form and login, in Dafny

This project models the core of a small single-page app used by a delivery
service. It has four parts.

- **Invoice calculator** (`invoice.dfy`, module `Invoice`). The user edits a
  list of line items: add, remove, rename and reprice. They set a service fee,
  a delivery fee and a payment method (Cash or GCash, with a GCash account).
  - The total is every item price plus both fees, plus a fixed ten-peso
    surcharge for GCash.
  - The summary is a receipt text. It has a header, one bullet per item that
    has a name or a positive price, a fallback line when no item qualifies,
    and then the fee, total and payment lines.
  - **Next** hands the summary and the delivery fee to the delivery form.
- **Delivery form** (`delivery.dfy`, module `Delivery`).
  - It has two text inputs, the pickup location and the fee, which are
    prefilled from that handoff, and two dropdowns, rider and admin.
  - The dropdowns offer the distinct non-blank values of two
    columns of a sheet.
  - Submitting checks that no field is empty. It then builds a record with the
    encoder (the logged-in user) and a timestamp, and clears the form after a
    successful send.
- **Login page** (`login.dfy`, module `Login`). It rejects empty fields and
  looks up the first credential matching both fields. On success it writes the
  logged-in flag and the user info to browser storage.
- **App shell** (`shell.dfy`, module `Shell`). It holds the login flag, the
  active page and the handoff payload, and decides which view is shown.
  - Views are mounted only while shown, so each activation starts from its
    initial state. Only the shell's payload survives navigation.

Shared pieces:

- `wrappers.dfy` has the `Option` type.
- `session.dfy` has browser storage, modelled as a string map with
  `getItem`/`setItem`/`removeItem`, and the two storage keys.

How the model represents things:

- **Money.** Money is an exact integer number of centavos. The GCash
  surcharge is `1000`.
- **Formatting.** Both formatting parameters take an amount in centavos.
  - `fmt(n)` stands for the page's peso formatter (`Intl.NumberFormat`) applied
    to n / 100 pesos.
  - `show(n)` stands for JavaScript's `Number.prototype.toString` applied to
    n / 100, which gives the fee prefill. So a 20-peso fee is `show(2000)`, and
    the page shows "20".
- **The summary.** It is a sequence of `Line` values. `Render` gives each
  line's text, and `SummaryText` concatenates them. The imperative
  `GenerateSummary` loop is proved equal to that text.
- **State-changing components.** Components whose handlers update state are
  classes. Each handler is a method whose postcondition gives the new state.
- **Pure parts.** The lookup, the dedup, the list filters and maps, and the
  total are functions with lemmas about them.

The price and fee inputs carry only an HTML `min="0"` hint and are parsed
with `parseFloat(...) || 0`, so a typed negative amount gets through. The
model therefore allows any integer amount, as the code does.
`Invoice.SkippedItemsInTotal` shows what this means:

- A nameless item with a non-positive price gets no bullet, but it is still
  counted in the Total.
- The Total equals the bullet prices plus the fees when no price is
  negative (`Invoice.TotalMatchesListedItems`).

## Model

| member | source | states |
|---|---|---|
| Invoice.MethodName | src/components/InvoiceCalculator.tsx:122 | the Payment Method line names "Cash" exactly when the method is Cash |
| Invoice.RenameById | src/components/InvoiceCalculator.tsx:78-82 | same length; every item with the id gets the new name, every other item is unchanged, order kept |
| Invoice.RepriceById | src/components/InvoiceCalculator.tsx:84-88 | same length; every item with the id gets the new price, every other item is unchanged, order kept |
| Invoice.RemoveById | src/components/InvoiceCalculator.tsx:74-76 | the `filter` of removeProduct: never longer than the list, and no item left carries the removed id (the full membership, order and uniqueness facts are the Remove* lemmas below) |
| Invoice.RemoveByIdMembers | src/components/InvoiceCalculator.tsx:74-76 | the items left after removal are exactly the items whose id differs |
| Invoice.RemoveUniqueId | src/components/InvoiceCalculator.tsx:74-76 | with unique ids, removing item k's id deletes exactly item k and keeps the rest in order |
| Invoice.RemoveAbsentId | src/components/InvoiceCalculator.tsx:74-76 | removing an id no item carries leaves the list unchanged |
| Invoice.RemovePreservesUniqueIds | src/components/InvoiceCalculator.tsx:74-76 | removal keeps the ids unique |
| Invoice.RemoveButtonKeepsListNonEmpty | src/components/InvoiceCalculator.tsx:206-209 | the remove button, offered only with more than one item, removes exactly one item and never empties the list |
| Invoice.AddThenRemove | src/components/InvoiceCalculator.tsx:68-76 | adding an item under counter+1 and removing that id restores the list |
| Invoice.SumPrices | src/components/InvoiceCalculator.tsx:63 | the `reduce` over the prices: with no negative price the sum is non-negative and at least every single price; SumPricesAppend splits it over concatenation |
| Invoice.CalculateTotal | src/components/InvoiceCalculator.tsx:62-66 | with no negative price the total is at least both fees plus the GCash surcharge; the TotalAfter* lemmas give its change under each edit, and TotalMatchesListedItems ties it to the bullet prices |
| Invoice.TotalAfterAdd | src/components/InvoiceCalculator.tsx:62-72 | a newly added item does not change the total |
| Invoice.TotalAfterRemove | src/components/InvoiceCalculator.tsx:62-76 | removing an item lowers the total by exactly its price |
| Invoice.TotalAfterReprice | src/components/InvoiceCalculator.tsx:62-88 | repricing an item moves the total by the difference of the prices |
| Invoice.TotalAfterRename | src/components/InvoiceCalculator.tsx:62-82 | renaming never changes the total |
| Invoice.SummaryLines | src/components/InvoiceCalculator.tsx:90-128 | the receipt's lines in order; their counts, order, labels and amounts are stated by SummaryLineCounts, SummaryInLayoutOrder, BulletsFollowItems, BulletLabels and SummaryAmounts |
| Invoice.SummaryText | src/components/InvoiceCalculator.tsx:90-128 | the receipt text, the rendered lines joined; SummaryTextShape gives its first line and final newline, and GenerateSummary is proved to build it |
| Invoice.Render | src/components/InvoiceCalculator.tsx:97-124 | every summary line is non-empty and ends in a newline |
| Invoice.TextEndsInNewline | src/components/InvoiceCalculator.tsx:90-127 | any non-empty run of summary lines ends in a newline |
| Invoice.SummaryTextShape | src/components/InvoiceCalculator.tsx:90-127 | the summary starts with the line "Invoice", has more lines after it, and ends in a newline |
| Invoice.BulletsFollowItems | src/components/InvoiceCalculator.tsx:95-101 | one bullet per item with a name or positive price, nothing else, and item i's bullet comes after those of earlier listed items |
| Invoice.BulletLabels | src/components/InvoiceCalculator.tsx:96-97 | each bullet shows a listed item's price and its name, or "Unnamed Product" when the name is empty |
| Invoice.NoBulletsIffNoneListed | src/components/InvoiceCalculator.tsx:95-107 | there are no bullets exactly when no item has a name or a positive price |
| Invoice.SummaryLineCounts | src/components/InvoiceCalculator.tsx:90-128 | counts of each line kind: one header; one bullet per listed item; "No products added." iff the list is empty; "No product details entered." iff it is non-empty with nothing listed; Service Fee iff the fee is positive; exactly one Delivery Fee, Total and Payment Method line; GCash Fee iff GCash; GCash Account iff GCash with an account chosen |
| Invoice.SummaryInLayoutOrder | src/components/InvoiceCalculator.tsx:90-128 | the lines appear in the fixed order: header, bullets, fallback, Service Fee, Delivery Fee, GCash Fee, Total, Payment Method, GCash Account |
| Invoice.SummaryAmounts | src/components/InvoiceCalculator.tsx:109-125 | the Service and Delivery Fee lines show the fees, the Total line shows calculateTotal, the Payment Method line the method, the GCash Account line the selected account |
| Invoice.SkippedItemsInTotal | src/components/InvoiceCalculator.tsx:62-101 | the total of all prices is at most the sum of bullet prices, and equal when no price is negative |
| Invoice.TotalMatchesListedItems | src/components/InvoiceCalculator.tsx:62-119 | with no negative price, the Total is the bullet prices plus both fees plus the GCash surcharge |
| Invoice.GenerateSummary | src/components/InvoiceCalculator.tsx:90-128 | the loop builds exactly the summary text of the line layout |
| Invoice.InvoiceCalculator.constructor | src/components/InvoiceCalculator.tsx:21-26 | one empty item with id 1, counter 1, zero fees, Cash, no account |
| Invoice.InvoiceCalculator.AddProduct | src/components/InvoiceCalculator.tsx:68-72 | appends an empty item with id counter+1, bumps the counter to it, the id was never issued before, and ids stay unique and at most the counter |
| Invoice.InvoiceCalculator.RemoveProduct | src/components/InvoiceCalculator.tsx:74-76 | the list becomes the filter by id; ids stay unique |
| Invoice.InvoiceCalculator.UpdateProductName | src/components/InvoiceCalculator.tsx:78-82 | the list becomes the rename map; nothing else changes |
| Invoice.InvoiceCalculator.UpdateProductPrice | src/components/InvoiceCalculator.tsx:84-88 | the list becomes the reprice map; nothing else changes |
| Invoice.InvoiceCalculator.SetServiceFee | src/components/InvoiceCalculator.tsx:240 | only the service fee changes |
| Invoice.InvoiceCalculator.SetDeliveryFee | src/components/InvoiceCalculator.tsx:259 | only the delivery fee changes |
| Invoice.InvoiceCalculator.SetPaymentMethod | src/components/InvoiceCalculator.tsx:275 | only the payment method changes |
| Invoice.InvoiceCalculator.SelectGCashAccount | src/components/InvoiceCalculator.tsx:291 | only the selected account changes |
| Invoice.InvoiceCalculator.Next | src/components/InvoiceCalculator.tsx:320 | hands over exactly the summary text of the current state and the current delivery fee |
| Delivery.WithField | src/components/DeliveryForm.tsx:197-203 | the named field takes the value and the other three keep theirs |
| Delivery.PrefilledFields | src/components/DeliveryForm.tsx:61-78 | a fresh form holds the summary as pickup (empty stays empty), the fee's string form whenever a fee is given (0 included), and no rider or admin |
| Delivery.MissingFieldIffSomeFieldEmpty | src/components/DeliveryForm.tsx:141 | the submit check fails exactly when some field is empty |
| Delivery.Encoder | src/components/DeliveryForm.tsx:157 | the encoder is the username when present and non-empty, otherwise "Unknown" |
| Delivery.BuildSubmission | src/components/DeliveryForm.tsx:152-159 | the submission record; SubmissionCopiesForm states that it carries the four fields verbatim, the encoder and the timestamp |
| Delivery.SubmissionCopiesForm | src/components/DeliveryForm.tsx:152-159 | the record carries the four fields verbatim, the encoder and the timestamp |
| Delivery.Candidates | src/components/DeliveryForm.tsx:108-110 | the map and filter over one column; CandidatesMembers states which values it keeps |
| Delivery.Distinct | src/components/DeliveryForm.tsx:107-111 | the `[...new Set(...)]` spread; DistinctMembers and DistinctKeepsFirstOccurrenceOrder state its contents and order |
| Delivery.Options | src/components/DeliveryForm.tsx:107-118 | the riders or admins list; OptionsSpec states it has no duplicates and holds exactly the present non-blank values, untrimmed |
| Delivery.DistinctMembers | src/components/DeliveryForm.tsx:107-111 | the Set spread keeps exactly the values of its input, each once |
| Delivery.DistinctKeepsFirstOccurrenceOrder | src/components/DeliveryForm.tsx:107-111 | the Set spread lists values in order of first occurrence |
| Delivery.CandidatesMembers | src/components/DeliveryForm.tsx:108-110 | the map and filter keep exactly the column values that are present and not blank after trimming |
| Delivery.OptionsSpec | src/components/DeliveryForm.tsx:107-118 | a dropdown has no duplicates and holds exactly the present non-blank values of its column, untrimmed |
| Delivery.DeliveryForm.constructor | src/components/DeliveryForm.tsx:26-78 | mount: the empty form with both prefill effects applied, empty lists, loading, no error or success |
| Delivery.DeliveryForm.PrefillTransaction | src/components/DeliveryForm.tsx:61-68 | copies a non-empty summary into the pickup field; nothing else changes |
| Delivery.DeliveryForm.PrefillDeliveryFee | src/components/DeliveryForm.tsx:71-78 | copies the fee's string form into the fee field whenever a fee is given; nothing else changes |
| Delivery.DeliveryForm.LoadDropdownData | src/components/DeliveryForm.tsx:96-135 | on a parsed sheet, riders and admins become the dropdown options; on failure, the load error; loading ends either way |
| Delivery.DeliveryForm.HandleInputChange | src/components/DeliveryForm.tsx:197-203 | sets exactly the named field |
| Delivery.DeliveryForm.HandleSubmit | src/components/DeliveryForm.tsx:137-195 | an empty field gives "Please fill in all fields" with no submission and no field change; otherwise the record is sent, then success clears the form or failure keeps it with "Failed to submit. Please try again.", and submitting ends false |
| Login.FindUser | src/components/LoginPage.tsx:55-57 | a found entry is in the list and matches both username and password |
| Login.FindUserSucceedsIffSomeMatch | src/components/LoginPage.tsx:55-59 | the lookup succeeds exactly when some entry matches both fields |
| Login.FindUserReturnsFirstMatch | src/components/LoginPage.tsx:55-57 | the lookup returns the first matching entry |
| Login.LoginPage.constructor | src/components/LoginPage.tsx:8-11 | empty fields, no error, not loading |
| Login.LoginPage.SetUsername | src/components/LoginPage.tsx:94 | only the username changes |
| Login.LoginPage.SetPassword | src/components/LoginPage.tsx:113 | only the password changes |
| Login.LoginPage.HandleSubmit | src/components/LoginPage.tsx:41-72 | empty fields give "Please enter both username and password" with loading and storage unchanged; otherwise success iff the lookup finds an entry, storing the flag "true" and that entry's username and role before the callback; failure gives "Invalid username or password", stops loading and stores nothing |
| Shell.StartupLogsInIffFlagTrue | src/App.tsx:17-23 | at startup the user is logged in iff the stored flag is exactly "true", and loading ends |
| Shell.ScreenOf | src/App.tsx:43-98 | the view the shell renders; ScreensPartition states which state shows which view |
| Shell.ScreensPartition | src/App.tsx:43-98 | once loaded: delivery view iff logged in on the delivery page, invoice view iff logged in on the invoice page, login page iff logged out |
| Shell.PayloadSurvivesWithoutHandoff | src/App.tsx:25-40 | tabs, Back, login and logout never change the payload |
| Shell.ReenteringDeliveryReplaysPayload | src/App.tsx:36-94 | after a handoff, whenever the delivery view is shown again without a new handoff it gets the same summary and fee, also across logout and login |
| Shell.HandoffPrefillsDeliveryForm | src/App.tsx:36-40 | Next followed through the shell prefills the new delivery form with the whole summary and the fee's string form |
| Shell.DeliveryTabBeforeHandoff | src/App.tsx:10-88 | after startup and any run of tabs, Back, logins and logouts without a handoff, opening the delivery view prefills the fee with the string form of 0 and leaves the pickup empty |
| Shell.App.constructor | src/App.tsx:10-14 | logged out, loading, invoice page, payload ("", 0) |
| Shell.App.CheckStoredLogin | src/App.tsx:17-23 | reads the stored flag and applies the startup step |
| Shell.App.HandleLoginSuccess | src/App.tsx:25-27 | only the login flag is set |
| Shell.App.HandleLogout | src/App.tsx:29-34 | removes both storage keys, logs out and returns to the invoice page; the payload is kept |
| Shell.App.HandleNavigateToDelivery | src/App.tsx:36-40 | stores the summary and the fee and opens the delivery page |
| Shell.App.SetActivePage | src/App.tsx:59 | only the active page changes (tabs and Back) |
| Session.Storage.GetItem | src/App.tsx:18 | `localStorage.getItem`: a value exactly when the key is stored, and then the stored value |
| Session.Storage.SetItem | src/components/LoginPage.tsx:61-65 | `localStorage.setItem`: the key now maps to the value and every other key is unchanged |
| Session.Storage.RemoveItem | src/App.tsx:30-31 | `localStorage.removeItem`: the key is gone and every other key is unchanged |

## Left out

- Rendering (JSX, styling, icons) and the application bootstrap are not modelled.
- Formatting is abstract:
  - `Intl.NumberFormat('en-PH')` digit grouping and rounding, and `Number.prototype.toString`, are the parameters `fmt` and `show`. Both take centavos and stand for the JavaScript function applied to the amount in pesos (n / 100).
  - Money is exact centavos, so floating-point summation error is not modelled.
  - `parseFloat(...) || 0` on the fee and price inputs is not modelled; handlers receive the parsed amount.
- Network and parsing are not modelled:
  - fetching the sheet and CSV parsing: `LoadDropdownData` receives the parsed rows, or `None` for a fetch or parse failure;
  - the submission POST: its outcome is the `delivered` parameter of `HandleSubmit`.
- Delivery.DeliveryForm.HandleSubmit: the await is modelled as atomic, so the form is never seen with `submitting` true. The disabled submit button during a send is not modelled.
- JSON is not modelled:
  - `JSON.stringify` of the stored user info is the parameter `stringify`;
  - `JSON.parse` of it in the views is replaced by the already-decoded `storedUser` of the delivery form's constructor.
- The user info that the invoice view reads only for display is not modelled.
- Timers are not modelled:
  - the 500 ms login delay: `Login.LoginPage.HandleSubmit` runs the lookup at once;
  - the auto-hiding of error and success messages;
  - the "copied" message.
- Toasts, console logging, the clipboard copy of the summary, and `new Date().toISOString()` are not modelled. The timestamp is a parameter.
- The credential list is the parameter `users` of `Login.LoginPage.HandleSubmit`. The hardcoded GCash account list is not modelled: `Invoice.InvoiceCalculator.SelectGCashAccount` accepts any string, while the page's dropdown offers only "" and the listed accounts.
- Delivery.DeliveryForm.HandleInputChange: rider and admin values are not restricted to the loaded dropdown options, and changes are not blocked while `loading` (the page disables the dropdowns then); any string is accepted for every field.
- The helper text under the login form and the unused `subtotal` accumulator of the summary loop are not modelled.
- Login.LoginPage.HandleSubmit: on success `loading` stays true. The page is then unmounted by the shell; the model leaves it set.
