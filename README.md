# Invoice generator: totals, drafts, line items, saved list and form tabs

A verified Dafny model of the logic inside a browser invoice generator. The
model covers four parts of the application:

- **Totals calculator** (`src/app/page.tsx`, module `Totals`). The subtotal is
  the sum of the line totals. Tax is a fixed 10 %. The discount depends on its
  type: `percentage`, `fixed`, `taxi`, or anything else. The total is
  subtotal + tax − discount, and nothing stops it going below zero. The module
  also maps the working document to the preview's shape.
- **Save draft** (`src/app/page.tsx`, module `InvoiceStorage`). The browser
  store's `"invoices"` entry is a class `Storage` whose field is
  `Option<seq<InvoiceSummary>>`; `None` means the entry is absent.
  `SaveDraft` reduces the document to a summary record with status `"draft"`
  and appends it to the stored list. An absent entry counts as an empty list.
  The save path recomputes the total with a copy of the discount rule that
  has no `taxi` branch. `Totals.DraftTotalOmitsTaxi` proves the consequence:
  for `taxi` the saved total is the previewed total plus a tenth of the
  subtotal, and for every other type the two totals agree.
- **Line-item editor** (`src/components/InvoiceItemsForm.tsx`, module
  `InvoiceItems`). Add a blank line, remove lines by id, edit a line's
  description, quantity or price, and compute the subtotal. A quantity or
  price edit recomputes `total = quantity * price`. Every operation keeps the
  invariant that each line's total is its quantity times its price.
- **Saved-invoice list** (`src/app/invoices/page.tsx`, module `InvoiceList`).
  On first run it seeds three sample records. Deleting is a two-step dialog:
  select, then confirm. The module also gives the status badge's colour
  classes and its capitalised label.
- **Invoice form** (`src/components/InvoiceForm.tsx`, module `InvoiceForm`).
  Four tabs with next and previous buttons. Field-by-field updates of the
  document. The starting document is the defaults shallow-merged with the
  caller's initial data.

`ListOps.Filter` models the order-preserving `filter` that both deletes use.

Money is `real`, so arithmetic is exact. Ids and dates are parameters:
the ids `Math.random` and `Date.now` would generate, and the dates
`new Date()` would give. Status, discount type and tab are strings, as in the
source, so the "any other value" branches are modelled too.

## Model

| member | source | states |
|---|---|---|
| Totals.SubtotalAppend | src/app/page.tsx:114-117 | the subtotal of a concatenation is the sum of the parts' subtotals, so the empty list gives 0 and one appended line adds its total |
| Totals.SubtotalPointwise | src/components/InvoiceItemsForm.tsx:88-90 | the subtotal depends only on the line totals, position by position |
| Totals.SubtotalNonNegative | src/app/page.tsx:114-117 | lines with non-negative totals give a non-negative subtotal |
| Totals.ComputeTotals | src/app/page.tsx:114-137 | subtotal is the sum of line totals; tax rate is the constant 10 and tax is a tenth of the subtotal; percentage with value > 0 gives value percent of the subtotal, fixed with value > 0 gives the value, taxi gives a tenth of the subtotal whatever the value, every other case 0; total is subtotal + tax − discount |
| Totals.ComputeDraftTotal | src/app/page.tsx:184-206 | the save path's total: subtotal plus a tenth, minus value percent (percentage, value > 0) or the value (fixed, value > 0), with no discount in every other case including taxi |
| Totals.DraftTotalOmitsTaxi | src/app/page.tsx:122-206 | for discount type taxi the saved total is subtotal + tax, the preview total is the subtotal, and they differ by a tenth of the subtotal; for every other type the saved and previewed totals are equal |
| Totals.OversizedFixedDiscountGoesNegative | src/app/page.tsx:137 | for any subtotal, a fixed discount above subtotal + tax makes both the preview total and the saved total negative: there is no clamp |
| Totals.ToPreview | src/app/page.tsx:140-174 | the preview copies every shown field unchanged: items as they are; company name, address, city, country, email, phone and logo, with zip as postalCode; client fields under plain names (clientName as name, clientZip as postalCode, and so on); invoice number, both dates and notes; the document's discount type and value. Its discount and total are the previewed ones, and its totals agree with its own items and discount fields |
| Totals.PreviewDropsFields | src/app/page.tsx:140-174 | the company state and website, client state and payment-terms choice never reach the preview: changing them leaves the preview equal |
| Totals.DefaultItemsSubtotal | src/app/page.tsx:82-97 | the two default lines satisfy total = quantity × price and sum to 1250 |
| Totals.HomeDefaultsTotals | src/app/page.tsx:59-111 | the page's starting document previews as subtotal 1250, tax 125, discount 0, total 1375, and saves with total 1375 |
| InvoiceStorage.DraftRecordKeeps | src/app/page.tsx:213-221 | two documents give the same draft record exactly when they agree on invoice number, client name, invoice date, due date and saved total; everything else is lost |
| InvoiceStorage.Storage.SaveDraft | src/app/page.tsx:180-231 | the new record has the generated id, status draft, and the document's number, client name, invoice date and due date; the stored list is the previous list (empty if absent) with exactly this record appended, so earlier records are unchanged and an absent entry becomes a one-record list |
| InvoiceStorage.FirstDraftScenario | src/app/page.tsx:180-227 | on an empty store, lines 2 × 100 and 1 × 50 with no discount preview as subtotal 250, tax 25, discount 0, total 275, and the store then holds exactly one record: the new id, status draft, total 275 |
| InvoiceItems.ApplyEditEffect | src/components/InvoiceItemsForm.tsx:68-79 | an edit keeps the id; a description edit keeps quantity, price and total; a quantity (price) edit sets that field, keeps the other, and sets the total from the new value and the other field's old value, so the line invariant then holds whatever it was before |
| InvoiceItems.WithoutItemSpec | src/components/InvoiceItemsForm.tsx:57-58 | a line survives removal exactly when it was present and has another id; no survivor has the id; an unknown id leaves the list unchanged; the line invariant is kept |
| InvoiceItems.WithoutItemAppend | src/components/InvoiceItemsForm.tsx:57-58 | removal distributes over concatenation, so survivors keep their original order |
| InvoiceItems.UpdatedItemsSpec | src/components/InvoiceItemsForm.tsx:68-82 | an update keeps the length and every id, leaves lines with another id unchanged, applies the edit to every line with the id, and keeps the line invariant |
| InvoiceItems.DescriptionEditKeepsSubtotal | src/components/InvoiceItemsForm.tsx:70-90 | a description edit never changes the subtotal |
| InvoiceItems.AddedItemSpec | src/components/InvoiceItemsForm.tsx:44-53 | adding grows the list by one at the end with the prefix unchanged, keeps the line invariant and leaves the subtotal unchanged |
| InvoiceItems.ItemsEditor.constructor | src/components/InvoiceItemsForm.tsx:23-42 | the editor starts with exactly the lines it is given |
| InvoiceItems.ItemsEditor.AddItem | src/components/InvoiceItemsForm.tsx:44-55 | the state becomes the old list plus the blank line (given id, empty description, quantity 1, price 0, total 0); the reported list is the stored one; the invariant is preserved |
| InvoiceItems.ItemsEditor.RemoveItem | src/components/InvoiceItemsForm.tsx:57-61 | the state becomes the old list without the lines of that id; the reported list is the stored one; the invariant is preserved |
| InvoiceItems.ItemsEditor.UpdateItem | src/components/InvoiceItemsForm.tsx:63-86 | the state becomes the old list with the edit applied to the lines of that id; the reported list is the stored one; the invariant is preserved |
| InvoiceItems.ItemsEditor.CalculateSubtotal | src/components/InvoiceItemsForm.tsx:88-90 | the editor's subtotal is the sum of its line totals, and is non-negative when every line total is |
| InvoiceList.WithoutInvoiceSpec | src/app/invoices/page.tsx:90-92 | a record survives a delete exactly when it was present and has another id; no survivor has the id; an unknown id changes nothing; deleting twice equals deleting once |
| InvoiceList.WithoutInvoiceAppend | src/app/invoices/page.tsx:90-92 | deleting distributes over concatenation, so the remaining records keep their order |
| InvoiceList.StatusColor | src/app/invoices/page.tsx:100-111 | green exactly for paid, blue exactly for sent, red exactly for overdue, gray exactly for every other value |
| InvoiceList.StatusLabel | src/app/invoices/page.tsx:162-163 | the label has the status's length, its first character upper-cased and the rest unchanged |
| InvoiceList.StatusLabelFacts | src/app/invoices/page.tsx:162-163 | capitalising is idempotent, and the four statuses read Draft, Sent, Paid, Overdue |
| InvoiceList.DraftIsGray | src/app/invoices/page.tsx:100-111 | draft shares the gray badge with unknown statuses |
| InvoiceList.InvoicesPage.constructor | src/app/invoices/page.tsx:38-40 | the page starts on the given store with an empty list, the dialog closed and no selection |
| InvoiceList.InvoicesPage.LoadInvoices | src/app/invoices/page.tsx:43-81 | with a stored list, shows it as is and writes nothing; with none, shows exactly the three samples (ids 1, 2, 3; paid, sent, draft) and stores the same list |
| InvoiceList.InvoicesPage.HandleDeleteInvoice | src/app/invoices/page.tsx:83-86 | records the selection and opens the dialog; the list is unchanged |
| InvoiceList.InvoicesPage.CancelDelete | src/app/invoices/page.tsx:229 | closes the dialog; list and selection unchanged |
| InvoiceList.InvoicesPage.ConfirmDelete | src/app/invoices/page.tsx:88-98 | with a truthy selection, removes every record with that id, stores exactly the displayed list, closes the dialog and clears the selection; with no selection (or the empty string) changes nothing |
| InvoiceList.SaveThenList | src/app/invoices/page.tsx:43-46 | after a draft is saved on a fresh browser, the list page shows exactly that one draft record and no samples |
| InvoiceList.SaveThenDelete | src/app/invoices/page.tsx:83-98 | saving a draft and then deleting it with confirmation leaves an empty stored list |
| InvoiceForm.TabSteps | src/components/InvoiceForm.tsx:157-167 | next moves one tab right and stops at payment, previous moves one tab left and stops at company, both stay on the four tabs, and an unknown value is left unchanged |
| InvoiceForm.TabRoundTrips | src/components/InvoiceForm.tsx:157-167 | previous after next is the identity except on payment; next after previous is the identity except on company |
| InvoiceForm.NavigationStaysOnTabs | src/components/InvoiceForm.tsx:157-167 | from any of the four tabs (in particular the initial company tab) every sequence of next/previous presses ends on one of the four tabs |
| InvoiceForm.NextReachesPayment | src/components/InvoiceForm.tsx:157-161 | three or more presses of next from company end on payment |
| InvoiceForm.WithClientFieldSpec | src/components/InvoiceForm.tsx:125-129 | the updated client field reads back as written and every other field as before; writing a field's own value changes nothing |
| InvoiceForm.PaymentEditFrame | src/components/InvoiceForm.tsx:144-148 | exactly the edited payment-terms field takes the new value; the other four keep theirs |
| InvoiceForm.PaymentEditTotals | src/components/InvoiceForm.tsx:144-155 | a due-date, payment-terms or notes edit leaves the previewed totals unchanged |
| InvoiceForm.MergeInitialSpec | src/components/InvoiceForm.tsx:66-117 | each top-level key present in the initial data wins whole, an absent key keeps the default; no initial data gives the defaults, a full document gives itself, and merging again changes nothing |
| InvoiceForm.InvoiceFormState.constructor | src/components/InvoiceForm.tsx:64-117 | the form opens on the company tab with the defaults merged with the initial data |
| InvoiceForm.InvoiceFormState.UpdateCompanyInfo | src/components/InvoiceForm.tsx:119-123 | replaces only the company info; reports the stored document; the tab is unchanged |
| InvoiceForm.InvoiceFormState.UpdateClientDetails | src/components/InvoiceForm.tsx:125-136 | changes only that client field; every other client field and every other part of the document are unchanged; reports the stored document |
| InvoiceForm.InvoiceFormState.UpdateInvoiceItems | src/components/InvoiceForm.tsx:138-142 | replaces only the items; reports the stored document |
| InvoiceForm.InvoiceFormState.UpdatePaymentTerms | src/components/InvoiceForm.tsx:144-155 | changes only the edited payment-terms field; everything else is unchanged; reports the stored document |
| InvoiceForm.InvoiceFormState.HandleNextTab | src/components/InvoiceForm.tsx:157-161 | the tab becomes its successor (payment stays payment), stays on the four tabs, and the document is unchanged |
| InvoiceForm.InvoiceFormState.HandlePrevTab | src/components/InvoiceForm.tsx:163-167 | the tab becomes its predecessor (company stays company), stays on the four tabs, and the document is unchanged |
| InvoiceForm.InvoiceFormState.SelectTab | src/components/InvoiceForm.tsx:175-181 | a click on a tab trigger opens that tab; the document is unchanged |

## Left out

- Rendering, Tailwind layout, dialogs and buttons. Only the state they
  change is modelled.
- Browser storage as a string store and JSON serialisation. The `"invoices"`
  entry is an `Option` of the list, and the JSON round trip is taken as the
  identity. A stored value that fails to parse is not modelled.
- Generation of ids and dates (`Math.random`, `Date.now`, `new Date()`).
  These are caller-supplied parameters.
- IEEE-754 arithmetic and the `toFixed(2)` display. Money is an exact `real`,
  so rounding differences between the preview's and the save path's sums do
  not appear.
- `Number(...)`/`parseFloat(...) || 0` conversions of input text. Edits carry
  the already-converted number.
- `updateItem` with the `id` or `total` key. The type allows it but no caller
  sends it; edits are description, quantity and price.
- Keys outside the declared fields in `updateClientDetails`/`updatePaymentTerms`
  (`[field]: value` with an arbitrary string). Fields are the declared ones.
- The form's default payment terms have no `discountType`/`discountValue`
  entries. The model stores `"none"` and 0 there; every discount test treats
  those exactly like the missing values.
- A key present in `initialData` but holding `undefined`.
- InvoiceList.StatusLabel: upper-cases ASCII letters only, because
  `toUpperCase` on other characters (and expansions such as ß to SS) is not
  modelled.
- The preview page (URL hand-off, print, PDF export through an external
  library) and the component forms that only forward `(field, value)` events.
- The view and edit routes for a stored invoice (`/invoices/[id]`,
  `/invoices/edit/[id]`): lookup, update and hydration of a record are not
  part of this model.
- `console.log`, `alert` and `handleEmailClient`, which have no effect on state.
