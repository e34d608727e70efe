# QuickInvoice: a verified model of the invoice store and its workflows

QuickInvoice lets a user upload invoice files, has an external AI service extract their
fields, shows the results in a dashboard, and lets the user review, correct, save and
export each invoice. Everything is kept in one browser storage slot that holds the whole
list of invoice records.

This Dafny project models the parts of the application that carry logic:

- `invoice_types.dfy` (module `InvoiceTypes`): the stored invoice record, its four
  statuses, the extracted data with its line items, and the record invariant (`Completed`
  implies data; `Error` implies a message and no data).
- `invoice_store.dfy` (module `InvoiceStore`): the store. List functions state what each
  operation does to the collection: first match, replacement of the first match, and
  filtering. Class `Store` holds the slot (`None` until the first write) and performs
  `getInvoices`, `saveInvoices`, `addInvoice`, `updateInvoice`, `getInvoiceById` and
  `deleteInvoice` as read, change and write back.
- `invoice_upload.dfy` (module `InvoiceUpload`): the upload form. It covers acceptance of
  a file batch, one `Pending` record per file, and the sequential processing of the files.
  Each file ends in a `Completed` or `Error` record. Each file's progress entry moves
  through pending, uploading, processing and completed or error.
- `invoice_view.dfy` (module `InvoiceView`): the review view. It covers the form schema
  and the issues it reports, the form loaded from a record, saving, the export guard and
  file name, and appending and removing line items.
- `dashboard_summary.dfy` (module `DashboardSummary`): the dashboard's invoice count and
  total value.
- `invoice_list.dfy` (module `InvoiceList`): the invoice table. It covers the status badge,
  the cell fallbacks, the rows in store order, and the refresh after a delete.

Reading a file, the extraction service, fresh ids and clock readings are not computed by
the model. They arrive as inputs: one `FileRun` per uploaded file, and a `displayDate` for
the loaded form.

Behaviour of the code worth knowing, all of it modelled as written:

- An update overwrites only the first record with the id, not every such record.
- The export file name keeps the part of the file name before the FIRST dot, not the name
  without its extension: `a.b.pdf` gives `a_quickbooks.json`.
- Every final upload record, `Completed` or `Error`, carries as `uploadDate` the time of
  the final write (InvoiceUploadClient.tsx lines 76, 91 and 101), not the time of the add.
- An update for an absent id does not write the slot at all, while a delete always writes it.

## Model

| member | source | states |
|---|---|---|
| InvoiceStore.FirstIndexOf | src/lib/invoice-store.ts:29 | the result is -1 exactly when no record has the id; otherwise the record there has the id and no earlier one does |
| InvoiceStore.Find | src/lib/invoice-store.ts:38 | nothing is found exactly when no record has the id; a found record has the id and is the first record that does |
| InvoiceStore.Replaced | src/lib/invoice-store.ts:29-31 | the length is kept; with the id absent the collection is unchanged; otherwise exactly the first record with the id is overwritten |
| InvoiceStore.Without | src/lib/invoice-store.ts:43 | no record with the id remains; every other record remains; nothing is added |
| InvoiceStore.FindAfterAdd | src/lib/invoice-store.ts:22-25 | looking up a just-added record's id finds that record, even when an older record shares the id |
| InvoiceStore.FindAfterUpdate | src/lib/invoice-store.ts:27-39 | after an update of a present id, the lookup finds the written record |
| InvoiceStore.ReplacedAt | src/lib/invoice-store.ts:29-31 | the replaced position is the first one carrying the id |
| InvoiceStore.WithoutAbsent | src/lib/invoice-store.ts:41-45 | deleting an id no record carries leaves the collection unchanged |
| InvoiceStore.WithoutIdempotent | src/lib/invoice-store.ts:41-45 | deleting twice gives the same collection as deleting once |
| InvoiceStore.WithoutAppend | src/lib/invoice-store.ts:43 | deletion filters each part of a collection independently, so the kept records stay in their relative order |
| InvoiceStore.AddKeepsConsistent | src/lib/invoice-store.ts:22-25 | adding a well-formed record with a fresh id keeps ids unique and records well formed (the store itself does not check ids) |
| InvoiceStore.UpdateKeepsConsistent | src/lib/invoice-store.ts:27-34 | updating with a well-formed record keeps ids unique and records well formed |
| InvoiceStore.DeleteKeepsConsistent | src/lib/invoice-store.ts:41-45 | deleting keeps ids unique and records well formed |
| InvoiceStore.Store.constructor | src/lib/invoice-store.ts:11-12 | before anything is stored the slot is empty and reads give the empty collection |
| InvoiceStore.Store.GetInvoices | src/lib/invoice-store.ts:7-13 | the stored collection, or the empty one when nothing has been stored |
| InvoiceStore.Store.SaveInvoices | src/lib/invoice-store.ts:15-20 | the slot holds exactly the given collection |
| InvoiceStore.Store.AddInvoice | src/lib/invoice-store.ts:22-25 | the new collection is the record followed by the old collection |
| InvoiceStore.Store.UpdateInvoice | src/lib/invoice-store.ts:27-34 | the first record with the id is overwritten and every other position kept; with the id absent the slot is not touched |
| InvoiceStore.Store.GetInvoiceById | src/lib/invoice-store.ts:36-39 | nothing is returned exactly when no stored record has the id; otherwise the first record with it |
| InvoiceStore.Store.DeleteInvoice | src/lib/invoice-store.ts:41-45 | the new collection is the old one without the id's records, and the slot is written |
| InvoiceUpload.ValidateFiles | src/components/features/invoice-upload/InvoiceUploadClient.tsx:20-31 | a batch is accepted exactly when it is non-empty and every file is at most 5242880 bytes and of one of the four MIME types; an empty batch gets the "at least one file" message; with every size within the limit, a rejection carries the type message |
| InvoiceUpload.ValidateEachFile | src/components/features/invoice-upload/InvoiceUploadClient.tsx:23-31 | a non-empty batch is accepted exactly when each of its files alone would be |
| InvoiceUpload.OversizeReportedFirst | src/components/features/invoice-upload/InvoiceUploadClient.tsx:26-30 | an oversized file yields the size message, whatever the types in the batch |
| InvoiceUpload.FinalRecord | src/components/features/invoice-upload/InvoiceUploadClient.tsx:69-106 | a processed file's record keeps id and name, is well formed and terminal; a read failure gives `Error` with "Failed to read file."; extracted data gives `Completed` with that data and no message; an extraction failure gives `Error` with "AI processing failed. " plus the error text and no data |
| InvoiceUpload.PendingRecord | src/components/features/invoice-upload/InvoiceUploadClient.tsx:116-122 | the record added per file carries the file's id, name and the add time, is `Pending` with neither data nor message, and is well formed |
| InvoiceUpload.InitialStatus | src/components/features/invoice-upload/InvoiceUploadClient.tsx:123 | a file's progress entry starts pending at 0 with no message, under the file's id and name |
| InvoiceUpload.Stacked | src/components/features/invoice-upload/InvoiceUploadClient.tsx:114-124 | the records added one by one in front of the store, as many as the batch; their exact layout is `StackedAt` |
| InvoiceUpload.StackedAt | src/components/features/invoice-upload/InvoiceUploadClient.tsx:114-124 | records added one after another end up in front of the store in reverse order: position k holds the k-th record from the end of the batch |
| InvoiceUpload.ProcessStep | src/components/features/invoice-upload/InvoiceUploadClient.tsx:127-131 | processing file i overwrites that file's own record and no other record, older records with the same id included |
| InvoiceUpload.BatchKeepsConsistent | src/components/features/invoice-upload/InvoiceUploadClient.tsx:114-131 | with fresh distinct ids, a processed batch keeps the store consistent and each new record is `Completed` with data or `Error` with a message and no data |
| InvoiceUpload.SecondOfThreeFails | src/components/features/invoice-upload/InvoiceUploadClient.tsx:86-131 | three files with the second failing extraction leave three records, newest first: `Completed`, `Error`, `Completed` |
| InvoiceUpload.Advance | src/components/features/invoice-upload/InvoiceUploadClient.tsx:66-105 | one progress update keeps id and name; only a failure sets the message, to the step's message; progress is 100 exactly in the completed and error phases |
| InvoiceUpload.AdvanceFile | src/components/features/invoice-upload/InvoiceUploadClient.tsx:66-105 | the `prev.map` update: same length, ids and names kept, entries with another id unchanged, entries with the id take the step |
| InvoiceUpload.StatusStep | src/components/features/invoice-upload/InvoiceUploadClient.tsx:66-105 | processing file i changes only the progress entry with that file's id, to its final state |
| InvoiceUpload.StatusLifecycle | src/components/features/invoice-upload/InvoiceUploadClient.tsx:66-105 | a progress entry goes from pending at 0 to uploading at 25, then (when the read succeeds) processing at 50, through legal moves with strictly growing progress to completed or error at 100, with the message for each failure |
| InvoiceUpload.UploadClient.constructor | src/components/features/invoice-upload/InvoiceUploadClient.tsx:44-45 | an empty progress list and no submission running |
| InvoiceUpload.UploadClient.ProcessFile | src/components/features/invoice-upload/InvoiceUploadClient.tsx:65-107 | the store gets the file's final record over the first record with its id; only the entries with that id take the file's progress steps |
| InvoiceUpload.UploadClient.AddPendingRecords | src/components/features/invoice-upload/InvoiceUploadClient.tsx:114-124 | one `Pending` record per file is put in front of the store, the batch reversed; the progress list starts at pending, 0, for each file in order |
| InvoiceUpload.UploadClient.ProcessBatch | src/components/features/invoice-upload/InvoiceUploadClient.tsx:127-131 | processing the files in order turns each file's pending record, wherever it sits in the stack, into its final record and leaves the older records alone; every progress entry ends in its file's final state; the submitting flag is kept |
| InvoiceUpload.UploadClient.OnSubmit | src/components/features/invoice-upload/InvoiceUploadClient.tsx:110-133 | with distinct ids, the store ends as the batch's final records, newest first, followed by the untouched old store; the progress list is each file's final entry, in submission order |
| InvoiceUpload.UploadClient.HandleSubmit | src/components/features/invoice-upload/InvoiceUploadClient.tsx:23-31 | a rejected batch changes nothing, so nothing is read or extracted; an accepted batch is processed as `OnSubmit` states |
| InvoiceView.LineItemIssues | src/components/features/invoice-view/InvoiceViewClient.tsx:20-23 | no issue exactly when every line is described and has a positive amount; every issue names one of the checked lines |
| InvoiceView.FormIssues | src/components/features/invoice-view/InvoiceViewClient.tsx:20-32 | each top-level field (number, vendor, date, line list, total) is flagged exactly when its own rule fails; `FormIssuesEmptyIff` gives the whole-form iff |
| InvoiceView.FormIssuesEmptyIff | src/components/features/invoice-view/InvoiceViewClient.tsx:25-32 | the schema reports no issue exactly when number, vendor and date are filled in, there is a line, every line is valid and the total is positive |
| InvoiceView.IssuesNameExistingLines | src/components/features/invoice-view/InvoiceViewClient.tsx:20-32 | every line-item issue names a line the form has |
| InvoiceView.LoadedForm | src/components/features/invoice-view/InvoiceViewClient.tsx:88-94 | the loaded form always has a line item: the data's lines when there are any, one blank line otherwise; the date is the given display date; number, vendor, total and tax information are copied |
| InvoiceView.BlankLineBlocksSave | src/components/features/invoice-view/InvoiceViewClient.tsx:91-93 | a form loaded from data without lines fails validation until the blank line is filled in |
| InvoiceView.Saved | src/components/features/invoice-view/InvoiceViewClient.tsx:117-121 | the saved record keeps id, file name, upload date and message, carries the form values as data, is `Completed` and well formed |
| InvoiceView.SaveThenFind | src/components/features/invoice-view/InvoiceViewClient.tsx:117-122 | after a save the lookup by id finds the saved record |
| InvoiceView.BeforeFirstDot | src/components/features/invoice-view/InvoiceViewClient.tsx:141 | a dot-free prefix of the name that ends at a dot or at the end of the name |
| InvoiceView.BeforeFirstDotUnique | src/components/features/invoice-view/InvoiceViewClient.tsx:141 | there is exactly one such prefix |
| InvoiceView.ExportFileName | src/components/features/invoice-view/InvoiceViewClient.tsx:141 | the name ends with `_quickbooks.json` after a dot-free prefix of the file name |
| InvoiceView.ExportFileNameCases | src/components/features/invoice-view/InvoiceViewClient.tsx:141 | a dot-free name is kept whole; a leading dot leaves only the suffix; otherwise the name is cut at its first dot |
| InvoiceView.RemovedAt | src/components/features/invoice-view/InvoiceViewClient.tsx:243 | one line fewer; the lines before the index are kept and those after it move up by one |
| InvoiceView.ScreenFor | src/components/features/invoice-view/InvoiceViewClient.tsx:149-176 | loading screen exactly while loading; not-found exactly without a record; the error screen exactly for an `Error` record, with its message; the no-data screen exactly for a non-error record without data |
| InvoiceView.EditFormOnlyForUsableRecords | src/components/features/invoice-view/InvoiceViewClient.tsx:149-176 | the edit form is shown exactly for a loaded record that is not in `Error` and has data |
| InvoiceView.ViewClient.constructor | src/components/features/invoice-view/InvoiceViewClient.tsx:41-57 | no record, the default form, loading |
| InvoiceView.ViewClient.Load | src/components/features/invoice-view/InvoiceViewClient.tsx:64-105 | a found record is kept and, if it has data, loaded into the form, and the edit form is then shown exactly when it is not in `Error` and has data; an absent one redirects, leaves the form alone and, with no record held before, shows not-found |
| InvoiceView.ViewClient.SaveChanges | src/components/features/invoice-view/InvoiceViewClient.tsx:107-123 | without a loaded record nothing changes; otherwise the saved record is written over the first record with its id and becomes the view's record |
| InvoiceView.ViewClient.Submit | src/components/features/invoice-view/InvoiceViewClient.tsx:25-32 | the issues are the schema's; they are empty exactly when the form is valid; only then is the form saved, so a validation error never reaches the store; a save sets the record to the saved one; without a loaded record nothing changes; form, loading and redirect stay as they were |
| InvoiceView.ViewClient.ExportJson | src/components/features/invoice-view/InvoiceViewClient.tsx:131-147 | refused without a record with data; otherwise the current form values under the derived file name |
| InvoiceView.ViewClient.AppendLineItem | src/components/features/invoice-view/InvoiceViewClient.tsx:251 | a blank line is appended at the end and nothing else changes |
| InvoiceView.ViewClient.RemoveLineItem | src/components/features/invoice-view/InvoiceViewClient.tsx:243 | exactly the line at the index is removed; an index past the end changes nothing |
| DashboardSummary.CompletedInvoices | src/components/features/dashboard/DashboardSummary.tsx:17 | exactly the `Completed` records with data are kept, and no more than were stored |
| DashboardSummary.AmountOf | src/components/features/dashboard/DashboardSummary.tsx:22 | a record's total amount whenever it has data, 0 without data (falling back to 0 changes nothing for a present amount) |
| DashboardSummary.Reduce | src/components/features/dashboard/DashboardSummary.tsx:21-24 | folding counted records onto an accumulator adds exactly the reference sum of their amounts |
| DashboardSummary.Summarize | src/components/features/dashboard/DashboardSummary.tsx:15-26 | no more invoices are counted than are stored, and with none counted the total is 0 (so an empty store shows 0 and 0) |
| DashboardSummary.SummarizeMatchesReference | src/components/features/dashboard/DashboardSummary.tsx:16-24 | the filter, count and left-to-right reduce equal a record-by-record count of the counted records and sum of their total amounts |
| DashboardSummary.ReferenceAppend | src/components/features/dashboard/DashboardSummary.tsx:17-24 | count and sum add up over the two parts of a collection |
| DashboardSummary.UncountedChangesNothing | src/components/features/dashboard/DashboardSummary.tsx:17 | adding a pending, processing, failed or data-less record changes neither figure |
| DashboardSummary.CountedAddsItsAmount | src/components/features/dashboard/DashboardSummary.tsx:17-24 | adding a completed record with data adds one invoice and its total amount |
| InvoiceList.StatusVariant | src/components/features/dashboard/InvoiceListClient.tsx:45-57 | `default` exactly for "Completed", `secondary` exactly for "Processing" and "Pending", `destructive` exactly for "Error" |
| InvoiceList.VariantOfEachStatus | src/components/features/dashboard/InvoiceListClient.tsx:45-53 | `Completed` shows `default`, `Pending` and `Processing` show `secondary`, `Error` shows `destructive` |
| InvoiceList.OutlineOnlyForUnknown | src/components/features/dashboard/InvoiceListClient.tsx:54-55 | `outline` is reached exactly by strings naming none of the four statuses |
| InvoiceList.VendorCell | src/components/features/dashboard/InvoiceListClient.tsx:81 | the vendor name, or "N/A" when there is no data or the name is empty |
| InvoiceList.TotalCellOf | src/components/features/dashboard/InvoiceListClient.tsx:82-86 | the total amount whenever there is data, even 0; "N/A" only without data |
| InvoiceList.RowOf | src/components/features/dashboard/InvoiceListClient.tsx:75-86 | a row shows the record's id, file name, date and status name, the badge `getStatusVariant` gives that status (never `outline`), and the vendor and total cells with their fallbacks |
| InvoiceList.Rows | src/components/features/dashboard/InvoiceListClient.tsx:74-86 | one row per record, row i showing record i |
| InvoiceList.NoOutlineRows | src/components/features/dashboard/InvoiceListClient.tsx:79 | no stored record's row gets the `outline` badge |
| InvoiceList.ListClient.constructor | src/components/features/dashboard/InvoiceListClient.tsx:18-19 | an empty table, loading |
| InvoiceList.ListClient.Load | src/components/features/dashboard/InvoiceListClient.tsx:23-26 | the table shows the stored records in store order |
| InvoiceList.ListClient.HandleDelete | src/components/features/dashboard/InvoiceListClient.tsx:28-30 | the store loses the id's records, and the table then equals the store and shows no record with that id |

## Left out

- Browser storage and JSON: the slot is a field, and `localStorage`, `JSON.stringify`, `JSON.parse` and the storage key are not modelled. Without a browser window the source reads nothing and writes nothing; the model always has its slot.
- Concurrency: two tabs writing the slot at once, and the async and await plumbing. Every operation runs to completion, one after another.
- Reading a file into a data URI and the extraction service: their answers are inputs (`FileRun.read`, `FileRun.extraction`). The data URI is not passed on, and an error's text is taken as already converted to a string.
- The correction-suggestion flow: the application never calls it, and it only wraps the AI service.
- Fresh ids from `uuidv4`: the ids are inputs, and `OnSubmit` requires them to be pairwise distinct. Keeping the whole store's ids unique also needs them absent from the store (`BatchKeepsConsistent`).
- Clock readings: `new Date().toISOString()` values are inputs (`addedAt`, `finishedAt`).
- Date handling on load: the conversion of the stored date for the date input is an input (`displayDate`). Date formatting in the table is not modelled.
- Numbers: amounts are `real`. NaN from an empty number input, infinities, `parseFloat` and currency formatting are not modelled.
- The JSON text of the export, the Blob, the download link and the object URL: the export is modelled as the file name plus the form values it serialises.
- Rendering, toasts, the saving flag of the view (`isSaving`), the post-upload form reset and navigation: the redirect for a missing invoice is the `redirected` flag.
- InvoiceUpload.ValidateFiles: gives only the message of the first failing check, which is the one the form displays. The full list of schema issues is not modelled.
- InvoiceList.TotalCellOf: extracted data always has a total in the model. A stored record whose data lacks `totalAmount` (possible only through hand-edited storage) is not represented.
- Status values outside the four: records always carry one of the four statuses. `StatusVariant` takes any string so that the `outline` fallback can be stated.
