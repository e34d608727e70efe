/** The invoice records of `src/types/invoice.ts` and the extraction output schema of
    `src/ai/flows/extract-invoice-data.ts`. Money is a `real`: the source's JavaScript
    numbers without NaN and infinities. */
module InvoiceTypes {
  import opened Wrappers

  datatype LineItem = LineItem(description: string, amount: real)

  /** One extraction result; the edit form holds values of the same shape. */
  datatype ExtractedData = ExtractedData(
    invoiceNumber: string,
    vendorName: string,
    date: string,
    lineItems: seq<LineItem>,
    totalAmount: real,
    taxInformation: Option<string>)

  datatype Status = Pending | Processing | Completed | Error

  datatype StoredInvoice = StoredInvoice(
    id: string,
    fileName: string,
    uploadDate: string,
    status: Status,
    extractedData: Option<ExtractedData>,
    errorMessage: Option<string>)

  /** The record invariant the application relies on: a completed record carries
      extracted data; a failed one carries a message and no data. */
  predicate WellFormed(r: StoredInvoice) {
    && (r.status == Completed ==> r.extractedData.Some?)
    && (r.status == Error ==> r.errorMessage.Some? && r.extractedData.None?)
  }

  predicate AllWellFormed(s: seq<StoredInvoice>) {
    forall i :: 0 <= i < |s| ==> WellFormed(s[i])
  }

  predicate HasId(s: seq<StoredInvoice>, id: string) {
    exists i :: 0 <= i < |s| && s[i].id == id
  }

  /** No two records of the collection share an id. */
  predicate UniqueIds(s: seq<StoredInvoice>) {
    forall i, j :: 0 <= i < j < |s| ==> s[i].id != s[j].id
  }
}
