/** The invoice table of `InvoiceListClient.tsx`: one row per stored record in store order,
    the status badge, the vendor and total cells, and deletion from the table. */
module InvoiceList {
  import opened Wrappers
  import opened InvoiceTypes
  import opened InvoiceStore

  datatype BadgeVariant = Default | Secondary | Destructive | Outline

  /** The status as the stored record spells it. */
  function StatusName(s: Status): string {
    match s
    case Pending => "Pending"
    case Processing => "Processing"
    case Completed => "Completed"
    case Error => "Error"
  }

  /** `getStatusVariant`, over whatever status string a stored record carries. */
  function StatusVariant(status: string): (r: BadgeVariant)
    ensures r == Default <==> status == "Completed"
    ensures r == Secondary <==> status == "Processing" || status == "Pending"
    ensures r == Destructive <==> status == "Error"
  {
    if status == "Completed" then Default
    else if status == "Processing" || status == "Pending" then Secondary
    else if status == "Error" then Destructive
    else Outline
  }

  /** Completed is shown plainly, pending and processing alike as secondary, errors as
      destructive. */
  lemma VariantOfEachStatus(s: Status)
    ensures StatusVariant(StatusName(s)) == match s
      case Completed => Default
      case Pending => Secondary
      case Processing => Secondary
      case Error => Destructive
  {
  }

  /** The outline badge is reached only by a string that names none of the four statuses. */
  lemma OutlineOnlyForUnknown(status: string)
    ensures StatusVariant(status) == Outline <==> forall s: Status :: StatusName(s) != status
  {
    if StatusVariant(status) != Outline {
      var s: Status :| StatusName(s) == status by {
        if status == "Completed" { assert StatusName(Completed) == status; }
        else if status == "Processing" { assert StatusName(Processing) == status; }
        else if status == "Pending" { assert StatusName(Pending) == status; }
        else { assert StatusName(Error) == status; }
      }
    }
  }

  datatype TotalCell = Amount(value: real) | NotAvailable

  datatype Row = Row(id: string, fileName: string, uploadDate: string, status: string,
                     variant: BadgeVariant, vendor: string, total: TotalCell)

  /** `extractedData?.vendorName || 'N/A'`. */
  function VendorCell(inv: StoredInvoice): (r: string)
    ensures r != ""
    ensures inv.extractedData.Some? && inv.extractedData.value.vendorName != "" ==> r == inv.extractedData.value.vendorName
    ensures inv.extractedData.None? || inv.extractedData.value.vendorName == "" ==> r == "N/A"
  {
    if inv.extractedData.Some? && inv.extractedData.value.vendorName != "" then inv.extractedData.value.vendorName else "N/A"
  }

  /** The total cell: the amount whenever data is present (even 0), 'N/A' otherwise. */
  function TotalCellOf(inv: StoredInvoice): (c: TotalCell)
    ensures c.NotAvailable? <==> inv.extractedData.None?
    ensures c.Amount? ==> c.value == inv.extractedData.value.totalAmount
  {
    if inv.extractedData.Some? then Amount(inv.extractedData.value.totalAmount) else NotAvailable
  }

  /** One table row: the record's own fields, the badge `StatusVariant` gives its status
      (never `outline` for a stored status), and the two cells with their fallbacks. */
  function RowOf(inv: StoredInvoice): (r: Row)
    ensures r.id == inv.id && r.fileName == inv.fileName && r.uploadDate == inv.uploadDate
    ensures r.status == StatusName(inv.status) && r.variant != Outline
    ensures r.variant == StatusVariant(r.status)
    ensures r.vendor == VendorCell(inv) && r.total == TotalCellOf(inv)
  {
    var name := StatusName(inv.status);
    VariantOfEachStatus(inv.status);
    Row(inv.id, inv.fileName, inv.uploadDate, name, StatusVariant(name), VendorCell(inv), TotalCellOf(inv))
  }

  /** The table body: one row per record, in the order the records are stored. */
  function Rows(invoices: seq<StoredInvoice>): (r: seq<Row>)
    ensures |r| == |invoices|
    ensures forall i :: 0 <= i < |invoices| ==> r[i] == RowOf(invoices[i])
    decreases |invoices|
  {
    if |invoices| == 0 then [] else [RowOf(invoices[0])] + Rows(invoices[1..])
  }

  /** No stored record gets the outline badge. */
  lemma NoOutlineRows(invoices: seq<StoredInvoice>)
    ensures forall i :: 0 <= i < |invoices| ==> Rows(invoices)[i].variant != Outline
  {
  }

  /** The dashboard's table and the store it shows. */
  class ListClient {
    const store: Store
    var invoices: seq<StoredInvoice>
    var loading: bool

    constructor (store: Store)
      ensures this.store == store && invoices == [] && loading
    {
      this.store := store;
      invoices := [];
      loading := true;
    }

    function DisplayedRows(): seq<Row>
      reads this
    {
      Rows(invoices)
    }

    /** The effect run when the table opens. */
    method Load()
      modifies this
      ensures invoices == store.Contents() && !loading
      ensures DisplayedRows() == Rows(store.Contents())
    {
      invoices := store.GetInvoices();
      loading := false;
    }

    /** `handleDelete`: delete from the store, then show the store again. */
    method HandleDelete(id: string)
      modifies this, store
      ensures store.Contents() == Without(old(store.Contents()), id)
      ensures invoices == store.Contents()
      ensures forall i :: 0 <= i < |invoices| ==> invoices[i].id != id
      ensures loading == old(loading)
    {
      store.DeleteInvoice(id);
      invoices := store.GetInvoices();
    }
  }
}
