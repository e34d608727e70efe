/** Review and edit of one invoice, after `InvoiceViewClient.tsx`: the form schema, the
    form loaded from the stored record, saving the form back, the JSON export and the
    line-item list of the form. */
module InvoiceView {
  import opened Wrappers
  import opened InvoiceTypes
  import opened InvoiceStore

  /** The form holds values of the extraction output's shape. */
  type FormValues = ExtractedData

  const BlankLineItem := LineItem("", 0.0)

  /** The form's values before anything is loaded. */
  const DefaultForm: FormValues := ExtractedData("", "", "", [BlankLineItem], 0.0, Some(""))

  const ExportSuffix := "_quickbooks.json"

  /** The form fields a validation issue can be attached to. */
  datatype Field =
    | InvoiceNumberField
    | VendorNameField
    | DateField
    | LineItemsField
    | DescriptionField(index: nat)
    | AmountField(index: nat)
    | TotalAmountField

  datatype Issue = Issue(field: Field, message: string)

  /** The form schema stated field by field: the three text fields filled in, at least one
      line item, every line item described and of positive amount, a positive total; the
      tax information may be anything or absent. */
  predicate FormValid(v: FormValues) {
    && v.invoiceNumber != ""
    && v.vendorName != ""
    && v.date != ""
    && |v.lineItems| >= 1
    && (forall i :: 0 <= i < |v.lineItems| ==> v.lineItems[i].description != "" && v.lineItems[i].amount > 0.0)
    && v.totalAmount > 0.0
  }

  /** One rule of the schema: no issue when it holds, one issue on `field` otherwise. */
  function Check(ok: bool, field: Field, message: string): (r: seq<Issue>)
    ensures forall k :: 0 <= k < |r| ==> r[k].field == field
    ensures Flagged(r, field) <==> !ok
  {
    if ok then []
    else
      var r := [Issue(field, message)];
      assert r[0].field == field;
      r
  }

  /** A required text field. */
  function Required(value: string, field: Field, message: string): seq<Issue> {
    Check(|value| >= 1, field, message)
  }

  /** The issues the line-item schema reports for `items`, whose first element is line
      `first` of the form; each line's description is checked before its amount. */
  function LineItemIssues(items: seq<LineItem>, first: nat): (r: seq<Issue>)
    ensures r == [] <==> forall i :: 0 <= i < |items| ==> |items[i].description| >= 1 && items[i].amount > 0.0
    ensures forall k :: 0 <= k < |r| ==>
      && (r[k].field.DescriptionField? || r[k].field.AmountField?)
      && first <= r[k].field.index < first + |items|
    decreases |items|
  {
    if |items| == 0 then []
    else
      var item := items[0];
      Required(item.description, DescriptionField(first), "Description is required.")
      + (if item.amount > 0.0 then [] else [Issue(AmountField(first), "Amount must be positive.")])
      + LineItemIssues(items[1..], first + 1)
  }

  /** Some issue is attached to field `f`. */
  predicate Flagged(issues: seq<Issue>, f: Field) {
    exists k :: 0 <= k < |issues| && issues[k].field == f
  }

  lemma FlaggedAppend(a: seq<Issue>, b: seq<Issue>, f: Field)
    ensures Flagged(a + b, f) <==> Flagged(a, f) || Flagged(b, f)
  {
    if Flagged(a, f) {
      var k :| 0 <= k < |a| && a[k].field == f;
      assert (a + b)[k] == a[k];
    }
    if Flagged(b, f) {
      var k :| 0 <= k < |b| && b[k].field == f;
      assert (a + b)[|a| + k] == b[k];
    }
    if Flagged(a + b, f) {
      var k :| 0 <= k < |a + b| && (a + b)[k].field == f;
      if k < |a| { assert a[k] == (a + b)[k]; } else { assert b[k - |a|] == (a + b)[k]; }
    }
  }

  /** All issues of `part` are on `f`. */
  predicate OnlyOn(part: seq<Issue>, f: Field) {
    forall k :: 0 <= k < |part| ==> part[k].field == f
  }

  /** The schema's report is six parts in a row, each on its own fields: a top-level
      field is flagged in the report exactly when its own part flags it. */
  lemma ReportFlags(number: seq<Issue>, vendor: seq<Issue>, date: seq<Issue>, count: seq<Issue>,
                    lines: seq<Issue>, total: seq<Issue>)
    requires OnlyOn(number, InvoiceNumberField) && OnlyOn(vendor, VendorNameField) && OnlyOn(date, DateField)
    requires OnlyOn(count, LineItemsField) && OnlyOn(total, TotalAmountField)
    requires forall k :: 0 <= k < |lines| ==> lines[k].field.DescriptionField? || lines[k].field.AmountField?
    ensures var all := number + vendor + date + count + lines + total;
      && (Flagged(all, InvoiceNumberField) <==> Flagged(number, InvoiceNumberField))
      && (Flagged(all, VendorNameField) <==> Flagged(vendor, VendorNameField))
      && (Flagged(all, DateField) <==> Flagged(date, DateField))
      && (Flagged(all, LineItemsField) <==> Flagged(count, LineItemsField))
      && (Flagged(all, TotalAmountField) <==> Flagged(total, TotalAmountField))
  {
    var fields := [InvoiceNumberField, VendorNameField, DateField, LineItemsField, TotalAmountField];
    forall f | f in fields
      ensures Flagged(number + vendor + date + count + lines + total, f) <==>
        Flagged(number, f) || Flagged(vendor, f) || Flagged(date, f) || Flagged(count, f) || Flagged(total, f)
    {
      FlaggedAppend(number, vendor, f);
      FlaggedAppend(number + vendor, date, f);
      FlaggedAppend(number + vendor + date, count, f);
      FlaggedAppend(number + vendor + date + count, lines, f);
      FlaggedAppend(number + vendor + date + count + lines, total, f);
    }
  }

  /** The issues the form schema reports, field by field in the schema's order; each
      top-level field is flagged exactly when its own rule fails. */
  function FormIssues(v: FormValues): (r: seq<Issue>)
    ensures Flagged(r, InvoiceNumberField) <==> v.invoiceNumber == ""
    ensures Flagged(r, VendorNameField) <==> v.vendorName == ""
    ensures Flagged(r, DateField) <==> v.date == ""
    ensures Flagged(r, LineItemsField) <==> |v.lineItems| == 0
    ensures Flagged(r, TotalAmountField) <==> v.totalAmount <= 0.0
  {
    var number := Required(v.invoiceNumber, InvoiceNumberField, "Invoice number is required.");
    var vendor := Required(v.vendorName, VendorNameField, "Vendor name is required.");
    var date := Required(v.date, DateField, "Date is required.");
    var count := Check(|v.lineItems| >= 1, LineItemsField, "At least one line item is required.");
    var lines := LineItemIssues(v.lineItems, 0);
    var total := Check(v.totalAmount > 0.0, TotalAmountField, "Total amount must be positive.");
    ReportFlags(number, vendor, date, count, lines, total);
    number + vendor + date + count + lines + total
  }

  /** The schema reports no issue exactly when the form is valid. */
  lemma FormIssuesEmptyIff(v: FormValues)
    ensures FormIssues(v) == [] <==> FormValid(v)
  {
    var line := LineItemIssues(v.lineItems, 0);
    if FormIssues(v) == [] {
      assert line == [];
    }
  }

  /** Every line-item issue names a line the form has. */
  lemma IssuesNameExistingLines(v: FormValues)
    ensures forall k :: 0 <= k < |FormIssues(v)| ==>
      (FormIssues(v)[k].field.DescriptionField? || FormIssues(v)[k].field.AmountField?) ==>
        FormIssues(v)[k].field.index < |v.lineItems|
  {
    var number := Required(v.invoiceNumber, InvoiceNumberField, "Invoice number is required.");
    var vendor := Required(v.vendorName, VendorNameField, "Vendor name is required.");
    var date := Required(v.date, DateField, "Date is required.");
    var count := Check(|v.lineItems| >= 1, LineItemsField, "At least one line item is required.");
    var line := LineItemIssues(v.lineItems, 0);
    var tail := Check(v.totalAmount > 0.0, TotalAmountField, "Total amount must be positive.");
    var head := number + vendor + date + count;
    assert forall k :: 0 <= k < |head| ==> !head[k].field.DescriptionField? && !head[k].field.AmountField? by {
      forall k | 0 <= k < |head| ensures !head[k].field.DescriptionField? && !head[k].field.AmountField? {
        if k < |number| { assert head[k] == number[k]; }
        else if k < |number| + |vendor| { assert head[k] == vendor[k - |number|]; }
        else if k < |number| + |vendor| + |date| { assert head[k] == date[k - |number| - |vendor|]; }
        else { assert head[k] == count[k - |number| - |vendor| - |date|]; }
      }
    }
    var all := FormIssues(v);
    assert all == head + line + tail;
    forall k | 0 <= k < |all| && (all[k].field.DescriptionField? || all[k].field.AmountField?)
      ensures all[k].field.index < |v.lineItems|
    {
      if |head| <= k < |head| + |line| {
        assert all[k] == line[k - |head|];
      }
    }
  }

  /** The form loaded from extracted data: the date as the form shows it, and at least one
      line item, a blank one when the data has none. */
  function LoadedForm(data: ExtractedData, displayDate: string): (v: FormValues)
    ensures |v.lineItems| >= 1
    ensures |data.lineItems| > 0 ==> v.lineItems == data.lineItems
    ensures |data.lineItems| == 0 ==> v.lineItems == [BlankLineItem]
    ensures v.date == displayDate
    ensures v.invoiceNumber == data.invoiceNumber && v.vendorName == data.vendorName
    ensures v.totalAmount == data.totalAmount && v.taxInformation == data.taxInformation
  {
    data.(date := displayDate, lineItems := if |data.lineItems| > 0 then data.lineItems else [BlankLineItem])
  }

  /** The blank line item put in for data without line items keeps the form from being
      saved until it is filled in or replaced. */
  lemma BlankLineBlocksSave(data: ExtractedData, displayDate: string)
    requires |data.lineItems| == 0
    ensures !FormValid(LoadedForm(data, displayDate))
    ensures FormIssues(LoadedForm(data, displayDate)) != []
  {
    var v := LoadedForm(data, displayDate);
    assert v.lineItems[0] == BlankLineItem;
    FormIssuesEmptyIff(v);
  }

  /** The record a save writes: the form's values become the extracted data and the record
      counts as completed; id, file name, upload date and any message stay. */
  function Saved(inv: StoredInvoice, values: FormValues): (r: StoredInvoice)
    ensures r.id == inv.id && r.fileName == inv.fileName && r.uploadDate == inv.uploadDate
    ensures r.errorMessage == inv.errorMessage
    ensures r.status == Completed && r.extractedData == Some(values)
    ensures WellFormed(r)
  {
    inv.(extractedData := Some(values), status := Completed)
  }

  /** A saved record is the one found afterwards under its id. */
  lemma SaveThenFind(s: seq<StoredInvoice>, inv: StoredInvoice, values: FormValues)
    requires HasId(s, inv.id)
    ensures Find(Replaced(s, Saved(inv, values)), inv.id) == Some(Saved(inv, values))
  {
    FindAfterUpdate(s, Saved(inv, values));
  }

  /** The part of a file name before its first dot (the first piece of `split('.')`). */
  function BeforeFirstDot(s: string): (r: string)
    ensures r <= s
    ensures '.' !in r
    ensures |r| < |s| ==> s[|r|] == '.'
  {
    if |s| == 0 || s[0] == '.' then "" else [s[0]] + BeforeFirstDot(s[1..])
  }

  /** A dot-free prefix that ends at a dot or at the end of the name is the part before
      the first dot: there is exactly one. */
  lemma {:induction false} BeforeFirstDotUnique(s: string, p: string)
    requires p <= s && '.' !in p
    requires |p| < |s| ==> s[|p|] == '.'
    ensures BeforeFirstDot(s) == p
  {
    if |s| > 0 && s[0] != '.' {
      assert |p| > 0 && p[0] == s[0];
      BeforeFirstDotUnique(s[1..], p[1..]);
      assert p == [p[0]] + p[1..];
    }
  }

  /** The name of the exported file. */
  function ExportFileName(fileName: string): (r: string)
    ensures |r| >= |ExportSuffix| && r[|r| - |ExportSuffix|..] == ExportSuffix
    ensures r[..|r| - |ExportSuffix|] <= fileName && '.' !in r[..|r| - |ExportSuffix|]
    ensures |r| - |ExportSuffix| < |fileName| ==> fileName[|r| - |ExportSuffix|] == '.'
  {
    var base := BeforeFirstDot(fileName);
    var name := base + ExportSuffix;
    assert name[..|base|] == base && name[|base|..] == ExportSuffix;
    name
  }

  /** A name without a dot is kept whole; a name starting with a dot leaves nothing
      before the suffix; otherwise everything from the first dot on goes. */
  lemma ExportFileNameCases(fileName: string)
    ensures '.' !in fileName ==> ExportFileName(fileName) == fileName + ExportSuffix
    ensures |fileName| > 0 && fileName[0] == '.' ==> ExportFileName(fileName) == ExportSuffix
    ensures forall i :: 0 <= i < |fileName| && fileName[i] == '.' && '.' !in fileName[..i] ==>
      ExportFileName(fileName) == fileName[..i] + ExportSuffix
  {
    if '.' !in fileName {
      BeforeFirstDotUnique(fileName, fileName);
    }
    forall i | 0 <= i < |fileName| && fileName[i] == '.' && '.' !in fileName[..i]
      ensures BeforeFirstDot(fileName) == fileName[..i]
    {
      BeforeFirstDotUnique(fileName, fileName[..i]);
    }
  }

  /** The line items without the one at `index`. */
  function RemovedAt(items: seq<LineItem>, index: nat): (r: seq<LineItem>)
    requires index < |items|
    ensures |r| == |items| - 1
    ensures forall k :: 0 <= k < index ==> r[k] == items[k]
    ensures forall k :: index <= k < |r| ==> r[k] == items[k + 1]
  {
    items[..index] + items[index + 1..]
  }

  /** What the view shows. */
  datatype Screen = Loading | NotFound | ProcessingError(message: Option<string>) | NoData | EditForm

  function ScreenFor(loading: bool, invoice: Option<StoredInvoice>): (r: Screen)
    ensures r == Loading <==> loading
    ensures r == NotFound <==> !loading && invoice.None?
    ensures r.ProcessingError? <==> !loading && invoice.Some? && invoice.value.status == Error
    ensures r.ProcessingError? ==> r.message == invoice.value.errorMessage
    ensures r == NoData <==>
      !loading && invoice.Some? && invoice.value.status != Error && invoice.value.extractedData.None?
  {
    if loading then Loading
    else if invoice.None? then NotFound
    else if invoice.value.status == Error then ProcessingError(invoice.value.errorMessage)
    else if invoice.value.extractedData.None? then NoData
    else EditForm
  }

  /** Only a loaded record that has data and has not failed is shown for editing. */
  lemma EditFormOnlyForUsableRecords(loading: bool, invoice: Option<StoredInvoice>)
    ensures ScreenFor(loading, invoice) == EditForm <==>
      !loading && invoice.Some? && invoice.value.status != Error && invoice.value.extractedData.Some?
  {
  }

  datatype Export = NothingToExport | Download(fileName: string, values: FormValues)

  /** The view of the invoice with id `invoiceId`. */
  class ViewClient {
    const invoiceId: string
    const store: Store
    var invoice: Option<StoredInvoice>
    var form: FormValues
    var loading: bool
    /** Set when the record was not found and the view sent the user back to the dashboard. */
    var redirected: bool

    constructor (invoiceId: string, store: Store)
      ensures this.invoiceId == invoiceId && this.store == store
      ensures invoice == None && form == DefaultForm && loading && !redirected
    {
      this.invoiceId := invoiceId;
      this.store := store;
      invoice := None;
      form := DefaultForm;
      loading := true;
      redirected := false;
    }

    /** The screen the view renders in its current state. */
    function CurrentScreen(): Screen
      reads this
    {
      ScreenFor(loading, invoice)
    }

    /** The effect run when the view opens; `displayDate` is the stored date as the date
        input shows it. */
    method Load(displayDate: string)
      modifies this
      ensures !loading
      ensures HasId(store.Contents(), invoiceId) ==>
        invoice == Find(store.Contents(), invoiceId) && redirected == old(redirected)
      ensures !HasId(store.Contents(), invoiceId) ==> invoice == old(invoice) && redirected
      ensures form == if HasId(store.Contents(), invoiceId) && invoice.value.extractedData.Some?
                      then LoadedForm(invoice.value.extractedData.value, displayDate)
                      else old(form)
      ensures HasId(store.Contents(), invoiceId) ==>
        (CurrentScreen() == EditForm <==> invoice.value.status != Error && invoice.value.extractedData.Some?)
      ensures !HasId(store.Contents(), invoiceId) && old(invoice).None? ==> CurrentScreen() == NotFound
    {
      var fetched := store.GetInvoiceById(invoiceId);
      EditFormOnlyForUsableRecords(false, fetched);
      if fetched.Some? {
        invoice := fetched;
        if fetched.value.extractedData.Some? {
          form := LoadedForm(fetched.value.extractedData.value, displayDate);
        }
      } else {
        redirected := true;
      }
      loading := false;
    }

    /** `handleSaveChanges`, given the validated form values. */
    method SaveChanges(values: FormValues)
      modifies this, store
      ensures old(invoice).None? ==> invoice == old(invoice) && store.slot == old(store.slot)
      ensures old(invoice).Some? ==>
        && invoice == Some(Saved(old(invoice).value, values))
        && store.Contents() == Replaced(old(store.Contents()), Saved(old(invoice).value, values))
      ensures form == old(form) && loading == old(loading) && redirected == old(redirected)
    {
      if invoice.None? {
        return;
      }
      var updated := Saved(invoice.value, values);
      store.UpdateInvoice(updated);
      invoice := Some(updated);
    }

    /** The form's submit: the current values are checked against the schema and saved
        only when it reports no issue. */
    method Submit() returns (issues: seq<Issue>)
      modifies this, store
      ensures issues == FormIssues(old(form))
      ensures issues == [] <==> FormValid(old(form))
      ensures issues != [] ==> invoice == old(invoice) && store.slot == old(store.slot)
      ensures issues == [] && old(invoice).Some? ==>
        && invoice == Some(Saved(old(invoice).value, old(form)))
        && store.Contents() == Replaced(old(store.Contents()), Saved(old(invoice).value, old(form)))
      ensures old(invoice).None? ==> invoice == old(invoice) && store.slot == old(store.slot)
      ensures form == old(form) && loading == old(loading) && redirected == old(redirected)
    {
      issues := FormIssues(form);
      FormIssuesEmptyIff(form);
      if issues == [] {
        SaveChanges(form);
      }
    }

    /** `handleExportJson`: refused without extracted data; otherwise the current form
        values under the derived file name. */
    method ExportJson() returns (e: Export)
      ensures invoice.None? || invoice.value.extractedData.None? ==> e == NothingToExport
      ensures invoice.Some? && invoice.value.extractedData.Some? ==>
        e == Download(ExportFileName(invoice.value.fileName), form)
    {
      if invoice.None? || invoice.value.extractedData.None? {
        return NothingToExport;
      }
      e := Download(ExportFileName(invoice.value.fileName), form);
    }

    /** "Add Line Item": a blank line at the end. */
    method AppendLineItem()
      modifies this`form
      ensures form == old(form).(lineItems := old(form).lineItems + [BlankLineItem])
    {
      form := form.(lineItems := form.lineItems + [BlankLineItem]);
    }

    /** "Remove line item" at `index`; an index past the end removes nothing. */
    method RemoveLineItem(index: nat)
      modifies this`form
      ensures index < |old(form).lineItems| ==>
        form == old(form).(lineItems := RemovedAt(old(form).lineItems, index))
      ensures index >= |old(form).lineItems| ==> form == old(form)
    {
      if index < |form.lineItems| {
        form := form.(lineItems := RemovedAt(form.lineItems, index));
      }
    }
  }
}
