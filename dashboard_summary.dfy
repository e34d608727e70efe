/** The dashboard totals of `DashboardSummary.tsx`: the completed records that carry data
    are counted and their total amounts summed. */
module DashboardSummary {
  import opened Wrappers
  import opened InvoiceTypes

  /** A record the summary takes into account. */
  predicate Counted(inv: StoredInvoice) {
    inv.status == Completed && inv.extractedData.Some?
  }

  /** The `filter` step: the counted records, in store order. */
  function CompletedInvoices(invoices: seq<StoredInvoice>): (r: seq<StoredInvoice>)
    ensures |r| <= |invoices|
    ensures forall x :: x in r <==> x in invoices && Counted(x)
    decreases |invoices|
  {
    if |invoices| == 0 then []
    else (if Counted(invoices[0]) then [invoices[0]] else []) + CompletedInvoices(invoices[1..])
  }

  /** What one record adds to the sum: its total amount, or 0 when that is missing or
      falsy. */
  function AmountOf(inv: StoredInvoice): (r: real)
    ensures inv.extractedData.Some? ==> r == inv.extractedData.value.totalAmount
    ensures inv.extractedData.None? ==> r == 0.0
  {
    if inv.extractedData.Some? && inv.extractedData.value.totalAmount != 0.0
    then inv.extractedData.value.totalAmount
    else 0.0
  }

  /** The `reduce` step, folding from the left onto the accumulator. */
  function Reduce(acc: real, invoices: seq<StoredInvoice>): (r: real)
    ensures (forall i :: 0 <= i < |invoices| ==> Counted(invoices[i])) ==> r == acc + ValueCompleted(invoices)
    decreases |invoices|
  {
    if |invoices| == 0 then acc else Reduce(acc + AmountOf(invoices[0]), invoices[1..])
  }

  datatype Summary = Summary(totalInvoices: nat, totalValue: real)

  /** The effect that fills in the two dashboard figures. */
  function Summarize(invoices: seq<StoredInvoice>): (r: Summary)
    ensures r.totalInvoices <= |invoices|
    ensures r.totalInvoices == 0 ==> r.totalValue == 0.0
  {
    var completed := CompletedInvoices(invoices);
    Summary(|completed|, Reduce(0.0, completed))
  }

  /** Reference definition: the number of counted records, record by record. */
  function CountCompleted(invoices: seq<StoredInvoice>): nat
    decreases |invoices|
  {
    if |invoices| == 0 then 0
    else (if Counted(invoices[0]) then 1 else 0) + CountCompleted(invoices[1..])
  }

  /** Reference definition: the sum of the counted records' total amounts. */
  function ValueCompleted(invoices: seq<StoredInvoice>): real
    decreases |invoices|
  {
    if |invoices| == 0 then 0.0
    else (if Counted(invoices[0]) then invoices[0].extractedData.value.totalAmount else 0.0) + ValueCompleted(invoices[1..])
  }

  lemma {:induction false} ReduceAdds(acc: real, invoices: seq<StoredInvoice>)
    ensures Reduce(acc, invoices) == acc + Reduce(0.0, invoices)
    decreases |invoices|
  {
    if |invoices| > 0 {
      ReduceAdds(acc + AmountOf(invoices[0]), invoices[1..]);
      ReduceAdds(AmountOf(invoices[0]), invoices[1..]);
    }
  }

  /** The filter-and-reduce of the dashboard equals the reference count and sum. */
  lemma {:induction false} SummarizeMatchesReference(invoices: seq<StoredInvoice>)
    ensures Summarize(invoices) == Summary(CountCompleted(invoices), ValueCompleted(invoices))
    decreases |invoices|
  {
    if |invoices| > 0 {
      var head := invoices[0];
      var rest := invoices[1..];
      SummarizeMatchesReference(rest);
      var done := CompletedInvoices(rest);
      if Counted(head) {
        assert CompletedInvoices(invoices) == [head] + done;
        assert ([head] + done)[1..] == done;
        ReduceAdds(AmountOf(head), done);
      } else {
        assert CompletedInvoices(invoices) == done;
      }
    }
  }

  /** Counts and sums add up over the two parts of a collection. */
  lemma {:induction false} ReferenceAppend(a: seq<StoredInvoice>, b: seq<StoredInvoice>)
    ensures CountCompleted(a + b) == CountCompleted(a) + CountCompleted(b)
    ensures ValueCompleted(a + b) == ValueCompleted(a) + ValueCompleted(b)
    decreases |a|
  {
    if |a| == 0 {
      assert a + b == b;
    } else {
      assert (a + b)[0] == a[0];
      assert (a + b)[1..] == a[1..] + b;
      ReferenceAppend(a[1..], b);
    }
  }

  /** A record that is pending, processing, failed or without data changes neither
      figure when added to the store. */
  lemma UncountedChangesNothing(inv: StoredInvoice, invoices: seq<StoredInvoice>)
    requires !Counted(inv)
    ensures Summarize([inv] + invoices) == Summarize(invoices)
  {
    SummarizeMatchesReference([inv] + invoices);
    SummarizeMatchesReference(invoices);
    ReferenceAppend([inv], invoices);
  }

  /** A completed record with data adds one invoice and its total amount. */
  lemma CountedAddsItsAmount(inv: StoredInvoice, invoices: seq<StoredInvoice>)
    requires Counted(inv)
    ensures Summarize([inv] + invoices).totalInvoices == Summarize(invoices).totalInvoices + 1
    ensures Summarize([inv] + invoices).totalValue == Summarize(invoices).totalValue + inv.extractedData.value.totalAmount
  {
    SummarizeMatchesReference([inv] + invoices);
    SummarizeMatchesReference(invoices);
    ReferenceAppend([inv], invoices);
  }
}
