/**
 * The browser store's single "invoices" entry and the save-draft action of
 * the invoice page, which reduces the working document to a summary record
 * and appends it to the stored list.
 */
module InvoiceStorage {
  import opened Wrappers
  import opened InvoiceTypes
  import Totals

  /** The summary record a save-draft writes for `data` under the generated `id`. */
  function DraftRecord(data: InvoiceData, id: string): InvoiceSummary
  {
    InvoiceSummary(id, data.invoiceNumber, data.clientDetails.clientName, data.invoiceDate,
                   data.paymentTerms.dueDate, Totals.DraftTotal(data), "draft")
  }

  /**
   * The projection is lossy: two documents give the same record exactly when
   * they agree on the number, the client's name, the two dates and the saved
   * total. Company data, the rest of the client, the items and the notes are lost.
   */
  lemma DraftRecordKeeps(d1: InvoiceData, d2: InvoiceData, id: string)
    ensures DraftRecord(d1, id) == DraftRecord(d2, id) <==>
      && d1.invoiceNumber == d2.invoiceNumber
      && d1.clientDetails.clientName == d2.clientDetails.clientName
      && d1.invoiceDate == d2.invoiceDate
      && d1.paymentTerms.dueDate == d2.paymentTerms.dueDate
      && Totals.DraftTotal(d1) == Totals.DraftTotal(d2)
  {
  }

  /** The "invoices" entry of browser storage: absent, or one saved list of summaries. */
  class Storage {
    var invoices: Option<seq<InvoiceSummary>>

    constructor (initial: Option<seq<InvoiceSummary>>)
      ensures invoices == initial
    {
      invoices := initial;
    }

    /** The list a save-draft starts from: the stored one, or the empty list. */
    function StoredOrEmpty(): seq<InvoiceSummary>
      reads this
    {
      if invoices.Some? then invoices.value else []
    }

    /** Save the working document as a draft (page.tsx:180-231); `newId` is the generated id. */
    method SaveDraft(data: InvoiceData, newId: string) returns (saved: InvoiceSummary)
      modifies this
      ensures saved == DraftRecord(data, newId)
      ensures saved.id == newId && saved.status == "draft"
      ensures saved.invoiceNumber == data.invoiceNumber
      ensures saved.clientName == data.clientDetails.clientName
      ensures saved.invoiceDate == data.invoiceDate && saved.dueDate == data.paymentTerms.dueDate
      ensures invoices == Some(old(StoredOrEmpty()) + [saved])
      ensures old(invoices).None? ==> invoices == Some([saved])
      ensures |invoices.value| == |old(StoredOrEmpty())| + 1
      ensures invoices.value[..|invoices.value| - 1] == old(StoredOrEmpty())
    {
      var total := Totals.ComputeDraftTotal(data);
      var list := if invoices.Some? then invoices.value else [];
      saved := InvoiceSummary(newId, data.invoiceNumber, data.clientDetails.clientName,
                              data.invoiceDate, data.paymentTerms.dueDate, total, "draft");
      assert [] + [saved] == [saved];
      list := list + [saved];
      invoices := Some(list);
    }
  }

  /**
   * A first save on an empty browser: lines 2 x 100 and 1 x 50 with no
   * discount preview as 250 + 25 = 275 and are stored as one draft of 275.
   */
  method FirstDraftScenario(invoiceNumber: string, invoiceDate: string, dueDate: string, newId: string)
    returns (preview: Totals.InvoiceTotals, stored: seq<InvoiceSummary>)
    ensures preview == Totals.InvoiceTotals(250.0, 10.0, 25.0, 0.0, 275.0)
    ensures |stored| == 1 && stored[0].total == 275.0 && stored[0].status == "draft" && stored[0].id == newId
  {
    var items := [InvoiceItem("1", "Design", 2.0, 100.0, 200.0), InvoiceItem("2", "Hosting", 1.0, 50.0, 50.0)];
    assert items[..1][..0] == [] && items[..|items| - 1] == items[..1];
    assert Totals.Subtotal(items) == 250.0;
    var data := Totals.HomeDefaults(invoiceNumber, invoiceDate, dueDate).(invoiceItems := items);
    assert "none" != "percentage" && "none" != "fixed" && "none" != "taxi" by {
      assert "none"[0] != "percentage"[0] && "none"[0] != "fixed"[0] && "none"[0] != "taxi"[0];
    }
    preview := Totals.ComputeTotals(data);
    var storage := new Storage(None);
    var _ := storage.SaveDraft(data, newId);
    stored := storage.invoices.value;
  }
}
