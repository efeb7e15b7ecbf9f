/**
 * The saved-invoices page: first-run seeding of the stored list, deletion
 * by id after a confirmation dialog, and the status badge (colour classes
 * and capitalised label).
 */
module InvoiceList {
  import opened Wrappers
  import opened InvoiceTypes
  import opened ListOps
  import opened InvoiceStorage
  import Totals

  /** The three records shown, and stored, when nothing has been saved yet. */
  function SampleInvoices(): seq<InvoiceSummary>
  {
    [InvoiceSummary("1", "INV-2023-001", "Acme Corporation", "2023-06-01", "2023-07-01", 1250.0, "paid"),
     InvoiceSummary("2", "INV-2023-002", "Globex Inc.", "2023-06-15", "2023-07-15", 3450.75, "sent"),
     InvoiceSummary("3", "INV-2023-003", "Stark Industries", "2023-06-30", "2023-07-30", 7800.5, "draft")]
  }

  function KeepOtherInvoice(id: string): InvoiceSummary -> bool
  {
    (invoice: InvoiceSummary) => invoice.id != id
  }

  /** The list after a confirmed delete of `id`. */
  function WithoutInvoice(invoices: seq<InvoiceSummary>, id: string): seq<InvoiceSummary>
  {
    Filter(invoices, KeepOtherInvoice(id))
  }

  /**
   * A confirmed delete drops every record with the id and nothing else, in
   * order: afterwards no record has the id, and an unknown id changes nothing.
   */
  lemma WithoutInvoiceSpec(invoices: seq<InvoiceSummary>, id: string)
    ensures forall x :: x in WithoutInvoice(invoices, id) <==> x in invoices && x.id != id
    ensures forall k :: 0 <= k < |WithoutInvoice(invoices, id)| ==> WithoutInvoice(invoices, id)[k].id != id
    ensures (forall k :: 0 <= k < |invoices| ==> invoices[k].id != id) ==> WithoutInvoice(invoices, id) == invoices
    ensures WithoutInvoice(WithoutInvoice(invoices, id), id) == WithoutInvoice(invoices, id)
  {
    forall x
      ensures x in WithoutInvoice(invoices, id) <==> x in invoices && x.id != id
    {
      FilterMembership(invoices, KeepOtherInvoice(id), x);
    }
    FilterSound(invoices, KeepOtherInvoice(id));
    if forall k :: 0 <= k < |invoices| ==> invoices[k].id != id {
      FilterAllKept(invoices, KeepOtherInvoice(id));
    }
    FilterIdempotent(invoices, KeepOtherInvoice(id));
  }

  /** Deleting from a concatenation deletes from each part, so the survivors keep their order. */
  lemma WithoutInvoiceAppend(a: seq<InvoiceSummary>, b: seq<InvoiceSummary>, id: string)
    ensures WithoutInvoice(a + b, id) == WithoutInvoice(a, id) + WithoutInvoice(b, id)
  {
    FilterAppend(a, b, KeepOtherInvoice(id));
  }

  /** Tailwind classes of the status badge. */
  function StatusColor(status: string): (classes: string)
    ensures classes == "bg-green-100 text-green-800" <==> status == "paid"
    ensures classes == "bg-blue-100 text-blue-800" <==> status == "sent"
    ensures classes == "bg-red-100 text-red-800" <==> status == "overdue"
    ensures classes == "bg-gray-100 text-gray-800" <==> status !in {"paid", "sent", "overdue"}
  {
    match status
    case "paid" => "bg-green-100 text-green-800"
    case "sent" => "bg-blue-100 text-blue-800"
    case "overdue" => "bg-red-100 text-red-800"
    case _ => "bg-gray-100 text-gray-800"
  }

  /** Upper-casing of one character, for the ASCII letters. */
  function ToUpper(c: char): char
  {
    if 'a' <= c <= 'z' then (c as int - 32) as char else c
  }

  /** The badge text: the status with its first character upper-cased, the rest as is. */
  function StatusLabel(status: string): (text: string)
    ensures |text| == |status|
    ensures |status| > 0 ==> text[0] == ToUpper(status[0]) && text[1..] == status[1..]
  {
    if status == "" then "" else [ToUpper(status[0])] + status[1..]
  }

  /** Capitalising twice is capitalising once; the four declared statuses read as words. */
  lemma StatusLabelFacts(status: string)
    ensures StatusLabel(StatusLabel(status)) == StatusLabel(status)
    ensures StatusLabel("draft") == "Draft" && StatusLabel("sent") == "Sent"
    ensures StatusLabel("paid") == "Paid" && StatusLabel("overdue") == "Overdue"
  {
  }

  /** The draft status and any unknown status share the gray badge. */
  lemma DraftIsGray()
    ensures StatusColor("draft") == StatusColor("unknown") == "bg-gray-100 text-gray-800"
  {
  }

  /** The page's state: the displayed list, the dialog, and the invoice chosen for deletion. */
  class InvoicesPage {
    var invoices: seq<InvoiceSummary>
    var deleteDialogOpen: bool
    var selectedInvoice: Option<string>
    const storage: Storage

    constructor (storage: Storage)
      ensures this.storage == storage
      ensures invoices == [] && !deleteDialogOpen && selectedInvoice == None
    {
      this.storage := storage;
      invoices := [];
      deleteDialogOpen := false;
      selectedInvoice := None;
    }

    /** JavaScript truthiness of the selection: absent and "" are both false. */
    predicate HasSelection()
      reads this
    {
      selectedInvoice.Some? && selectedInvoice.value != ""
    }

    /** The mount effect: load the stored list, or seed and store the samples. */
    method LoadInvoices()
      modifies this, storage
      ensures old(storage.invoices).Some? ==>
        invoices == old(storage.invoices).value && storage.invoices == old(storage.invoices)
      ensures old(storage.invoices).None? ==>
        invoices == SampleInvoices() && storage.invoices == Some(SampleInvoices())
      ensures deleteDialogOpen == old(deleteDialogOpen) && selectedInvoice == old(selectedInvoice)
    {
      var stored := storage.invoices;
      if stored.Some? {
        invoices := stored.value;
      } else {
        var sampleInvoices := SampleInvoices();
        invoices := sampleInvoices;
        storage.invoices := Some(sampleInvoices);
      }
    }

    /** The trash button: remember the id and open the dialog; the list is untouched. */
    method HandleDeleteInvoice(id: string)
      modifies this
      ensures selectedInvoice == Some(id) && deleteDialogOpen
      ensures invoices == old(invoices)
    {
      selectedInvoice := Some(id);
      deleteDialogOpen := true;
    }

    /** The dialog's Cancel button: close it, keeping the selection. */
    method CancelDelete()
      modifies this
      ensures !deleteDialogOpen
      ensures invoices == old(invoices) && selectedInvoice == old(selectedInvoice)
    {
      deleteDialogOpen := false;
    }

    /** The dialog's Delete button. */
    method ConfirmDelete()
      modifies this, storage
      ensures old(HasSelection()) ==>
        && invoices == WithoutInvoice(old(invoices), old(selectedInvoice).value)
        && storage.invoices == Some(invoices)
        && !deleteDialogOpen && selectedInvoice == None
      ensures !old(HasSelection()) ==>
        && invoices == old(invoices) && storage.invoices == old(storage.invoices)
        && deleteDialogOpen == old(deleteDialogOpen) && selectedInvoice == old(selectedInvoice)
    {
      if selectedInvoice.Some? && selectedInvoice.value != "" {
        var updatedInvoices := WithoutInvoice(invoices, selectedInvoice.value);
        invoices := updatedInvoices;
        storage.invoices := Some(updatedInvoices);
        deleteDialogOpen := false;
        selectedInvoice := None;
      }
    }
  }

  /**
   * Saving a draft on a fresh browser and then opening the list shows that
   * one draft and not the samples.
   */
  method SaveThenList(data: InvoiceData, newId: string) returns (shown: seq<InvoiceSummary>)
    ensures shown == [DraftRecord(data, newId)]
    ensures shown[0].status == "draft" && shown[0].total == Totals.DraftTotal(data)
  {
    var storage := new Storage(None);
    var _ := storage.SaveDraft(data, newId);
    var page := new InvoicesPage(storage);
    page.LoadInvoices();
    shown := page.invoices;
  }

  /** Deleting the draft just saved, after confirmation, leaves the stored list empty. */
  method SaveThenDelete(data: InvoiceData, newId: string) returns (stored: Option<seq<InvoiceSummary>>)
    requires newId != ""
    ensures stored == Some([])
  {
    var storage := new Storage(None);
    var saved := storage.SaveDraft(data, newId);
    var page := new InvoicesPage(storage);
    page.LoadInvoices();
    page.HandleDeleteInvoice(newId);
    page.ConfirmDelete();
    assert [saved][1..] == [] && !KeepOtherInvoice(newId)(saved);
    assert Filter([saved], KeepOtherInvoice(newId)) == [];
    stored := storage.invoices;
  }
}
