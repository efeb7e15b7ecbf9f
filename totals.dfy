/**
 * The totals calculator of the invoice page: subtotal, a fixed 10 % tax,
 * a discount chosen by type, and the grand total, both as the live preview
 * computes them and as the save-draft path recomputes them; plus the
 * mapping of the working document to the preview's shape.
 */
module Totals {
  import opened Wrappers
  import opened InvoiceTypes

  /** Tax rate in percent; the same constant at every call site. */
  const TaxRate: real := 10.0

  datatype InvoiceTotals = InvoiceTotals(
    subtotal: real,
    taxRate: real,
    taxAmount: real,
    discountAmount: real,
    total: real)

  /** Sum of the line totals, folded from the left as `reduce` does. */
  function Subtotal(items: seq<InvoiceItem>): real
  {
    if items == [] then 0.0 else Subtotal(items[..|items| - 1]) + items[|items| - 1].total
  }

  lemma {:induction false} SubtotalAppend(a: seq<InvoiceItem>, b: seq<InvoiceItem>)
    ensures Subtotal(a + b) == Subtotal(a) + Subtotal(b)
    decreases |b|
  {
    if b == [] {
      assert a + b == a;
    } else {
      var front := b[..|b| - 1];
      assert (a + b)[..|a + b| - 1] == a + front;
      SubtotalAppend(a, front);
    }
  }

  /** The subtotal only depends on the line totals, position by position. */
  lemma {:induction false} SubtotalPointwise(a: seq<InvoiceItem>, b: seq<InvoiceItem>)
    requires |a| == |b|
    requires forall k :: 0 <= k < |a| ==> a[k].total == b[k].total
    ensures Subtotal(a) == Subtotal(b)
  {
    if a != [] {
      SubtotalPointwise(a[..|a| - 1], b[..|b| - 1]);
    }
  }

  lemma {:induction false} SubtotalNonNegative(items: seq<InvoiceItem>)
    ensures (forall k :: 0 <= k < |items| ==> items[k].total >= 0.0) ==> Subtotal(items) >= 0.0
  {
    if items != [] {
      SubtotalNonNegative(items[..|items| - 1]);
    }
  }

  /** The discount of the live preview (page.tsx:122-135). */
  function PreviewDiscount(subtotal: real, discountType: string, discountValue: real): real
  {
    if discountType == "percentage" && discountValue > 0.0 then subtotal * (discountValue / 100.0)
    else if discountType == "fixed" && discountValue > 0.0 then discountValue
    else if discountType == "taxi" then subtotal * 0.1
    else 0.0
  }

  /** The discount of the save-draft path (page.tsx:192-204), which has no "taxi" branch. */
  function DraftDiscount(subtotal: real, discountType: string, discountValue: real): real
  {
    if discountType == "percentage" && discountValue > 0.0 then subtotal * (discountValue / 100.0)
    else if discountType == "fixed" && discountValue > 0.0 then discountValue
    else 0.0
  }

  function PreviewTotals(data: InvoiceData): InvoiceTotals
  {
    var subtotal := Subtotal(data.invoiceItems);
    var taxAmount := subtotal * (TaxRate / 100.0);
    var discountAmount :=
      PreviewDiscount(subtotal, data.paymentTerms.discountType, data.paymentTerms.discountValue);
    InvoiceTotals(subtotal, TaxRate, taxAmount, discountAmount, subtotal + taxAmount - discountAmount)
  }

  function DraftTotal(data: InvoiceData): real
  {
    var subtotal := Subtotal(data.invoiceItems);
    var taxAmount := subtotal * (TaxRate / 100.0);
    subtotal + taxAmount
      - DraftDiscount(subtotal, data.paymentTerms.discountType, data.paymentTerms.discountValue)
  }

  /** The preview's computation step by step, with the discount as a reassigned variable. */
  method ComputeTotals(data: InvoiceData) returns (t: InvoiceTotals)
    ensures t == PreviewTotals(data)
    ensures t.subtotal == Subtotal(data.invoiceItems)
    ensures t.taxRate == 10.0 && t.taxAmount * 10.0 == t.subtotal
    ensures t.total == t.subtotal + t.taxAmount - t.discountAmount
    ensures var kind, value := data.paymentTerms.discountType, data.paymentTerms.discountValue;
      && (kind == "percentage" && value > 0.0 ==> t.discountAmount * 100.0 == t.subtotal * value)
      && (kind == "fixed" && value > 0.0 ==> t.discountAmount == value)
      && (kind == "taxi" ==> t.discountAmount * 10.0 == t.subtotal)
      && (kind != "taxi" && !(kind in {"percentage", "fixed"} && value > 0.0) ==> t.discountAmount == 0.0)
  {
    var subtotal := Subtotal(data.invoiceItems);
    var taxRate := TaxRate;
    var taxAmount := subtotal * (taxRate / 100.0);
    var discountAmount := 0.0;
    if data.paymentTerms.discountType == "percentage" && data.paymentTerms.discountValue > 0.0 {
      discountAmount := subtotal * (data.paymentTerms.discountValue / 100.0);
    } else if data.paymentTerms.discountType == "fixed" && data.paymentTerms.discountValue > 0.0 {
      discountAmount := data.paymentTerms.discountValue;
    } else if data.paymentTerms.discountType == "taxi" {
      discountAmount := subtotal * 0.1;
    }
    t := InvoiceTotals(subtotal, taxRate, taxAmount, discountAmount, subtotal + taxAmount - discountAmount);
  }

  /** The save-draft path's own recomputation of the total. */
  method ComputeDraftTotal(data: InvoiceData) returns (total: real)
    ensures total == DraftTotal(data)
    ensures var subtotal, kind, value :=
      Subtotal(data.invoiceItems), data.paymentTerms.discountType, data.paymentTerms.discountValue;
      && (kind == "percentage" && value > 0.0 ==> total * 100.0 == subtotal * 110.0 - subtotal * value)
      && (kind == "fixed" && value > 0.0 ==> total == subtotal + subtotal / 10.0 - value)
      && (!(kind in {"percentage", "fixed"} && value > 0.0) ==> total == subtotal + subtotal / 10.0)
  {
    var subtotal := Subtotal(data.invoiceItems);
    var taxRate := TaxRate;
    var taxAmount := subtotal * (taxRate / 100.0);
    var discountAmount := 0.0;
    if data.paymentTerms.discountType == "percentage" && data.paymentTerms.discountValue > 0.0 {
      discountAmount := subtotal * (data.paymentTerms.discountValue / 100.0);
    } else if data.paymentTerms.discountType == "fixed" && data.paymentTerms.discountValue > 0.0 {
      discountAmount := data.paymentTerms.discountValue;
    }
    total := subtotal + taxAmount - discountAmount;
  }

  /**
   * The saved total and the previewed total agree for every discount type
   * except "taxi", where the saved total ignores the discount and so exceeds
   * the preview by a tenth of the subtotal.
   */
  lemma DraftTotalOmitsTaxi(data: InvoiceData)
    ensures var subtotal := Subtotal(data.invoiceItems);
      if data.paymentTerms.discountType == "taxi" then
        && DraftTotal(data) == subtotal + subtotal / 10.0
        && PreviewTotals(data).total == subtotal
        && DraftTotal(data) - PreviewTotals(data).total == subtotal / 10.0
      else
        DraftTotal(data) == PreviewTotals(data).total
  {
  }

  /** Nothing clamps the total: a fixed discount above subtotal plus tax makes it negative. */
  lemma OversizedFixedDiscountGoesNegative(data: InvoiceData)
    requires data.paymentTerms.discountType == "fixed"
    requires data.paymentTerms.discountValue > Subtotal(data.invoiceItems) * 1.1
    ensures PreviewTotals(data).total < 0.0
    ensures DraftTotal(data) < 0.0
  {
  }

  datatype PreviewCompany = PreviewCompany(
    name: string,
    address: string,
    city: string,
    postalCode: string,
    country: string,
    email: string,
    phone: string,
    logo: Option<string>)

  datatype PreviewClient = PreviewClient(
    name: string,
    address: string,
    city: string,
    postalCode: string,
    country: string,
    email: string,
    phone: string)

  datatype PreviewTerms = PreviewTerms(
    invoiceNumber: string,
    invoiceDate: string,
    dueDate: string,
    notes: string)

  /** The shape handed to the preview component and the preview page. */
  datatype PreviewData = PreviewData(
    companyInfo: PreviewCompany,
    clientDetails: PreviewClient,
    invoiceItems: seq<InvoiceItem>,
    paymentTerms: PreviewTerms,
    discountType: string,
    discountValue: real,
    discountAmount: real,
    subtotal: real,
    taxRate: real,
    taxAmount: real,
    total: real)

  /**
   * The preview record: fields renamed but not altered, and totals that are
   * consistent with the preview's own items and discount settings.
   */
  function ToPreview(data: InvoiceData): (p: PreviewData)
    ensures p.invoiceItems == data.invoiceItems
    ensures var c := data.companyInfo;
      && p.companyInfo.name == c.name && p.companyInfo.address == c.address
      && p.companyInfo.city == c.city && p.companyInfo.postalCode == c.zip
      && p.companyInfo.country == c.country && p.companyInfo.email == c.email
      && p.companyInfo.phone == c.phone && p.companyInfo.logo == c.logo
    ensures var d := data.clientDetails;
      && p.clientDetails.name == d.clientName && p.clientDetails.address == d.clientAddress
      && p.clientDetails.city == d.clientCity && p.clientDetails.postalCode == d.clientZip
      && p.clientDetails.country == d.clientCountry && p.clientDetails.email == d.clientEmail
      && p.clientDetails.phone == d.clientPhone
    ensures p.paymentTerms.invoiceNumber == data.invoiceNumber
    ensures p.paymentTerms.invoiceDate == data.invoiceDate
    ensures p.paymentTerms.dueDate == data.paymentTerms.dueDate
    ensures p.paymentTerms.notes == data.paymentTerms.notes
    ensures p.discountType == data.paymentTerms.discountType
    ensures p.discountValue == data.paymentTerms.discountValue
    ensures p.discountAmount == PreviewTotals(data).discountAmount
    ensures p.total == PreviewTotals(data).total
    ensures p.subtotal == Subtotal(p.invoiceItems)
    ensures p.taxRate == 10.0 && p.taxAmount * 10.0 == p.subtotal
    ensures p.discountAmount == PreviewDiscount(p.subtotal, p.discountType, p.discountValue)
    ensures p.total == p.subtotal + p.taxAmount - p.discountAmount
  {
    var t := PreviewTotals(data);
    var c := data.companyInfo;
    var d := data.clientDetails;
    PreviewData(
      PreviewCompany(c.name, c.address, c.city, c.zip, c.country, c.email, c.phone, c.logo),
      PreviewClient(d.clientName, d.clientAddress, d.clientCity, d.clientZip, d.clientCountry,
                    d.clientEmail, d.clientPhone),
      data.invoiceItems,
      PreviewTerms(data.invoiceNumber, data.invoiceDate, data.paymentTerms.dueDate, data.paymentTerms.notes),
      data.paymentTerms.discountType,
      data.paymentTerms.discountValue,
      t.discountAmount,
      t.subtotal,
      t.taxRate,
      t.taxAmount,
      t.total)
  }

  /**
   * The preview never shows the company's state and website, the client's
   * state, or the payment-terms choice: documents that differ only there
   * have the same preview.
   */
  lemma PreviewDropsFields(data: InvoiceData, state: string, website: string, clientState: string, terms: string)
    ensures ToPreview(data.(
      companyInfo := data.companyInfo.(state := state, website := website),
      clientDetails := data.clientDetails.(clientState := clientState),
      paymentTerms := data.paymentTerms.(paymentTerms := terms))) == ToPreview(data)
  {
  }

  /** The sample lines satisfy the line invariant and add up to 1250. */
  lemma DefaultItemsSubtotal()
    ensures AllConsistent(DefaultItems())
    ensures Subtotal(DefaultItems()) == 1250.0
  {
  }

  /** The page's starting document, with the generated number and dates supplied. */
  function HomeDefaults(invoiceNumber: string, invoiceDate: string, dueDate: string): InvoiceData
  {
    InvoiceData(
      CompanyInfo("Your Company Name", "123 Business Street", "City", "State", "12345", "Country",
                  "(555) 123-4567", "contact@yourcompany.com", "www.yourcompany.com",
                  Some("https://api.dicebear.com/7.x/avataaars/svg?seed=company")),
      ClientDetails("Client Name", "client@example.com", "456 Client Avenue", "Client City",
                    "Client State", "54321", "Client Country", "(555) 987-6543"),
      DefaultItems(),
      PaymentTerms(dueDate, "net30", "Please make payment by the due date.", "none", 0.0),
      invoiceNumber,
      invoiceDate)
  }

  /** The starting document previews as 1250 + 125 tax = 1375 and saves with the same total. */
  lemma HomeDefaultsTotals(invoiceNumber: string, invoiceDate: string, dueDate: string)
    ensures var data := HomeDefaults(invoiceNumber, invoiceDate, dueDate);
      && PreviewTotals(data) == InvoiceTotals(1250.0, 10.0, 125.0, 0.0, 1375.0)
      && DraftTotal(data) == 1375.0
  {
    DefaultItemsSubtotal();
    assert "none" != "percentage" && "none" != "fixed" && "none" != "taxi" by {
      assert "none"[0] != "percentage"[0] && "none"[0] != "fixed"[0] && "none"[0] != "taxi"[0];
    }
  }
}
