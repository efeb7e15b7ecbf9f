/**
 * The records the invoice generator works on: the full working document
 * (company, client, line items, payment terms, number and date) and the
 * reduced summary record that is the only thing ever persisted.
 */
module InvoiceTypes {
  import opened Wrappers

  /** One line of the invoice; the forms keep `total == quantity * price`. */
  datatype InvoiceItem = InvoiceItem(
    id: string,
    description: string,
    quantity: real,
    price: real,
    total: real)

  datatype CompanyInfo = CompanyInfo(
    name: string,
    address: string,
    city: string,
    state: string,
    zip: string,
    country: string,
    phone: string,
    email: string,
    website: string,
    logo: Option<string>)

  datatype ClientDetails = ClientDetails(
    clientName: string,
    clientEmail: string,
    clientAddress: string,
    clientCity: string,
    clientState: string,
    clientZip: string,
    clientCountry: string,
    clientPhone: string)

  /** `discountType` is one of "none", "percentage", "fixed", "taxi" in the UI, but any string is stored. */
  datatype PaymentTerms = PaymentTerms(
    dueDate: string,
    paymentTerms: string,
    notes: string,
    discountType: string,
    discountValue: real)

  /** The working document edited by the form. */
  datatype InvoiceData = InvoiceData(
    companyInfo: CompanyInfo,
    clientDetails: ClientDetails,
    invoiceItems: seq<InvoiceItem>,
    paymentTerms: PaymentTerms,
    invoiceNumber: string,
    invoiceDate: string)

  /** The persisted summary; `status` is "draft", "sent", "paid" or "overdue" by declaration. */
  datatype InvoiceSummary = InvoiceSummary(
    id: string,
    invoiceNumber: string,
    clientName: string,
    invoiceDate: string,
    dueDate: string,
    total: real,
    status: string)

  /** The two sample lines the page, the form and the item editor all start with. */
  function DefaultItems(): seq<InvoiceItem>
  {
    [InvoiceItem("1", "Website Design", 1.0, 500.0, 500.0),
     InvoiceItem("2", "Development Hours", 10.0, 75.0, 750.0)]
  }

  /** The line-item invariant the item editor maintains. */
  predicate Consistent(item: InvoiceItem)
  {
    item.total == item.quantity * item.price
  }

  predicate AllConsistent(items: seq<InvoiceItem>)
  {
    forall k :: 0 <= k < |items| ==> Consistent(items[k])
  }
}
