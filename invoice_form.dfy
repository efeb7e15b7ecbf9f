/**
 * The multi-tab invoice form: its four-tab navigation, the field-wise
 * updates of the working document, and the starting document built from
 * defaults shallow-merged with the caller's initial data.
 */
module InvoiceForm {
  import opened Wrappers
  import opened InvoiceTypes
  import Totals

  // ---------------------------------------------------------------- tabs

  /** The four tab values of the form. */
  predicate IsTab(t: string)
  {
    t == "company" || t == "client" || t == "items" || t == "payment"
  }

  /** `handleNextTab`: one tab forward; "payment" and unknown values stay put. */
  function NextTab(t: string): string
  {
    if t == "company" then "client"
    else if t == "client" then "items"
    else if t == "items" then "payment"
    else t
  }

  /** `handlePrevTab`: one tab back; "company" and unknown values stay put. */
  function PrevTab(t: string): string
  {
    if t == "payment" then "items"
    else if t == "items" then "client"
    else if t == "client" then "company"
    else t
  }

  /** Position of a tab in the tab bar, left to right. */
  function TabIndex(t: string): nat
    requires IsTab(t)
  {
    if t == "company" then 0 else if t == "client" then 1 else if t == "items" then 2 else 3
  }

  /** Next and previous move one position along the bar and stop at its ends. */
  lemma TabSteps(t: string)
    ensures IsTab(t) ==> IsTab(NextTab(t)) && IsTab(PrevTab(t))
    ensures IsTab(t) ==> TabIndex(NextTab(t)) == if TabIndex(t) < 3 then TabIndex(t) + 1 else 3
    ensures IsTab(t) ==> TabIndex(PrevTab(t)) == if TabIndex(t) > 0 then TabIndex(t) - 1 else 0
    ensures !IsTab(t) ==> NextTab(t) == t && PrevTab(t) == t
  {
  }

  /** Previous undoes next except on the last tab; next undoes previous except on the first. */
  lemma TabRoundTrips(t: string)
    ensures IsTab(t) && t != "payment" ==> PrevTab(NextTab(t)) == t
    ensures IsTab(t) && t != "company" ==> NextTab(PrevTab(t)) == t
  {
  }

  datatype TabMove = Next | Prev

  /** The tab reached after pressing the buttons in `moves`, in order. */
  function Navigate(t: string, moves: seq<TabMove>): string
    decreases |moves|
  {
    if moves == [] then t
    else Navigate(if moves[0] == Next then NextTab(t) else PrevTab(t), moves[1..])
  }

  /** From any tab, and so from the initial "company", every button sequence stays on the four tabs. */
  lemma {:induction false} NavigationStaysOnTabs(t: string, moves: seq<TabMove>)
    requires IsTab(t)
    ensures IsTab(Navigate(t, moves))
    decreases |moves|
  {
    if moves != [] {
      TabSteps(t);
      NavigationStaysOnTabs(if moves[0] == Next then NextTab(t) else PrevTab(t), moves[1..]);
    }
  }

  /** Pressing next three times from the first tab reaches the last one, and it stays there. */
  lemma {:induction false} NextReachesPayment(n: nat)
    requires n >= 3
    ensures Navigate("company", seq(n, _ => Next)) == "payment"
  {
    var moves := seq(n, _ => Next);
    assert moves[1..] == seq(n - 1, _ => Next);
    assert moves[1..][1..] == seq(n - 2, _ => Next);
    assert moves[1..][1..][1..] == seq(n - 3, _ => Next);
    PaymentIsFixedByNext(n - 3);
    assert Navigate("items", moves[1..][1..]) == Navigate("payment", moves[1..][1..][1..]);
    assert Navigate("client", moves[1..]) == Navigate("items", moves[1..][1..]);
  }

  lemma {:induction false} PaymentIsFixedByNext(n: nat)
    ensures Navigate("payment", seq(n, _ => Next)) == "payment"
  {
    if n > 0 {
      assert seq(n, _ => Next)[1..] == seq(n - 1, _ => Next);
      PaymentIsFixedByNext(n - 1);
    }
  }

  // ------------------------------------------------------- field updates

  /** The input names of the client-details form. */
  datatype ClientField =
    | ClientName | ClientEmail | ClientAddress | ClientCity
    | ClientState | ClientZip | ClientCountry | ClientPhone

  function ClientFieldValue(c: ClientDetails, f: ClientField): string
  {
    match f
    case ClientName => c.clientName
    case ClientEmail => c.clientEmail
    case ClientAddress => c.clientAddress
    case ClientCity => c.clientCity
    case ClientState => c.clientState
    case ClientZip => c.clientZip
    case ClientCountry => c.clientCountry
    case ClientPhone => c.clientPhone
  }

  /** `{ ...clientDetails, [field]: value }`. */
  function WithClientField(c: ClientDetails, f: ClientField, v: string): ClientDetails
  {
    match f
    case ClientName => c.(clientName := v)
    case ClientEmail => c.(clientEmail := v)
    case ClientAddress => c.(clientAddress := v)
    case ClientCity => c.(clientCity := v)
    case ClientState => c.(clientState := v)
    case ClientZip => c.(clientZip := v)
    case ClientCountry => c.(clientCountry := v)
    case ClientPhone => c.(clientPhone := v)
  }

  /** The field is read back as written, every other field as it was; writing a field's own value changes nothing. */
  lemma WithClientFieldSpec(c: ClientDetails, f: ClientField, v: string)
    ensures forall g :: ClientFieldValue(WithClientField(c, f, v), g) == if g == f then v else ClientFieldValue(c, g)
    ensures WithClientField(c, f, ClientFieldValue(c, f)) == c
  {
  }

  /** A change from the payment-terms form; the discount value arrives as a number. */
  datatype PaymentEdit =
    | SetDueDate(dueDate: string)
    | SetPaymentTerms(terms: string)
    | SetNotes(notes: string)
    | SetDiscountType(discountType: string)
    | SetDiscountValue(discountValue: real)

  /** `{ ...paymentTerms, [field]: value }`. */
  function ApplyPaymentEdit(pt: PaymentTerms, e: PaymentEdit): PaymentTerms
  {
    match e
    case SetDueDate(v) => pt.(dueDate := v)
    case SetPaymentTerms(v) => pt.(paymentTerms := v)
    case SetNotes(v) => pt.(notes := v)
    case SetDiscountType(v) => pt.(discountType := v)
    case SetDiscountValue(v) => pt.(discountValue := v)
  }

  /** Exactly the edited field takes the new value; the other four keep theirs. */
  lemma PaymentEditFrame(pt: PaymentTerms, e: PaymentEdit)
    ensures var r := ApplyPaymentEdit(pt, e);
      && r.dueDate == (if e.SetDueDate? then e.dueDate else pt.dueDate)
      && r.paymentTerms == (if e.SetPaymentTerms? then e.terms else pt.paymentTerms)
      && r.notes == (if e.SetNotes? then e.notes else pt.notes)
      && r.discountType == (if e.SetDiscountType? then e.discountType else pt.discountType)
      && r.discountValue == (if e.SetDiscountValue? then e.discountValue else pt.discountValue)
  {
  }

  /** Only discount edits can change the totals; the items are untouched by payment edits. */
  lemma PaymentEditTotals(data: InvoiceData, e: PaymentEdit)
    requires !e.SetDiscountType? && !e.SetDiscountValue?
    ensures Totals.PreviewTotals(data.(paymentTerms := ApplyPaymentEdit(data.paymentTerms, e)))
         == Totals.PreviewTotals(data)
  {
  }

  // ------------------------------------------------------- initial state

  /** The `Partial<InvoiceData>` a caller may pass: each top-level key present or not. */
  datatype InitialData = InitialData(
    companyInfo: Option<CompanyInfo>,
    clientDetails: Option<ClientDetails>,
    invoiceItems: Option<seq<InvoiceItem>>,
    paymentTerms: Option<PaymentTerms>,
    invoiceNumber: Option<string>,
    invoiceDate: Option<string>)

  /** The default `{}`. */
  function NoInitialData(): InitialData
  {
    InitialData(None, None, None, None, None, None)
  }

  /** A full document passed as initial data, as the invoice page does. */
  function Whole(data: InvoiceData): InitialData
  {
    InitialData(Some(data.companyInfo), Some(data.clientDetails), Some(data.invoiceItems),
                Some(data.paymentTerms), Some(data.invoiceNumber), Some(data.invoiceDate))
  }

  function Pick<T>(given: Option<T>, default: T): T
  {
    if given.Some? then given.value else default
  }

  /** `{ ...defaults, ...initialData }`: a shallow merge, key by key. */
  function MergeInitial(defaults: InvoiceData, init: InitialData): InvoiceData
  {
    InvoiceData(
      Pick(init.companyInfo, defaults.companyInfo),
      Pick(init.clientDetails, defaults.clientDetails),
      Pick(init.invoiceItems, defaults.invoiceItems),
      Pick(init.paymentTerms, defaults.paymentTerms),
      Pick(init.invoiceNumber, defaults.invoiceNumber),
      Pick(init.invoiceDate, defaults.invoiceDate))
  }

  /**
   * A present key replaces the default whole (no deep merge), an absent one
   * keeps it; `{}` gives the defaults, a full document gives itself, and
   * merging again with the same data changes nothing.
   */
  lemma MergeInitialSpec(defaults: InvoiceData, init: InitialData)
    ensures var r := MergeInitial(defaults, init);
      && r.companyInfo == (if init.companyInfo.Some? then init.companyInfo.value else defaults.companyInfo)
      && r.clientDetails == (if init.clientDetails.Some? then init.clientDetails.value else defaults.clientDetails)
      && r.invoiceItems == (if init.invoiceItems.Some? then init.invoiceItems.value else defaults.invoiceItems)
      && r.paymentTerms == (if init.paymentTerms.Some? then init.paymentTerms.value else defaults.paymentTerms)
      && r.invoiceNumber == (if init.invoiceNumber.Some? then init.invoiceNumber.value else defaults.invoiceNumber)
      && r.invoiceDate == (if init.invoiceDate.Some? then init.invoiceDate.value else defaults.invoiceDate)
      && MergeInitial(r, init) == r
    ensures MergeInitial(defaults, NoInitialData()) == defaults
    ensures forall data :: MergeInitial(defaults, Whole(data)) == data
  {
  }

  /**
   * The form's own defaults, with the generated number and dates supplied.
   * Its payment terms carry no discount keys; "none" and 0 stand for the
   * missing ones, which every discount test treats the same way.
   */
  function FormDefaults(invoiceNumber: string, invoiceDate: string, dueDate: string): InvoiceData
  {
    InvoiceData(
      CompanyInfo("Your Company Name", "123 Business Street", "City", "State", "12345", "Country",
                  "(555) 123-4567", "contact@yourcompany.com", "www.yourcompany.com", Some("")),
      ClientDetails("Client Name", "client@example.com", "456 Client Avenue", "Client City",
                    "Client State", "54321", "Client Country", "(555) 987-6543"),
      DefaultItems(),
      PaymentTerms(dueDate, "net30", "Please make payment by the due date.", "none", 0.0),
      invoiceNumber,
      invoiceDate)
  }

  // ----------------------------------------------------------- component

  /** The form's state: the open tab and the working document. */
  class InvoiceFormState {
    var activeTab: string
    var invoiceData: InvoiceData

    constructor (initialData: InitialData, invoiceNumber: string, invoiceDate: string, dueDate: string)
      ensures activeTab == "company"
      ensures invoiceData == MergeInitial(FormDefaults(invoiceNumber, invoiceDate, dueDate), initialData)
    {
      activeTab := "company";
      invoiceData := MergeInitial(FormDefaults(invoiceNumber, invoiceDate, dueDate), initialData);
    }

    /** Each updater returns the document it stores, the one handed to `onUpdate`. */
    method UpdateCompanyInfo(companyInfo: CompanyInfo) returns (reported: InvoiceData)
      modifies this
      ensures invoiceData == old(invoiceData).(companyInfo := companyInfo)
      ensures reported == invoiceData && activeTab == old(activeTab)
    {
      var updatedData := invoiceData.(companyInfo := companyInfo);
      invoiceData := updatedData;
      reported := updatedData;
    }

    method UpdateClientDetails(field: ClientField, value: string) returns (reported: InvoiceData)
      modifies this
      ensures invoiceData == old(invoiceData).(clientDetails := WithClientField(old(invoiceData).clientDetails, field, value))
      ensures ClientFieldValue(invoiceData.clientDetails, field) == value
      ensures forall g :: g != field ==>
        ClientFieldValue(invoiceData.clientDetails, g) == ClientFieldValue(old(invoiceData).clientDetails, g)
      ensures reported == invoiceData && activeTab == old(activeTab)
    {
      WithClientFieldSpec(invoiceData.clientDetails, field, value);
      var updatedClientDetails := WithClientField(invoiceData.clientDetails, field, value);
      var updatedData := invoiceData.(clientDetails := updatedClientDetails);
      invoiceData := updatedData;
      reported := updatedData;
    }

    method UpdateInvoiceItems(items: seq<InvoiceItem>) returns (reported: InvoiceData)
      modifies this
      ensures invoiceData == old(invoiceData).(invoiceItems := items)
      ensures reported == invoiceData && activeTab == old(activeTab)
    {
      var updatedData := invoiceData.(invoiceItems := items);
      invoiceData := updatedData;
      reported := updatedData;
    }

    method UpdatePaymentTerms(edit: PaymentEdit) returns (reported: InvoiceData)
      modifies this
      ensures invoiceData == old(invoiceData).(paymentTerms := ApplyPaymentEdit(old(invoiceData).paymentTerms, edit))
      ensures reported == invoiceData && activeTab == old(activeTab)
    {
      var updatedPaymentTerms := ApplyPaymentEdit(invoiceData.paymentTerms, edit);
      var updatedData := invoiceData.(paymentTerms := updatedPaymentTerms);
      invoiceData := updatedData;
      reported := updatedData;
    }

    method HandleNextTab()
      modifies this
      ensures activeTab == NextTab(old(activeTab)) && invoiceData == old(invoiceData)
      ensures IsTab(old(activeTab)) ==> IsTab(activeTab)
    {
      if activeTab == "company" {
        activeTab := "client";
      } else if activeTab == "client" {
        activeTab := "items";
      } else if activeTab == "items" {
        activeTab := "payment";
      }
    }

    method HandlePrevTab()
      modifies this
      ensures activeTab == PrevTab(old(activeTab)) && invoiceData == old(invoiceData)
      ensures IsTab(old(activeTab)) ==> IsTab(activeTab)
    {
      if activeTab == "payment" {
        activeTab := "items";
      } else if activeTab == "items" {
        activeTab := "client";
      } else if activeTab == "client" {
        activeTab := "company";
      }
    }

    /** A click on one of the four tab triggers. */
    method SelectTab(t: string)
      requires IsTab(t)
      modifies this
      ensures activeTab == t && invoiceData == old(invoiceData)
    {
      activeTab := t;
    }
  }
}
