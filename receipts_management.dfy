/** Receipts in the back office (src/pages/admin/ReceiptsManagement.tsx). */
module ReceiptsManagement {
  import opened Wrappers
  import opened Records
  import opened Aggregates
  import Decimal

  function AmountOf(r: Receipt): int {
    r.amount
  }

  /** `receipts.reduce((sum, r) => sum + r.amount, 0)`. */
  function TotalRevenue(rs: seq<Receipt>): (t: int)
    ensures rs == [] ==> t == 0
  {
    Sum(Map(rs, AmountOf))
  }

  /** The total is 0 with no receipts and adds up over any split of the list. */
  lemma TotalRevenueAdds(a: seq<Receipt>, b: seq<Receipt>)
    ensures TotalRevenue([]) == 0
    ensures TotalRevenue(a + b) == TotalRevenue(a) + TotalRevenue(b)
  {
    MapAppend(a, b, AmountOf);
    SumAppend(Map(a, AmountOf), Map(b, AmountOf));
  }

  /** With non-negative amounts the total is non-negative and bounds every single amount. */
  lemma TotalRevenueBounds(rs: seq<Receipt>, k: nat)
    requires forall i :: 0 <= i < |rs| ==> rs[i].amount >= 0
    requires k < |rs|
    ensures TotalRevenue(rs) >= rs[k].amount
  {
    var xs := Map(rs, AmountOf);
    assert xs == xs[..k] + [xs[k]] + xs[k + 1..];
    SumAppend(xs[..k] + [xs[k]], xs[k + 1..]);
    SumAppend(xs[..k], [xs[k]]);
    assert Sum([xs[k]]) == xs[k] by { assert [xs[k]][..0] == []; }
    SumNonNegative(xs[..k]);
    SumNonNegative(xs[k + 1..]);
  }

  /** `formData` of `CreateReceiptModal`. */
  datatype ReceiptForm = ReceiptForm(
    receipt_no: string,
    client_id: string,
    property_id: string,
    plot_id: string,
    amount: int,
    payment_method: string,
    date: string,
    notes: string)

  /** `iso.split('T')[0]`: the text before the first `T`, or all of it. */
  function DatePart(iso: string): (r: string)
    ensures r <= iso && 'T' !in r
    ensures |r| < |iso| ==> iso[|r|] == 'T'
  {
    if iso == [] || iso[0] == 'T' then [] else [iso[0]] + DatePart(iso[1..])
  }

  /** The defaults, given `Date.now()` and `new Date().toISOString()` of the moment it opens. */
  function DefaultForm(now: nat, isoNow: string): (f: ReceiptForm)
    ensures f.receipt_no == "RCP-" + Decimal.Show(now)
    ensures f.client_id == "" && f.property_id == "" && f.plot_id == ""
    ensures f.amount == 0 && f.payment_method == "Cash" && f.notes == ""
    ensures f.date == DatePart(isoNow)
  {
    ReceiptForm("RCP-" + Decimal.Show(now), "", "", "", 0, "Cash", DatePart(isoNow), "")
  }

  /** The form's `onChange` handlers, one per input. */
  datatype ReceiptEdit =
    | SetReceiptNo(receiptNo: string)
    | SetClient(clientId: string)
    | SetProperty(propertyId: string)
    | SetPlot(plotId: string)
    | SetAmount(amount: int)
    | SetPaymentMethod(paymentMethod: string)
    | SetDate(date: string)
    | SetNotes(notes: string)

  /** Each handler writes its own field and nothing else. */
  function ApplyEdit(f: ReceiptForm, e: ReceiptEdit): (r: ReceiptForm)
    ensures e.SetReceiptNo? ==> r == f.(receipt_no := e.receiptNo)
    ensures e.SetClient? ==> r == f.(client_id := e.clientId)
    ensures e.SetProperty? ==> r == f.(property_id := e.propertyId)
    ensures e.SetPlot? ==> r == f.(plot_id := e.plotId)
    ensures e.SetAmount? ==> r == f.(amount := e.amount)
    ensures e.SetPaymentMethod? ==> r == f.(payment_method := e.paymentMethod)
    ensures e.SetDate? ==> r == f.(date := e.date)
    ensures e.SetNotes? ==> r == f.(notes := e.notes)
  {
    match e
    case SetReceiptNo(s) => f.(receipt_no := s)
    case SetClient(s) => f.(client_id := s)
    case SetProperty(s) => f.(property_id := s)
    case SetPlot(s) => f.(plot_id := s)
    case SetAmount(n) => f.(amount := n)
    case SetPaymentMethod(s) => f.(payment_method := s)
    case SetDate(s) => f.(date := s)
    case SetNotes(s) => f.(notes := s)
  }

  /** The row inserted into `receipts`. */
  datatype ReceiptInsert = ReceiptInsert(
    receipt_no: string,
    client_id: string,
    property_id: Option<string>,
    plot_id: Option<string>,
    amount: int,
    payment_method: string,
    date: string,
    notes: string)

  /** `value || null`. */
  function OrNull(s: string): (o: Option<string>)
    ensures o.None? <==> s == ""
    ensures o.Some? ==> o.value == s
  {
    if s == "" then None else Some(s)
  }

  function NullToEmpty(o: Option<string>): string {
    if o.Some? then o.value else ""
  }

  /** The insert payload of `saveMutation`. */
  function InsertPayload(f: ReceiptForm): ReceiptInsert {
    ReceiptInsert(f.receipt_no, f.client_id, OrNull(f.property_id), OrNull(f.plot_id),
                  f.amount, f.payment_method, f.date, f.notes)
  }

  /** The inverse of the insert mapping: the payload loses nothing of the form. */
  function FormOfInsert(r: ReceiptInsert): ReceiptForm {
    ReceiptForm(r.receipt_no, r.client_id, NullToEmpty(r.property_id), NullToEmpty(r.plot_id),
                r.amount, r.payment_method, r.date, r.notes)
  }

  /**
   * Only the empty property and plot choices change, to null; every other field is copied
   * verbatim, so the form can be read back from the payload.
   */
  lemma InsertPayloadRoundTrip(f: ReceiptForm)
    ensures FormOfInsert(InsertPayload(f)) == f
    ensures InsertPayload(f).property_id.None? <==> f.property_id == ""
    ensures InsertPayload(f).plot_id.None? <==> f.plot_id == ""
  {
  }

  /**
   * `handleSubmit`: it checks only that a client is chosen. The browser's own checks of the
   * form's required inputs come before it and are not modelled.
   */
  function Submission(f: ReceiptForm): (r: Option<ReceiptInsert>)
    ensures r.None? <==> f.client_id == ""
    ensures r.Some? ==> r.value == InsertPayload(f)
  {
    if f.client_id == "" then None else Some(InsertPayload(f))
  }

  /** Unlike a virtual tour, a receipt may name both a property and a plot. */
  lemma BothLinksAccepted(f: ReceiptForm)
    requires f.client_id != "" && f.property_id != "" && f.plot_id != ""
    ensures Submission(f).Some?
    ensures Submission(f).value.property_id == Some(f.property_id)
    ensures Submission(f).value.plot_id == Some(f.plot_id)
  {
  }

  /** An untouched form has no client and is rejected. */
  lemma DefaultFormRejected(now: nat, isoNow: string)
    ensures Submission(DefaultForm(now, isoNow)).None?
  {
  }

  datatype CompanyConfig = CompanyConfig(
    company_name: string,
    company_phone: string,
    company_email: string,
    company_address: string,
    company_logo_url: string)

  /** `selectedReceipt && companyConfig`: what the receipt view renders, if anything. */
  function ReceiptView(selected: Option<Receipt>, config: Option<CompanyConfig>)
    : (v: Option<(Receipt, CompanyConfig)>)
    ensures v.Some? <==> selected.Some? && config.Some?
    ensures v.Some? ==> v.value == (selected.value, config.value)
  {
    if selected.Some? && config.Some? then Some((selected.value, config.value)) else None
  }

  /** `CreateReceiptModal`: the form state and its submit handler. */
  class CreateReceiptModal {
    var formData: ReceiptForm

    constructor (now: nat, isoNow: string)
      ensures formData == DefaultForm(now, isoNow)
    {
      formData := DefaultForm(now, isoNow);
    }

    method Edit(e: ReceiptEdit)
      modifies this
      ensures formData == ApplyEdit(old(formData), e)
      ensures !e.SetClient? ==> formData.client_id == old(formData).client_id
    {
      formData := ApplyEdit(formData, e);
    }

    /** `handleSubmit`: the alert (`None`) or the row handed to the insert. */
    method HandleSubmit() returns (r: Option<ReceiptInsert>)
      ensures r.None? <==> formData.client_id == ""
      ensures r.Some? ==> FormOfInsert(r.value) == formData
      ensures r == Submission(formData)
    {
      InsertPayloadRoundTrip(formData);
      r := Submission(formData);
    }
  }
}
