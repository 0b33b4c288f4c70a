/** What each synchronous service of invoice_service.py does to the rows. */
module InvoiceService {
  import opened Wrappers
  import opened StateMachine
  import opened Records
  import Numbers

  /** A creation payload after party resolution and enrichment; `number` is already stripped. */
  datatype Payload = Payload(org: nat, supplier: Supplier, data: Snapshot, externalId: Option<string>, number: string)

  function NewInvoice(d: Payload): Invoice {
    var data := if d.number != "" then d.data.(invoiceNumber := d.number) else d.data;
    Sync(Invoice(d.org, d.supplier, d.number, Draft, None, data, d.externalId, None, false, 1,
                 None, "", None, "", ""))
  }

  function CreateInvoice(s: State, d: Payload): Effect {
    if Admits(s.invoices, |s.invoices|, NewInvoice(d))
    then Effect(Add(s, NewInvoice(d)), Done)
    else Effect(s, IntegrityError)
  }

  /** A PATCH: the fields present in the payload, the snapshot as merged and enriched. */
  datatype Patch = Patch(
    version: Option<int>,
    supplier: Option<Supplier>,
    data: Option<Snapshot>,
    externalId: Option<Option<string>>)

  function Patched(inv: Invoice, p: Patch): Invoice {
    Sync(inv.(supplier := p.supplier.GetOr(inv.supplier),
              data := p.data.GetOr(inv.data),
              externalId := p.externalId.GetOr(inv.externalId),
              version := inv.version + 1))
  }

  function UpdateInvoice(s: State, id: Id, p: Patch): Effect
    requires id < |s.invoices|
  {
    var inv := s.invoices[id];
    if inv.status != Draft || p.version != Some(inv.version) then Effect(s, ConflictError)
    else if !Admits(s.invoices, id, Patched(inv, p)) then Effect(s, IntegrityError)
    else Effect(Note(Save(s, id, Patched(inv, p)), DataUpdate(id)), Done)
  }

  function Replaced(inv: Invoice, supplier: Supplier, data: Snapshot): Invoice {
    Sync(inv.(supplier := supplier,
              data := if inv.number != "" then data.(invoiceNumber := inv.number) else data,
              version := inv.version + 1))
  }

  function ReplaceDraftData(s: State, id: Id, supplier: Supplier, data: Snapshot): Effect
    requires id < |s.invoices|
  {
    var inv := s.invoices[id];
    if inv.status != Draft then Effect(s, ConflictError)
    else if !Admits(s.invoices, id, Replaced(inv, supplier, data)) then Effect(s, IntegrityError)
    else Effect(Note(Save(s, id, Replaced(inv, supplier, data)), DataUpdate(id)), Done)
  }

  function SoftDelete(s: State, id: Id): Effect
    requires id < |s.invoices|
  {
    var inv := s.invoices[id];
    if inv.status != Draft || inv.number != "" then Effect(s, ConflictError)
    else Effect(Note(Save(s, id, inv.(deleted := true)), Delete(id)), Done)
  }

  // ---------- validation and numbering ----------

  function LastNumber(counters: map<Series, nat>, key: Series): nat {
    if key in counters then counters[key] else 0
  }

  function SeriesOf(inv: Invoice, prefix: string): Series {
    Series(inv.supplier.id, prefix)
  }

  /** The number the invoice leaves `validate_invoice` with. */
  function NumberFor(s: State, inv: Invoice, prefix: string, padding: nat): string {
    if inv.number != "" then inv.number
    else Numbers.Print(prefix, LastNumber(s.counters, SeriesOf(inv, prefix)) + 1, padding)
  }

  function CountersAfter(s: State, inv: Invoice, prefix: string): map<Series, nat> {
    if inv.number != "" then s.counters
    else s.counters[SeriesOf(inv, prefix) := LastNumber(s.counters, SeriesOf(inv, prefix)) + 1]
  }

  /** Number injected, and a payment recorded beforehand reflected in the totals (BR-CO-16). */
  function Numbered(inv: Invoice, number: string): Invoice {
    var data := inv.data.(invoiceNumber := number);
    var data' :=
      if inv.paymentAmount.None? || inv.paymentAmount.value == 0 then data
      else data.(prepayment := inv.paymentAmount,
                 amountDue := Some(data.gross.GetOr(0) - inv.paymentAmount.value));
    Sync(inv.(number := number, data := data'))
  }

  /** `partiesOk`: the IBAN and exemption checks on the supplier pass. A constraint violation
      rolls the counter back with the invoice. */
  function ValidateInvoice(s: State, id: Id, partiesOk: bool, prefix: string, padding: nat): Effect
    requires id < |s.invoices|
  {
    var inv := s.invoices[id];
    if !TransitionAccepted(inv.status, Processing) then Effect(s, ConflictError)
    else if !partiesOk then Effect(s, ValueError)
    else
      var inv' := Numbered(inv, NumberFor(s, inv, prefix, padding));
      if !Admits(s.invoices, id, inv') then Effect(s, IntegrityError)
      else Effect(Move(s, id, inv', Processing, ByUser).(counters := CountersAfter(s, inv, prefix)), Done)
  }

  function TransmitInvoice(s: State, id: Id): Effect
    requires id < |s.invoices|
  {
    if !TransitionAccepted(s.invoices[id].status, Transmitting) then Effect(s, ConflictError)
    else Effect(Move(s, id, s.invoices[id], Transmitting, ByUser), Done)
  }

  // ---------- payment ----------

  /** `payment_data`: the keys present in it. */
  datatype PaymentData = PaymentData(date: Option<int>, reference: Option<string>, amount: Option<int>)

  const NO_PAYMENT_DATA := PaymentData(None, None, None)

  predicate Truthy(amount: Option<int>) {
    amount.Some? && amount.value != 0
  }

  /** Values given now win, values recorded earlier come next, defaults last. */
  function WithPayment(inv: Invoice, p: PaymentData, today: int): Invoice {
    Sync(inv.(
      paymentDate := if p.date.Some? then p.date else if inv.paymentDate.Some? then inv.paymentDate else Some(today),
      paymentReference := p.reference.GetOr(inv.paymentReference),
      paymentAmount :=
        if Truthy(p.amount) then p.amount
        else if Truthy(inv.paymentAmount) then inv.paymentAmount
        else inv.total))
  }

  function MarkPaid(s: State, id: Id, p: PaymentData, source: string, today: int): Effect
    requires id < |s.invoices|
  {
    var inv := s.invoices[id];
    if !TransitionAccepted(inv.status, Paid) then Effect(s, ConflictError)
    else
      var inv' := WithPayment(inv, p, today);
      var why := Payment(source, inv'.paymentDate, inv'.paymentReference, inv'.paymentAmount);
      Effect(Move(s, id, inv', Paid, why), Done)
  }

  // ---------- cancellation ----------

  function CreditNote(inv: Invoice, id: Id): Invoice {
    var data := inv.data.(typeCode := CREDIT_NOTE_TYPE_CODE,
                          precedingReference := if inv.number != "" then inv.number else inv.data.precedingReference);
    Sync(Invoice(inv.org, inv.supplier, "", Draft, None, data, None, Some(id), false, 1,
                 None, "", None, "", ""))
  }

  function CancelInvoice(s: State, id: Id): Effect
    requires id < |s.invoices|
  {
    if s.invoices[id].status !in {Validated, Transmitted, Accepted, Paid} then Effect(s, ConflictError)
    else Effect(Add(s, CreditNote(s.invoices[id], id)), Done)
  }

  /** The credit note cancels the invoice it is linked to. */
  predicate Cancels(s: State, creditNote: Id)
    requires creditNote < |s.invoices|
  {
    var note := s.invoices[creditNote];
    && note.preceding.Some?
    && note.preceding.value < |s.invoices|
    && var original := s.invoices[note.preceding.value];
       original.status in {Validated, Paid}
       && note.total.Some? && note.total == original.total
  }

  function CheckAutoCancel(s: State, creditNote: Id): State
    requires creditNote < |s.invoices|
  {
    if !Cancels(s, creditNote) then s
    else
      var original := s.invoices[creditNote].preceding.value;
      Move(s, original, s.invoices[original], Cancelled, CreditNoteValidated(creditNote))
  }
}
