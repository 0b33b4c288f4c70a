/** What the payment services and the inbound payment webhooks do to the rows. */
module Payments {
  import opened Wrappers
  import opened StateMachine
  import opened Records
  import opened InvoiceService

  /** The answer of the provider to a checkout request. */
  datatype Session = Session(paymentId: string, status: TxnStatus, url: string)

  function CreateCheckout(s: State, id: Id, provider: string, answer: Session): Effect
    requires id < |s.invoices|
  {
    var inv := s.invoices[id];
    var open := FirstTxn(s.txns, (t: Txn) =>
                           t.invoice == id && t.provider == provider && t.status in {TxnCreated, TxnPending});
    if inv.status !in {Validated, Transmitted, Accepted} then Effect(s, ConflictError)
    else if open.Some? && s.txns[open.value].url != "" then Effect(s, Skipped)
    else if inv.total.None? then Effect(s, IntegrityError)
    else
      var txn := Txn(provider, answer.paymentId, id, inv.total.value, answer.status, answer.url);
      Effect(s.(txns := s.txns + [txn]), Done)
  }

  function FindTxn(s: State, provider: string, paymentId: string): (r: Option<nat>)
    ensures r.Some? ==> r.value < |s.txns|
  {
    FirstTxn(s.txns, (t: Txn) => t.provider == provider && t.paymentId == paymentId)
  }

  function SetTxn(s: State, k: nat, status: TxnStatus): State
    requires k < |s.txns|
  {
    s.(txns := s.txns[k := s.txns[k].(status := status)])
  }

  /** `mark_paid`, a conflict being logged and swallowed. */
  function TryMarkPaid(s: State, id: Id, p: PaymentData, today: int): State
    requires id < |s.invoices|
  {
    MarkPaid(s, id, p, "online_payment", today).after
  }

  function PaymentConfirmed(s: State, provider: string, paymentId: string, today: int): State {
    var k := FindTxn(s, provider, paymentId);
    if k.None? then s
    else
      var txn, s' := s.txns[k.value], SetTxn(s, k.value, TxnConfirmed);
      if txn.invoice >= |s.invoices| || s.invoices[txn.invoice].status == Paid then s'
      else
        var p := PaymentData(Some(today), Some(provider + ":" + paymentId), Some(txn.amount));
        TryMarkPaid(s', txn.invoice, p, today)
  }

  function PaymentFailed(s: State, provider: string, paymentId: string): State {
    var k := FindTxn(s, provider, paymentId);
    if k.None? then s else SetTxn(s, k.value, TxnFailed)
  }

  predicate Linked(inv: Invoice, externalId: string) {
    inv.externalId == Some(externalId) && !inv.deleted
  }

  /** A Stripe `invoice.paid`: recorded on an invoice not yet emitted, else applied. */
  function InvoicePaid(s: State, provider: string, stripeId: string, cents: int, today: int): State {
    var found := Newest(s.invoices, inv => Linked(inv, stripeId));
    if stripeId == "" || found.None? then s
    else
      var id, inv := found.value, s.invoices[found.value];
      var reference := provider + ":" + stripeId;
      if inv.status == Paid then s
      else if inv.status in {Draft, Processing} then
        Save(s, id, inv.(paymentDate := Some(today), paymentReference := reference, paymentAmount := Some(cents)))
      else TryMarkPaid(s, id, PaymentData(Some(today), Some(reference), Some(cents)), today)
  }

  predicate Imported(inv: Invoice, org: nat, externalId: string) {
    inv.org == org && Linked(inv, externalId)
  }

  /** `Skipped` when a live invoice already has the Stripe id, `IntegrityError` when a row cannot
      be inserted (a soft-deleted draft keeps its id, an external number may be taken). */
  function ImportInvoice(s: State, d: Payload, stripeId: string): Effect {
    if Newest(s.invoices, inv => Imported(inv, d.org, stripeId)).Some? then Effect(s, Skipped)
    else CreateInvoice(s, d.(externalId := Some(stripeId)))
  }

  function ImportCreditNote(s: State, d: Payload, stripeId: string, credited: string): Effect {
    var original := Newest(s.invoices, inv => Imported(inv, d.org, credited));
    if Newest(s.invoices, inv => Imported(inv, d.org, stripeId)).Some? then Effect(s, Skipped)
    else if credited == "" || original.None? then Effect(s, Skipped)
    else
      var e := CreateInvoice(s, d.(externalId := Some(stripeId)));
      if e.out != Done then e
      else
        var id := |s.invoices|;
        Effect(Save(e.after, id, e.after.invoices[id].(preceding := original)), Done)
  }

  datatype Body =
    | Confirmed(provider: string, paymentId: string)
    | Failed(provider: string, paymentId: string)
    | StripePaid(provider: string, stripeId: string, cents: int)
    | StripeFinalized(payload: Payload, stripeId: string)
    | StripeCreditNote(payload: Payload, stripeId: string, credited: string)
    | Unhandled

  function ProcessBody(s: State, b: Body, today: int): State {
    match b
    case Confirmed(provider, paymentId) => PaymentConfirmed(s, provider, paymentId, today)
    case Failed(provider, paymentId) => PaymentFailed(s, provider, paymentId)
    case StripePaid(provider, stripeId, cents) => InvoicePaid(s, provider, stripeId, cents, today)
    case StripeFinalized(d, stripeId) => ImportInvoice(s, d, stripeId).after
    case StripeCreditNote(d, stripeId, credited) => ImportCreditNote(s, d, stripeId, credited).after
    case Unhandled => s
  }

  /** A validly signed delivery: the event row is inserted before, and kept whatever, the handler does. */
  function HandleWebhook(s: State, eventId: string, b: Body, today: int): State {
    if eventId in s.events then s
    else ProcessBody(s.(events := s.events + {eventId}), b, today)
  }
}
