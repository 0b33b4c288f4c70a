/** What the payment services and webhooks promise, field by field. */
module PaymentPromises {
  import opened Wrappers
  import opened StateMachine
  import opened Records
  import opened InvoiceService
  import opened Payments
  import opened Soundness
  import opened ServicePromises

  // ---------- checkout ----------

  predicate OpenSession(t: Txn, id: Id, provider: string) {
    t.invoice == id && t.provider == provider && t.status in {TxnCreated, TxnPending}
  }

  /** A checkout needs a validated, transmitted or accepted invoice. An open session that has a link is
      reused, the first one deciding; else a transaction for the gross total is added. */
  lemma CheckoutPromise(s: State, id: Id, provider: string, answer: Session)
    requires id < |s.invoices|
    ensures var inv, e := s.invoices[id], CreateCheckout(s, id, provider, answer);
            && (e.out == ConflictError <==> inv.status !in {Validated, Transmitted, Accepted})
            && (e.out == Skipped <==>
                  inv.status in {Validated, Transmitted, Accepted}
                  && exists k | 0 <= k < |s.txns| ::
                       && OpenSession(s.txns[k], id, provider) && s.txns[k].url != ""
                       && forall j | 0 <= j < k :: !OpenSession(s.txns[j], id, provider))
            && (e.out == Done ==>
                  && inv.total.Some?
                  && var added := Txn(provider, answer.paymentId, id, inv.total.value, answer.status, answer.url);
                     e.after == s.(txns := s.txns + [added]))
            && (e.out != Done ==> e.after == s)
  {
    var open := FirstTxn(s.txns, (t: Txn) =>
                           t.invoice == id && t.provider == provider && t.status in {TxnCreated, TxnPending});
    assert open.Some? ==> OpenSession(s.txns[open.value], id, provider);
    assert forall j | 0 <= j < |s.txns| && (open.None? || j < open.value) :: !OpenSession(s.txns[j], id, provider);
  }

  // ---------- payments by transaction ----------

  /** The first transaction of the provider with this payment id. */
  predicate Finds(s: State, provider: string, paymentId: string, k: nat) {
    && k < |s.txns| && s.txns[k].provider == provider && s.txns[k].paymentId == paymentId
    && forall j | 0 <= j < k :: !(s.txns[j].provider == provider && s.txns[j].paymentId == paymentId)
  }

  lemma FindsIs(s: State, provider: string, paymentId: string, k: nat)
    requires Finds(s, provider, paymentId, k)
    ensures FindTxn(s, provider, paymentId) == Some(k)
  {
  }

  /** A confirmed payment confirms its transaction and pays the invoice of it, today, under the reference
      of the payment and for its amount; an invoice that cannot be paid stays as it is. */
  lemma ConfirmedPromise(s: State, provider: string, paymentId: string, today: int, k: nat)
    requires Sound(s) && Finds(s, provider, paymentId, k) && s.txns[k].invoice < |s.invoices|
    ensures var txn, id := s.txns[k], s.txns[k].invoice;
            var inv, s' := s.invoices[id], PaymentConfirmed(s, provider, paymentId, today);
            var reference := provider + ":" + paymentId;
            var amount := if txn.amount != 0 then Some(txn.amount)
                          else if inv.paymentAmount.Some? && inv.paymentAmount.value != 0 then inv.paymentAmount
                          else inv.total;
            && s'.txns == s.txns[k := txn.(status := TxnConfirmed)]
            && s'.counters == s.counters && s'.events == s.events
            && (if inv.status in {Validated, Transmitted, Accepted} then
                  && s'.invoices == s.invoices[id := inv.(status := Paid, paymentDate := Some(today),
                                                          paymentReference := reference, paymentAmount := amount)]
                  && s'.logs == s.logs + [StatusChange(id, inv.status, Paid,
                                                       Payment("online_payment", Some(today), reference, amount))]
                else s'.invoices == s.invoices && s'.logs == s.logs)
  {
    FindsIs(s, provider, paymentId, k);
    assert RowOk(s.invoices[s.txns[k].invoice], s.txns[k].invoice);
    hide Sound, FindTxn;
  }

  /** A failed payment fails its transaction and changes no invoice. */
  lemma FailedPromise(s: State, provider: string, paymentId: string, k: nat)
    requires Finds(s, provider, paymentId, k)
    ensures PaymentFailed(s, provider, paymentId) == s.(txns := s.txns[k := s.txns[k].(status := TxnFailed)])
  {
    FindsIs(s, provider, paymentId, k);
  }

  /** Without a transaction neither changes anything. */
  lemma UnknownPayment(s: State, provider: string, paymentId: string, today: int)
    requires forall j | 0 <= j < |s.txns| :: !(s.txns[j].provider == provider && s.txns[j].paymentId == paymentId)
    ensures PaymentConfirmed(s, provider, paymentId, today) == s && PaymentFailed(s, provider, paymentId) == s
  {
  }

  // ---------- payments by Stripe invoice ----------

  /** The newest live invoice linked to the Stripe id. */
  predicate NewestLinked(s: State, stripeId: string, id: Id) {
    && id < |s.invoices| && s.invoices[id].externalId == Some(stripeId) && !s.invoices[id].deleted
    && forall j | id < j < |s.invoices| :: !(s.invoices[j].externalId == Some(stripeId) && !s.invoices[j].deleted)
  }

  /** An invoice not yet emitted records the payment; a payable one is paid with it; any other stays. */
  lemma StripePaidPromise(s: State, provider: string, stripeId: string, cents: int, today: int, id: Id)
    requires Sound(s) && stripeId != "" && NewestLinked(s, stripeId, id)
    ensures var inv, s' := s.invoices[id], InvoicePaid(s, provider, stripeId, cents, today);
            var reference := provider + ":" + stripeId;
            var amount := if cents != 0 then Some(cents)
                          else if inv.paymentAmount.Some? && inv.paymentAmount.value != 0 then inv.paymentAmount
                          else inv.total;
            if inv.status in {Draft, Processing} then
              Became(s, s', id,
                     inv.(paymentDate := Some(today), paymentReference := reference, paymentAmount := Some(cents)), [])
            else if inv.status in {Validated, Transmitted, Accepted} then
              Became(s, s', id, inv.(status := Paid, paymentDate := Some(today), paymentReference := reference,
                                     paymentAmount := amount),
                     [StatusChange(id, inv.status, Paid, Payment("online_payment", Some(today), reference, amount))])
            else s' == s
  {
    assert RowOk(s.invoices[id], id);
    assert Newest(s.invoices, inv => Linked(inv, stripeId)) == Some(id);
    hide Sound, Newest;
    assert s.logs + [] == s.logs;
  }

  // ---------- imports ----------

  predicate LiveLink(inv: Invoice, org: nat, stripeId: string) {
    inv.org == org && inv.externalId == Some(stripeId) && !inv.deleted
  }

  /** A document already there is skipped; else the import is a creation with the Stripe id. */
  lemma ImportPromise(s: State, d: Payload, stripeId: string)
    ensures ImportInvoice(s, d, stripeId)
         == if exists i | 0 <= i < |s.invoices| :: LiveLink(s.invoices[i], d.org, stripeId) then Effect(s, Skipped)
            else CreateInvoice(s, d.(externalId := Some(stripeId)))
  {
    var found := Newest(s.invoices, inv => Imported(inv, d.org, stripeId));
    assert found.Some? ==> LiveLink(s.invoices[found.value], d.org, stripeId);
    assert found.None? ==> forall i | 0 <= i < |s.invoices| :: !LiveLink(s.invoices[i], d.org, stripeId);
  }

  /** The newest live invoice of the organization with the credited Stripe id. */
  predicate Credited(s: State, org: nat, credited: string, o: Id) {
    && o < |s.invoices| && LiveLink(s.invoices[o], org, credited)
    && forall j | o < j < |s.invoices| :: !LiveLink(s.invoices[j], org, credited)
  }

  /** A credit note already there, or whose invoice is not, is skipped. */
  lemma ImportNoteSkips(s: State, d: Payload, stripeId: string, credited: string)
    ensures ImportCreditNote(s, d, stripeId, credited).out == Skipped
       <==> (exists i | 0 <= i < |s.invoices| :: LiveLink(s.invoices[i], d.org, stripeId))
            || credited == ""
            || !exists i | 0 <= i < |s.invoices| :: LiveLink(s.invoices[i], d.org, credited)
    ensures ImportCreditNote(s, d, stripeId, credited).out != Done
            ==> ImportCreditNote(s, d, stripeId, credited).after == s
  {
    var found := Newest(s.invoices, inv => Imported(inv, d.org, stripeId));
    var original := Newest(s.invoices, inv => Imported(inv, d.org, credited));
    assert found.Some? ==> LiveLink(s.invoices[found.value], d.org, stripeId);
    assert found.None? ==> forall i | 0 <= i < |s.invoices| :: !LiveLink(s.invoices[i], d.org, stripeId);
    assert original.Some? ==> LiveLink(s.invoices[original.value], d.org, credited);
    assert original.None? ==> forall i | 0 <= i < |s.invoices| :: !LiveLink(s.invoices[i], d.org, credited);
  }

  /** Else it is created with its Stripe id and linked to the invoice it credits, so that it can cancel it. */
  lemma ImportNotePromise(s: State, d: Payload, stripeId: string, credited: string, o: Id)
    requires Credited(s, d.org, credited, o) && ImportCreditNote(s, d, stripeId, credited).out == Done
    ensures var created, n := CreateInvoice(s, d.(externalId := Some(stripeId))), |s.invoices|;
            var s' := ImportCreditNote(s, d, stripeId, credited).after;
            && created.out == Done && |created.after.invoices| == n + 1
            && var rows := created.after.invoices;
               s' == created.after.(invoices := rows[n := rows[n].(preceding := Some(o))])
  {
    assert Newest(s.invoices, inv => Imported(inv, d.org, credited)) == Some(o);
    hide Newest, Admits;
  }

  // ---------- webhooks ----------

  /** A new event is recorded and handed to the handler of its kind; a known one changes nothing. */
  lemma WebhookPromise(s: State, eventId: string, b: Body, today: int)
    ensures var t, s' := s.(events := s.events + {eventId}), HandleWebhook(s, eventId, b, today);
            && (eventId in s.events ==> s' == s)
            && (eventId !in s.events ==>
                  && (b.Confirmed? ==> s' == PaymentConfirmed(t, b.provider, b.paymentId, today))
                  && (b.Failed? ==> s' == PaymentFailed(t, b.provider, b.paymentId))
                  && (b.StripePaid? ==> s' == InvoicePaid(t, b.provider, b.stripeId, b.cents, today))
                  && (b.StripeFinalized? ==> s' == ImportInvoice(t, b.payload, b.stripeId).after)
                  && (b.StripeCreditNote? ==> s' == ImportCreditNote(t, b.payload, b.stripeId, b.credited).after)
                  && (b.Unhandled? ==> s' == t))
  {
  }

  /** An online payment confirmed for a payable invoice pays it, delivered as a webhook. */
  lemma ConfirmedByWebhook(s: State, eventId: string, provider: string, paymentId: string, today: int, k: nat)
    requires Sound(s) && eventId !in s.events && Finds(s, provider, paymentId, k) && s.txns[k].invoice < |s.invoices|
    requires s.invoices[s.txns[k].invoice].status in {Validated, Transmitted, Accepted} && s.txns[k].amount != 0
    ensures var id, s' := s.txns[k].invoice, HandleWebhook(s, eventId, Confirmed(provider, paymentId), today);
            && eventId in s'.events
            && |s'.txns| == |s.txns| && s'.txns[k].status == TxnConfirmed
            && |s'.invoices| == |s.invoices| && s'.invoices[id].status == Paid
            && s'.invoices[id].paymentDate == Some(today)
            && s'.invoices[id].paymentReference == provider + ":" + paymentId
            && s'.invoices[id].paymentAmount == Some(s.txns[k].amount)
  {
    var t := s.(events := s.events + {eventId});
    assert Sound(t);
    hide Sound, PaymentConfirmed;
    ConfirmedPromise(t, provider, paymentId, today, k);
  }
}
