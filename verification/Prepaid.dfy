/** Payments received before the invoice is emitted. */
module Prepaid {
  import opened Wrappers
  import opened StateMachine
  import opened Records
  import opened InvoiceService
  import opened Tasks
  import opened Payments
  import opened Runs
  import opened Soundness
  import opened Verdicts
  import opened Arrivals

  /** A recorded payment never waits on an invoice the platform has: it is applied at once. */
  predicate Applied(inv: Invoice) {
    inv.paymentDate.Some? ==> inv.status !in {Transmitted, Accepted, Refused}
  }

  ghost predicate AllApplied(s: State) {
    forall id | 0 <= id < |s.invoices| :: Applied(s.invoices[id])
  }

  /** The recorded date and reference stay, and so does the amount unless it is absent or zero. */
  predicate RecordKept(a: Invoice, b: Invoice) {
    && b.paymentDate == a.paymentDate
    && b.paymentReference == a.paymentReference
    && (a.paymentDate.None? || Truthy(a.paymentAmount) ==> b.paymentAmount == a.paymentAmount)
  }

  ghost predicate RecordsKept(s: State, s': State) {
    && |s'.invoices| == |s.invoices|
    && forall id | 0 <= id < |s.invoices| :: RecordKept(s.invoices[id], s'.invoices[id])
  }

  lemma RecordsTrans(s: State, m: State, s': State)
    requires RecordsKept(s, m) && RecordsKept(m, s')
    ensures RecordsKept(s, s')
  {
    forall id | 0 <= id < |s.invoices| ensures RecordKept(s.invoices[id], s'.invoices[id]) {
      assert RecordKept(s.invoices[id], m.invoices[id]) && RecordKept(m.invoices[id], s'.invoices[id]);
    }
  }

  lemma ProcessApplies(s: State, id: Id, ev: Event, today: int)
    requires AllApplied(s) && id < |s.invoices|
    ensures AllApplied(ProcessEvent(s, id, ev, today)) && RecordsKept(s, ProcessEvent(s, id, ev, today))
  {
    assert Applied(s.invoices[id]);
  }

  lemma {:induction false} DeliverApplies(s: State, seen: set<Item>, items: seq<Item>, today: int)
    requires AllApplied(s) && InRange(items, |s.invoices|)
    ensures AllApplied(Deliver(s, seen, items, today)) && RecordsKept(s, Deliver(s, seen, items, today))
  {
    if items != [] {
      var before, it := Deliver(s, seen, items[..|items| - 1], today), items[|items| - 1];
      DeliverApplies(s, seen, items[..|items| - 1], today);
      assert it in items;
      hide ProcessEvent, AllApplied, RecordsKept;
      ProcessApplies(before, it.id, it.event, today);
      if it !in seen {
        RecordsTrans(s, before, ProcessEvent(before, it.id, it.event, today));
      }
    }
  }

  lemma CheckFlowApplies(s: State, id: Id, org: nat, number: Option<string>, reported: set<string>,
                         ack: Ack, today: int)
    requires AllApplied(s) && id < |s.invoices|
    ensures AllApplied(CheckFlow(s, id, org, number, reported, ack, today))
    ensures RecordsKept(s, CheckFlow(s, id, org, number, reported, ack, today))
  {
    assert Applied(s.invoices[id]);
  }

  lemma {:induction false} FallbackApplies(s: State, n: nat, org: nat, number: Option<string>, reported: set<string>,
                                           acks: map<Id, Ack>, today: int)
    requires AllApplied(s) && n <= |s.invoices|
    ensures AllApplied(FlowFallbackBelow(s, n, org, number, reported, acks, today))
    ensures RecordsKept(s, FlowFallbackBelow(s, n, org, number, reported, acks, today))
    decreases n
  {
    if n > 0 {
      hide CheckFlow, AllApplied, RecordsKept;
      var s' := CheckFlow(s, n - 1, org, number, reported, AckFor(acks, n - 1), today);
      CheckFlowApplies(s, n - 1, org, number, reported, AckFor(acks, n - 1), today);
      FallbackApplies(s', n - 1, org, number, reported, acks, today);
      RecordsTrans(s, s', FlowFallbackBelow(s', n - 1, org, number, reported, acks, today));
    }
  }

  /** A poll applies every recorded payment it can and loses none of its details. */
  lemma PollApplies(s: State, org: nat, number: Option<string>, reports: seq<Report>, acks: map<Id, Ack>, today: int)
    requires AllApplied(s)
    ensures AllApplied(Poll(s, org, number, reports, acks, today))
    ensures RecordsKept(s, Poll(s, org, number, reports, acks, today))
  {
    hide AllApplied, RecordsKept, FlowFallbackBelow;
    DeliverApplies(s, SeenKeys(s.logs), Resolve(s.invoices, org, reports), today);
    var s' := ProcessLifecycle(s, org, reports, today);
    FallbackApplies(s', |s'.invoices|, org, number, ReportedNumbers(reports), acks, today);
    RecordsTrans(s, s', Poll(s, org, number, reports, acks, today));
  }

  /** The webhook of a deposit (200) fails to be emitted for an invoice already paid for. */
  predicate Strands(s: State, a: Action) {
    && a.DoPollInterrupted?
    && var items := Resolve(s.invoices, a.org, a.reports);
       && InterruptedAt(s, items, a.k, a.today)
       && items[a.k].event.code == "200"
       && s.invoices[items[a.k].id].paymentDate.Some?
  }

  lemma InterruptedApplies(s: State, a: Action)
    requires AllApplied(s) && a.DoPollInterrupted?
    ensures AllApplied(Apply(s, a)) <==> !Strands(s, a)
  {
    var items := Resolve(s.invoices, a.org, a.reports);
    if InterruptedAt(s, items, a.k, a.today) {
      var it, seen := items[a.k], SeenKeys(s.logs);
      var before := Deliver(s, seen, items[..a.k], a.today);
      DeliverApplies(s, seen, items[..a.k], a.today);
      assert it in items;
      InterruptedRow(s, before, it);
    } else {
      PollApplies(s, a.org, a.number, a.reports, a.acks, a.today);
    }
  }

  lemma InterruptedRow(s: State, before: State, it: Item)
    requires AllApplied(before) && RecordsKept(s, before) && it.id < |s.invoices|
    requires Applies(before.invoices[it.id].status, it.event.code)
    ensures AllApplied(RecordEvent(before, it.id, it.event))
       <==> !(it.event.code == "200" && s.invoices[it.id].paymentDate.Some?)
  {
    assert Applied(before.invoices[it.id]) && RecordKept(s.invoices[it.id], before.invoices[it.id]);
    var s' := RecordEvent(before, it.id, it.event);
    if !Applied(s'.invoices[it.id]) {
      assert !AllApplied(s');
    }
  }

  lemma MarkPaidApplies(s: State, id: Id, p: PaymentData, source: string, today: int)
    requires AllApplied(s) && id < |s.invoices|
    ensures AllApplied(MarkPaid(s, id, p, source, today).after)
  {
  }

  lemma GenerateApplies(s: State, id: Id, g: Generation)
    requires AllApplied(s) && id < |s.invoices|
    ensures AllApplied(GenerateAndValidate(s, id, g).after)
  {
    if s.invoices[id].status == Processing && !g.GenerateFailed? {
      var moved := Move(s, id, Sync(s.invoices[id]), Validated, CeleryTask);
      assert AllApplied(moved);
      assert AllApplied(CheckAutoCancel(moved, id));
    }
  }

  lemma BodyApplies(s: State, b: Body, today: int)
    requires AllApplied(s)
    ensures AllApplied(ProcessBody(s, b, today))
  {
    match b
    case Confirmed(provider, paymentId) =>
      hide MarkPaid;
      var k := FindTxn(s, provider, paymentId);
      if k.Some? && s.txns[k.value].invoice < |s.invoices| {
        var txn, s' := s.txns[k.value], SetTxn(s, k.value, TxnConfirmed);
        MarkPaidApplies(s', txn.invoice, PaymentData(Some(today), Some(provider + ":" + paymentId), Some(txn.amount)),
                        "online_payment", today);
      }
    case Failed(_, _) =>
    case StripePaid(provider, stripeId, cents) => InvoicePaidApplies(s, provider, stripeId, cents, today);
    case StripeFinalized(_, _) =>
    case StripeCreditNote(_, _, _) =>
    case Unhandled =>
  }

  lemma InvoicePaidApplies(s: State, provider: string, stripeId: string, cents: int, today: int)
    requires AllApplied(s)
    ensures AllApplied(InvoicePaid(s, provider, stripeId, cents, today))
  {
    hide MarkPaid;
    var found := Newest(s.invoices, inv => Linked(inv, stripeId));
    if found.Some? {
      var p := PaymentData(Some(today), Some(provider + ":" + stripeId), Some(cents));
      MarkPaidApplies(s, found.value, p, "online_payment", today);
    }
  }

  lemma SimpleApplies(s: State, a: Action)
    requires AllApplied(s)
    requires a.DoCreate? || a.DoUpdate? || a.DoReplace? || a.DoSoftDelete? || a.DoValidate? || a.DoTransmit?
             || a.DoCancel? || a.DoSubmit? || a.DoCheckout? || a.DoImportInvoice? || a.DoImportCreditNote?
    ensures AllApplied(Apply(s, a))
  {
  }

  lemma StepApplies(s: State, a: Action)
    requires AllApplied(s)
    ensures AllApplied(Apply(s, a)) <==> !Strands(s, a)
  {
    hide AllApplied, Poll, MarkPaid, GenerateAndValidate, ProcessBody, PollInterrupted;
    match a {
      case DoMarkPaid(id, p, today) => if Visible(s, id) { MarkPaidApplies(s, id, p, "", today); }
      case DoGenerate(id, g) => if id < |s.invoices| { GenerateApplies(s, id, g); }
      case DoPoll(org, number, reports, acks, today) => PollApplies(s, org, number, reports, acks, today);
      case DoPollInterrupted(_, _, _, _, _, _) => InterruptedApplies(s, a);
      case DoWebhook(eventId, body, today) =>
        EventsApplied(s, eventId);
        BodyApplies(s.(events := s.events + {eventId}), body, today);
      case _ => SimpleApplies(s, a);
    }
  }

  lemma EventsApplied(s: State, eventId: string)
    requires AllApplied(s)
    ensures AllApplied(s.(events := s.events + {eventId}))
  {
  }

  /** In a run, at every moment no invoice with a recorded payment rests in TRANSMITTED, ACCEPTED or
      REFUSED, if and only if no poll was interrupted on the deposit of such an invoice. */
  lemma PrepaidAppliedIff(actions: seq<Action>)
    ensures Always(AllApplied, actions) <==> Never(Strands, actions)
  {
    forall s, a | AllApplied(s) ensures AllApplied(Apply(s, a)) <==> !Strands(s, a) {
      StepApplies(s, a);
    }
    AlwaysIffNever(_ => true, AllApplied, Strands, actions);
  }

  /** What a stranded invoice does next: an acceptance pays it with what was recorded, a refusal or a
      rejection closes it, any other event leaves it. */
  lemma StrandedNext(s: State, id: Id, ev: Event, today: int)
    requires id < |s.invoices| && s.invoices[id].status == Transmitted && s.invoices[id].paymentDate.Some?
    ensures var s' := ProcessEvent(s, id, ev, today);
            && |s'.invoices| == |s.invoices| && RecordKept(s.invoices[id], s'.invoices[id])
            && s'.invoices[id].status
               == (if ev.code == "201" then Paid
                   else if ev.code == "210" then Refused
                   else if ev.code == "213" then Rejected
                   else Transmitted)
  {
    hide ProcessEvent, Next;
    StrandedStep(ev.code);
    EventFolds(s, id, ev, today);
    EventKeepsRecord(s, id, ev, today);
  }

  lemma EventKeepsRecord(s: State, id: Id, ev: Event, today: int)
    requires id < |s.invoices|
    ensures var s' := ProcessEvent(s, id, ev, today);
            |s'.invoices| == |s.invoices| && RecordKept(s.invoices[id], s'.invoices[id])
  {
  }

  lemma StrandedStep(code: string)
    ensures Next(Transmitted, true, code)
         == if code == "201" then Paid
            else if code == "210" then Refused
            else if code == "213" then Rejected
            else Transmitted
  {
    CodesDiffer();
  }

  /** So does a manual payment, what is given with it replacing what was recorded. */
  lemma StrandedPaidByHand(s: State, id: Id, p: PaymentData, source: string, today: int)
    requires id < |s.invoices| && s.invoices[id].status == Transmitted && s.invoices[id].paymentDate.Some?
    ensures var s' := MarkPaid(s, id, p, source, today).after;
            && |s'.invoices| == |s.invoices| && s'.invoices[id].status == Paid
            && s'.invoices[id].paymentDate == (if p.date.Some? then p.date else s.invoices[id].paymentDate)
            && (p == NO_PAYMENT_DATA ==> RecordKept(s.invoices[id], s'.invoices[id]))
  {
  }

  // ---------- payments that come at the wrong moment ----------

  /** A Stripe payment of a linked invoice that is not PAID and has no payment recorded leaves one if and
      only if the invoice is neither being transmitted nor refused, rejected or cancelled; otherwise it
      changes nothing. */
  lemma PaymentKeptIff(s: State, provider: string, stripeId: string, cents: int, today: int)
    requires stripeId != ""
    requires var found := Newest(s.invoices, inv => Linked(inv, stripeId));
             found.Some? && s.invoices[found.value].status != Paid && s.invoices[found.value].paymentDate.None?
    ensures var id := Newest(s.invoices, inv => Linked(inv, stripeId)).value;
            var s' := InvoicePaid(s, provider, stripeId, cents, today);
            && |s'.invoices| == |s.invoices|
            && (s'.invoices[id].paymentDate.Some?
                <==> s.invoices[id].status !in {Transmitting, Rejected, Refused, Cancelled})
            && (s'.invoices[id].paymentDate.None? ==> s' == s)
            && (s'.invoices[id].paymentDate.Some? ==> s'.invoices[id].paymentDate == Some(today))
  {
  }

  // ---------- the loop closed ----------

  /** A draft as a recorded payment leaves it. */
  predicate Prepared(inv: Invoice, date: int, reference: string, cents: int) {
    inv.paymentDate == Some(date) && inv.paymentReference == reference && inv.paymentAmount == Some(cents)
  }

  /** BR-CO-16: what is prepaid and what remains due make up the gross total of the document. */
  predicate Balanced(d: Snapshot, cents: int) {
    d.prepayment == Some(cents) && d.amountDue.Some? && d.amountDue.value + cents == d.gross.GetOr(0)
  }

  lemma ValidatedBalances(s: State, id: Id, prefix: string, padding: nat, date: int, reference: string, cents: int)
    requires id < |s.invoices| && Prepared(s.invoices[id], date, reference, cents) && cents != 0
    requires ValidateInvoice(s, id, true, prefix, padding).out == Done
    ensures var s' := ValidateInvoice(s, id, true, prefix, padding).after;
            && |s'.invoices| == |s.invoices| && s'.invoices[id].status == Processing
            && Prepared(s'.invoices[id], date, reference, cents)
            && Balanced(s'.invoices[id].data, cents)
            && s'.invoices[id].data.gross == s.invoices[id].data.gross
            && s'.invoices[id].preceding == s.invoices[id].preceding
  {
  }

  lemma GeneratedAndSent(s: State, id: Id, flow: string)
    requires id < |s.invoices| && s.invoices[id].status == Processing
    requires s.invoices[id].preceding.Some? ==> s.invoices[id].preceding.value < id
    ensures var g := GenerateAndValidate(s, id, Generated).after;
            && |g.invoices| == |s.invoices| && g.invoices[id].status == Validated
            && var t := TransmitInvoice(g, id).after;
            && |t.invoices| == |s.invoices| && t.invoices[id].status == Transmitting
            && var s' := SubmitFlow(t, id, Some(flow)).after;
            && |s'.invoices| == |s.invoices| && s'.invoices[id].status == Transmitting
            && s'.invoices[id].data == s.invoices[id].data
            && s'.invoices[id].paymentDate == s.invoices[id].paymentDate
            && s'.invoices[id].paymentReference == s.invoices[id].paymentReference
            && s'.invoices[id].paymentAmount == s.invoices[id].paymentAmount
  {
  }

  lemma DepositPays(s: State, id: Id, at: string, today: int, date: int, reference: string, cents: int)
    requires id < |s.invoices| && s.invoices[id].status == Transmitting
    requires Prepared(s.invoices[id], date, reference, cents) && cents != 0
    ensures var inv := ProcessEvent(s, id, Event("200", at), today).invoices[id];
            && inv.status == Paid && Prepared(inv, date, reference, cents)
            && inv.data == s.invoices[id].data
  {
  }

  /** A payment received for a draft, followed through validation, generation, transmission and the
      deposit on whatever day: the invoice ends PAID with the date, reference and amount first
      received, and the document sent out shows them as prepaid. */
  lemma PrepaidLoopCloses(s: State, provider: string, stripeId: string, cents: int, date: int,
                          prefix: string, padding: nat, flow: string, at: string, today: int)
    requires Sound(s) && stripeId != "" && cents != 0
    requires var found := Newest(s.invoices, inv => Linked(inv, stripeId));
             && found.Some? && s.invoices[found.value].status == Draft
             && var p := InvoicePaid(s, provider, stripeId, cents, date);
                ValidateInvoice(p, found.value, true, prefix, padding).out == Done
    ensures var id := Newest(s.invoices, inv => Linked(inv, stripeId)).value;
            var v := ValidateInvoice(InvoicePaid(s, provider, stripeId, cents, date), id, true, prefix, padding).after;
            var g := GenerateAndValidate(v, id, Generated).after;
            && |g.invoices| == |s.invoices|
            && var sent := SubmitFlow(TransmitInvoice(g, id).after, id, Some(flow)).after;
            && |sent.invoices| == |s.invoices|
            && var inv := ProcessEvent(sent, id, Event("200", at), today).invoices[id];
            && inv.status == Paid && Prepared(inv, date, provider + ":" + stripeId, cents)
            && Balanced(inv.data, cents) && inv.data.gross == s.invoices[id].data.gross
  {
    var id := Newest(s.invoices, inv => Linked(inv, stripeId)).value;
    assert RowOk(s.invoices[id], id);
    var reference := provider + ":" + stripeId;
    var p := InvoicePaid(s, provider, stripeId, cents, date);
    assert Prepared(p.invoices[id], date, reference, cents);
    hide ValidateInvoice, GenerateAndValidate, TransmitInvoice, SubmitFlow, ProcessEvent, Balanced, Sound;
    ValidatedBalances(p, id, prefix, padding, date, reference, cents);
    var v := ValidateInvoice(p, id, true, prefix, padding).after;
    GeneratedAndSent(v, id, flow);
    var g := GenerateAndValidate(v, id, Generated).after;
    var sent := SubmitFlow(TransmitInvoice(g, id).after, id, Some(flow)).after;
    DepositPays(sent, id, at, today, date, reference, cents);
  }
}
