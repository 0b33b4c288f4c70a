/** Every step keeps the invariant and what the rows before it promise. */
module Steps {
  import opened Wrappers
  import opened StateMachine
  import opened Records
  import opened InvoiceService
  import opened Tasks
  import opened Payments
  import opened Runs
  import opened Soundness

  /** What no step ever does to a row: renumber it, lower its version, link it to another invoice, touch it after its
      deletion, change its document once it left DRAFT, bring it back once it was emitted, or leave
      a final status. */
  predicate RowKept(a: Invoice, b: Invoice) {
    && (a.number != "" ==> b.number == a.number)
    && b.org == a.org && b.preceding == a.preceding && a.version <= b.version
    && (a.deleted ==> b == a)
    && (a.status != Draft ==> SameDocument(a, b))
    && (Settled(a.status) ==> Settled(b.status))
    && (Final(a.status) ==> b.status == a.status)
  }

  ghost predicate RowsKept(s: State, s': State) {
    && |s.invoices| <= |s'.invoices|
    && forall id | 0 <= id < |s.invoices| :: RowKept(s.invoices[id], s'.invoices[id])
  }

  /** No row becomes cancelled. */
  ghost predicate NoneCancelled(s: State, s': State) {
    && |s.invoices| <= |s'.invoices|
    && forall id | 0 <= id < |s'.invoices| && s'.invoices[id].status == Cancelled ::
         id < |s.invoices| && s.invoices[id].status == Cancelled
  }

  /** No row is emitted. */
  ghost predicate NoneEmitted(s: State, s': State) {
    && |s.invoices| <= |s'.invoices|
    && forall id | 0 <= id < |s'.invoices| && Settled(s'.invoices[id].status) ::
         id < |s.invoices| && Settled(s.invoices[id].status)
  }

  /** A step that follows the table, emits and cancels nothing, and leaves the counters and the events alone. */
  ghost predicate Ordinary(s: State, s': State) {
    && Sound(s') && RowsKept(s, s') && NoneCancelled(s, s') && NoneEmitted(s, s')
    && Appended(s.logs, s'.logs)
    && s'.counters == s.counters && s'.events == s.events
  }

  lemma QuietOrdinary(s: State, s': State)
    requires Sound(s) && Sound(s') && Quiet(s, s')
    ensures Ordinary(s, s')
  {
    forall id | 0 <= id < |s.invoices| ensures RowKept(s.invoices[id], s'.invoices[id]) {
      assert RowQuiet(s.invoices[id], s'.invoices[id]) && RowOk(s.invoices[id], id);
    }
    forall id | 0 <= id < |s'.invoices| && s'.invoices[id].status == Cancelled
      ensures s.invoices[id].status == Cancelled
    {
      assert RowQuiet(s.invoices[id], s'.invoices[id]);
    }
  }

  /** A status change that keeps the row's promises. */
  lemma MoveStep(s: State, id: Id, inv: Invoice, to: Status, why: Cause)
    requires Sound(s) && id < |s.invoices| && Admits(s.invoices, id, inv)
    requires RowOk(inv.(status := to), id) && RowKept(s.invoices[id], inv.(status := to))
    requires TableLink(Link(s.invoices[id].status, to)) || CrashLink(Link(s.invoices[id].status, to))
    ensures var s' := Move(s, id, inv, to, why);
            && Sound(s') && RowsKept(s, s') && s'.counters == s.counters && s'.events == s.events && s.logs <= s'.logs
            && (to != Cancelled ==> NoneCancelled(s, s'))
            && ((Settled(to) ==> Settled(s.invoices[id].status)) ==> NoneEmitted(s, s'))
            && (TableLink(Link(s.invoices[id].status, to)) ==> Appended(s.logs, s'.logs))
  {
    MoveSound(s, id, inv, to, why);
    hide Sound;
  }

  /** A rewrite of a draft in place. */
  lemma DraftSaved(s: State, id: Id, inv: Invoice)
    requires Sound(s) && id < |s.invoices|
    requires s.invoices[id].status == Draft && inv.status == Draft
    requires Admits(s.invoices, id, inv) && RowOk(inv, id) && RowKept(s.invoices[id], inv)
    ensures Ordinary(s, Save(s, id, inv))
  {
    SaveSound(s, id, inv);
    hide Sound, Chained, Trail;
  }

  lemma NoteOrdinary(s: State, m: State, l: Log)
    requires Ordinary(s, m) && l.id < |m.invoices| && !l.StatusChange?
    ensures Ordinary(s, Note(m, l))
  {
    NoteSound(m, l);
    hide Sound, Chained, Trail;
  }

  lemma Unchanged(s: State)
    requires Sound(s)
    ensures Ordinary(s, s)
  {
  }

  lemma CreateOrdinary(s: State, d: Payload)
    requires Sound(s)
    ensures Ordinary(s, CreateInvoice(s, d).after)
  {
    if Admits(s.invoices, |s.invoices|, NewInvoice(d)) {
      AddSound(s, NewInvoice(d));
    }
  }

  lemma UpdateOrdinary(s: State, id: Id, p: Patch)
    requires Sound(s) && Visible(s, id)
    ensures Ordinary(s, UpdateInvoice(s, id, p).after)
  {
    assert RowOk(s.invoices[id], id);
    if UpdateInvoice(s, id, p).out == Done {
      DraftSaved(s, id, Patched(s.invoices[id], p));
      NoteOrdinary(s, Save(s, id, Patched(s.invoices[id], p)), DataUpdate(id));
    }
  }

  lemma ReplaceOrdinary(s: State, id: Id, sup: Supplier, data: Snapshot)
    requires Sound(s) && Visible(s, id)
    ensures Ordinary(s, ReplaceDraftData(s, id, sup, data).after)
  {
    assert RowOk(s.invoices[id], id);
    if ReplaceDraftData(s, id, sup, data).out == Done {
      DraftSaved(s, id, Replaced(s.invoices[id], sup, data));
      NoteOrdinary(s, Save(s, id, Replaced(s.invoices[id], sup, data)), DataUpdate(id));
    }
  }

  lemma SoftDeleteOrdinary(s: State, id: Id)
    requires Sound(s) && Visible(s, id)
    ensures Ordinary(s, SoftDelete(s, id).after)
  {
    assert RowOk(s.invoices[id], id);
    if SoftDelete(s, id).out == Done {
      OwnRowAdmitted(s, id, s.invoices[id].(deleted := true));
      DraftSaved(s, id, s.invoices[id].(deleted := true));
      NoteOrdinary(s, Save(s, id, s.invoices[id].(deleted := true)), Delete(id));
    }
  }

  lemma CancelOrdinary(s: State, id: Id)
    requires Sound(s) && Visible(s, id)
    ensures Ordinary(s, CancelInvoice(s, id).after)
  {
    if CancelInvoice(s, id).out == Done {
      AddSound(s, CreditNote(s.invoices[id], id));
      hide Sound;
    }
  }

  lemma TransmitOrdinary(s: State, id: Id)
    requires Sound(s) && Visible(s, id)
    ensures Ordinary(s, TransmitInvoice(s, id).after)
  {
    if TransmitInvoice(s, id).out == Done {
      QuietMove(s, id, s.invoices[id], Transmitting, ByUser);
      QuietOrdinary(s, TransmitInvoice(s, id).after);
    }
  }

  lemma SubmitOrdinary(s: State, id: Id, flow: Option<string>)
    requires Sound(s) && id < |s.invoices|
    ensures Ordinary(s, SubmitFlow(s, id, flow).after)
  {
    var inv := s.invoices[id];
    if inv.status == Transmitting {
      assert RowOk(inv, id);
      if flow.Some? {
        var inv' := inv.(transmissionId := flow.value, pdpStatus := "submitted");
        OwnRowAdmitted(s, id, inv');
        SaveSound(s, id, inv');
        NoteSound(Save(s, id, inv'), FlowSubmitted(id, flow.value));
        hide Sound;
      } else {
        QuietMove(s, id, inv, Validated, Failure("transmission_failed"));
        QuietOrdinary(s, SubmitFlow(s, id, flow).after);
      }
    }
  }

  lemma NumberedRow(inv: Invoice, id: Id, number: string)
    requires RowOk(inv, id) && inv.status == Draft && !inv.deleted && number != ""
    requires inv.number != "" ==> number == inv.number
    ensures var inv' := Numbered(inv, number).(status := Processing);
            RowOk(inv', id) && RowKept(inv, inv')
  {
  }

  lemma CountersApart(s: State, m: State, counters: map<Series, nat>)
    requires Sound(m) && RowsKept(s, m) && NoneCancelled(s, m) && NoneEmitted(s, m)
    ensures var s' := m.(counters := counters);
            Sound(s') && RowsKept(s, s') && NoneCancelled(s, s') && NoneEmitted(s, s')
  {
  }

  lemma ProcessingStep(s: State, id: Id, number: string)
    requires Sound(s) && Visible(s, id) && s.invoices[id].status == Draft && number != ""
    requires s.invoices[id].number != "" ==> number == s.invoices[id].number
    requires Admits(s.invoices, id, Numbered(s.invoices[id], number))
    ensures var s' := Move(s, id, Numbered(s.invoices[id], number), Processing, ByUser);
            && Sound(s') && RowsKept(s, s') && NoneCancelled(s, s') && NoneEmitted(s, s')
            && Appended(s.logs, s'.logs) && s'.events == s.events
  {
    assert RowOk(s.invoices[id], id);
    hide Numbered, Admits, Sound;
    NumberedRow(s.invoices[id], id, number);
    MoveStep(s, id, Numbered(s.invoices[id], number), Processing, ByUser);
  }

  /** Validation: the only step that draws on a counter. */
  lemma ValidateStep(s: State, id: Id, ok: bool, prefix: string, padding: nat)
    requires Sound(s) && Visible(s, id)
    ensures var s' := ValidateInvoice(s, id, ok, prefix, padding).after;
            && Sound(s') && RowsKept(s, s') && NoneCancelled(s, s') && NoneEmitted(s, s')
            && Appended(s.logs, s'.logs) && s'.events == s.events
  {
    var inv := s.invoices[id];
    if ValidateInvoice(s, id, ok, prefix, padding).out == Done {
      var number := NumberFor(s, inv, prefix, padding);
      assert number != "";
      hide Sound, Numbered, NumberFor, Admits, RowsKept, NoneCancelled, NoneEmitted, Appended;
      ProcessingStep(s, id, number);
      CountersApart(s, Move(s, id, Numbered(inv, number), Processing, ByUser), CountersAfter(s, inv, prefix));
    }
  }

  /** `Cancels` reads nothing that the validation of the credit note itself changes. */
  lemma CancelsStable(s: State, id: Id)
    requires Sound(s) && id < |s.invoices| && s.invoices[id].status == Processing
    ensures Cancels(Move(s, id, Sync(s.invoices[id]), Validated, CeleryTask), id) == Cancels(s, id)
  {
    assert RowOk(s.invoices[id], id);
  }

  ghost predicate GenerateKept(s: State, s': State) {
    Sound(s') && RowsKept(s, s') && s'.counters == s.counters && s'.events == s.events && s.logs <= s'.logs
  }

  lemma FailedOrdinary(s: State, id: Id, kind: string)
    requires Sound(s) && id < |s.invoices| && s.invoices[id].status == Processing
    ensures Ordinary(s, HandleFactpulseError(s, id, kind))
  {
    assert RowOk(s.invoices[id], id);
    OwnRowAdmitted(s, id, Sync(s.invoices[id]));
    MoveStep(s, id, Sync(s.invoices[id]), Draft, Failure(kind));
  }

  lemma AutoCancelStep(s: State, id: Id)
    requires Sound(s) && id < |s.invoices| && Cancels(s, id)
    ensures GenerateKept(s, CheckAutoCancel(s, id)) && Appended(s.logs, CheckAutoCancel(s, id).logs)
    ensures CheckAutoCancel(s, id).invoices[id] == s.invoices[id]
  {
    var o := s.invoices[id].preceding.value;
    assert RowOk(s.invoices[id], id) && RowOk(s.invoices[o], o);
    OwnRowAdmitted(s, o, s.invoices[o]);
    MoveStep(s, o, s.invoices[o], Cancelled, CreditNoteValidated(id));
  }

  lemma MovedToValidated(s: State, id: Id)
    requires Sound(s) && id < |s.invoices| && s.invoices[id].status == Processing
    ensures var moved := Move(s, id, Sync(s.invoices[id]), Validated, CeleryTask);
            GenerateKept(s, moved) && Appended(s.logs, moved.logs) && NoneCancelled(s, moved)
  {
    assert RowOk(s.invoices[id], id);
    OwnRowAdmitted(s, id, Sync(s.invoices[id]));
    MoveStep(s, id, Sync(s.invoices[id]), Validated, CeleryTask);
  }

  lemma RowsKeptThenSettled(s: State, m: State, s': State)
    requires RowsKept(s, m) && RowsKept(m, s')
    requires forall id | 0 <= id < |s.invoices| ::
               m.invoices[id].status == Draft ==> m.invoices[id] == s.invoices[id]
    ensures RowsKept(s, s')
  {
    forall id | 0 <= id < |s.invoices| ensures RowKept(s.invoices[id], s'.invoices[id]) {
      assert RowKept(s.invoices[id], m.invoices[id]) && RowKept(m.invoices[id], s'.invoices[id]);
    }
  }

  /** The state VALIDATED is saved in, the original cancelled when the credit note matches it. */
  lemma ValidatedStep(s: State, id: Id)
    requires Sound(s) && id < |s.invoices| && s.invoices[id].status == Processing
    ensures var moved := Move(s, id, Sync(s.invoices[id]), Validated, CeleryTask);
            var s' := CheckAutoCancel(moved, id);
            && GenerateKept(s, s') && Appended(s.logs, s'.logs)
            && s'.invoices[id] == moved.invoices[id]
            && (!Cancels(s, id) ==> NoneCancelled(s, s'))
  {
    var moved := Move(s, id, Sync(s.invoices[id]), Validated, CeleryTask);
    MovedToValidated(s, id);
    CancelsStable(s, id);
    if Cancels(s, id) {
      hide Sound, CheckAutoCancel, Cancels;
      AutoCancelStep(moved, id);
      RowsKeptThenSettled(s, moved, CheckAutoCancel(moved, id));
    }
  }

  /** VALIDATED taken back: for the rows before the step it is a fallback from PROCESSING. */
  lemma TakenBackStep(s: State, v: State, id: Id)
    requires Sound(s) && id < |s.invoices| && s.invoices[id].status == Processing
    requires GenerateKept(s, v) && v.invoices[id] == Sync(s.invoices[id]).(status := Validated)
    ensures GenerateKept(s, HandleFactpulseError(v, id, "timeout"))
  {
    assert RowOk(s.invoices[id], id) && RowOk(v.invoices[id], id);
    OwnRowAdmitted(v, id, Sync(v.invoices[id]));
    MoveSound(v, id, Sync(v.invoices[id]), Draft, Failure("timeout"));
  }

  lemma GenerateStep(s: State, id: Id, g: Generation)
    requires Sound(s) && id < |s.invoices|
    ensures GenerateKept(s, GenerateAndValidate(s, id, g).after)
  {
    if s.invoices[id].status == Processing {
      hide Sound, CheckAutoCancel, HandleFactpulseError, RowsKept;
      if g.GenerateFailed? {
        FailedOrdinary(s, id, g.kind);
      } else {
        ValidatedStep(s, id);
        if g.Interrupted? {
          TakenBackStep(s, CheckAutoCancel(Move(s, id, Sync(s.invoices[id]), Validated, CeleryTask), id), id);
        }
      }
    }
  }

  // ---------- payments ----------

  lemma MarkPaidOrdinary(s: State, id: Id, p: PaymentData, source: string, today: int)
    requires Sound(s) && id < |s.invoices|
    ensures Ordinary(s, MarkPaid(s, id, p, source, today).after)
  {
    PaidQuiet(s, id, p, source, today);
    QuietOrdinary(s, MarkPaid(s, id, p, source, today).after);
  }

  lemma InvoicePaidOrdinary(s: State, provider: string, stripeId: string, cents: int, today: int)
    requires Sound(s)
    ensures Ordinary(s, InvoicePaid(s, provider, stripeId, cents, today))
  {
    var found := Newest(s.invoices, inv => Linked(inv, stripeId));
    if stripeId != "" && found.Some? {
      var id, inv := found.value, s.invoices[found.value];
      var reference := provider + ":" + stripeId;
      if inv.status in {Draft, Processing} {
        assert RowOk(inv, id);
        var inv' := inv.(paymentDate := Some(today), paymentReference := reference, paymentAmount := Some(cents));
        OwnRowAdmitted(s, id, inv');
        SaveSound(s, id, inv');
        hide Sound;
      } else {
        hide Sound, MarkPaid, Ordinary;
        MarkPaidOrdinary(s, id, PaymentData(Some(today), Some(reference), Some(cents)), "online_payment", today);
      }
    }
  }

  /** A new draft linked to the invoice it credits. */
  lemma LinkedOrdinary(s: State, m: State, original: Option<Id>)
    requires Ordinary(s, m) && |m.invoices| == |s.invoices| + 1 && m.invoices[|s.invoices|].status == Draft
    requires original.Some? ==> original.value < |s.invoices|
    ensures var id := |s.invoices|;
            Ordinary(s, Save(m, id, m.invoices[id].(preceding := original)))
  {
    var id := |s.invoices|;
    var inv' := m.invoices[id].(preceding := original);
    assert RowOk(m.invoices[id], id);
    OwnRowAdmitted(m, id, inv');
    SaveSound(m, id, inv');
    hide Sound;
  }

  lemma ImportCreditNoteOrdinary(s: State, d: Payload, stripeId: string, credited: string)
    requires Sound(s)
    ensures Ordinary(s, ImportCreditNote(s, d, stripeId, credited).after)
  {
    var d' := d.(externalId := Some(stripeId));
    CreateOrdinary(s, d');
    Unchanged(s);
    hide Ordinary, Sound, Admits;
    var original := Newest(s.invoices, inv => Imported(inv, d.org, credited));
    if original.Some? && CreateInvoice(s, d').out == Done {
      LinkedOrdinary(s, CreateInvoice(s, d').after, original);
    }
  }

  /** The payment transactions play no part. */
  lemma OtherTxns(s: State, t: State, s': State)
    requires t == s.(txns := t.txns) && Ordinary(t, s')
    ensures Ordinary(s, s')
  {
  }

  lemma ConfirmedOrdinary(s: State, provider: string, paymentId: string, today: int)
    requires Sound(s)
    ensures Ordinary(s, PaymentConfirmed(s, provider, paymentId, today))
  {
    var k := FindTxn(s, provider, paymentId);
    Unchanged(s);
    if k.Some? {
      var txn, t := s.txns[k.value], SetTxn(s, k.value, TxnConfirmed);
      assert Sound(t);
      Unchanged(t);
      hide Sound, Ordinary, MarkPaid;
      if txn.invoice < |s.invoices| {
        var p := PaymentData(Some(today), Some(provider + ":" + paymentId), Some(txn.amount));
        MarkPaidOrdinary(t, txn.invoice, p, "online_payment", today);
      }
      OtherTxns(s, t, PaymentConfirmed(s, provider, paymentId, today));
    }
  }

  lemma FailedPaymentOrdinary(s: State, provider: string, paymentId: string)
    requires Sound(s)
    ensures Ordinary(s, PaymentFailed(s, provider, paymentId))
  {
  }

  lemma BodyOrdinary(s: State, b: Body, today: int)
    requires Sound(s)
    ensures Ordinary(s, ProcessBody(s, b, today))
  {
    hide Ordinary, Sound, PaymentConfirmed, PaymentFailed, InvoicePaid, CreateInvoice, ImportCreditNote;
    Unchanged(s);
    match b
    case Confirmed(provider, paymentId) => ConfirmedOrdinary(s, provider, paymentId, today);
    case Failed(provider, paymentId) => FailedPaymentOrdinary(s, provider, paymentId);
    case StripePaid(provider, stripeId, cents) => InvoicePaidOrdinary(s, provider, stripeId, cents, today);
    case StripeFinalized(d, stripeId) => CreateOrdinary(s, d.(externalId := Some(stripeId)));
    case StripeCreditNote(d, stripeId, credited) => ImportCreditNoteOrdinary(s, d, stripeId, credited);
    case Unhandled =>
  }

  lemma WebhookStep(s: State, eventId: string, b: Body, today: int)
    requires Sound(s)
    ensures var s' := HandleWebhook(s, eventId, b, today);
            Ordinary(s.(events := s'.events), s') && s'.events == s.events + {eventId}
  {
    if eventId in s.events {
      Unchanged(s);
    } else {
      hide ProcessBody;
      var t := s.(events := s.events + {eventId});
      assert Sound(t);
      BodyOrdinary(t, b, today);
    }
  }

  /** Neither a validation, a generation nor a webhook. */
  predicate Plain(a: Action) {
    !a.DoValidate? && !a.DoGenerate? && !a.DoWebhook?
  }

  lemma PlainOrdinary(s: State, a: Action)
    requires Sound(s) && Plain(a)
    ensures Ordinary(s, Apply(s, a))
  {
    hide Ordinary, Sound, CreateCheckout, CreateInvoice, UpdateInvoice, ReplaceDraftData, SoftDelete, TransmitInvoice;
    hide CancelInvoice, MarkPaid, SubmitFlow, Poll, PollInterrupted, ImportCreditNote;
    Unchanged(s);
    match a {
      case DoCreate(d) => CreateOrdinary(s, d);
      case DoUpdate(id, p) => if Visible(s, id) { UpdateOrdinary(s, id, p); }
      case DoReplace(id, sup, data) => if Visible(s, id) { ReplaceOrdinary(s, id, sup, data); }
      case DoSoftDelete(id) => if Visible(s, id) { SoftDeleteOrdinary(s, id); }
      case DoTransmit(id) => if Visible(s, id) { TransmitOrdinary(s, id); }
      case DoMarkPaid(id, p, today) => if Visible(s, id) { MarkPaidOrdinary(s, id, p, "", today); }
      case DoCancel(id) => if Visible(s, id) { CancelOrdinary(s, id); }
      case DoSubmit(id, flow) => if id < |s.invoices| { SubmitOrdinary(s, id, flow); }
      case DoPoll(org, number, reports, acks, today) =>
        PollQuiet(s, org, number, reports, acks, today);
        QuietOrdinary(s, Poll(s, org, number, reports, acks, today));
      case DoPollInterrupted(org, number, reports, acks, k, today) =>
        PollInterruptedQuiet(s, org, number, reports, acks, k, today);
        QuietOrdinary(s, PollInterrupted(s, org, number, reports, acks, k, today));
      case DoCheckout(id, provider, answer) => CheckoutOrdinary(s, a);
      case DoImportInvoice(d, stripeId) => CreateOrdinary(s, d.(externalId := Some(stripeId)));
      case DoImportCreditNote(d, stripeId, credited) => ImportCreditNoteOrdinary(s, d, stripeId, credited);
      case _ =>
    }
  }

  lemma CheckoutOrdinary(s: State, a: Action)
    requires Sound(s) && a.DoCheckout?
    ensures Ordinary(s, Apply(s, a))
  {
    Unchanged(s);
    OtherTxnsAfter(s, Apply(s, a));
  }

  lemma OtherTxnsAfter(s: State, s': State)
    requires Ordinary(s, s)
    ensures s' == s.(txns := s'.txns) ==> Ordinary(s, s')
  {
  }

  /** Every step keeps the invariant, every row, and every line of the audit log. */
  lemma StepSound(s: State, a: Action)
    requires Sound(s)
    ensures Sound(Apply(s, a)) && RowsKept(s, Apply(s, a)) && s.logs <= Apply(s, a).logs
    ensures !a.DoGenerate? ==> NoneCancelled(s, Apply(s, a)) && NoneEmitted(s, Apply(s, a))
    ensures !a.DoGenerate? ==> Appended(s.logs, Apply(s, a).logs)
    ensures !a.DoValidate? ==> Apply(s, a).counters == s.counters
    ensures s.events <= Apply(s, a).events
    ensures !a.DoWebhook? ==> Apply(s, a).events == s.events
  {
    Unchanged(s);
    if Plain(a) {
      PlainOrdinary(s, a);
    } else if a.DoValidate? {
      if Visible(s, a.id) { ValidateStep(s, a.id, a.partiesOk, a.prefix, a.padding); }
    } else if a.DoGenerate? {
      if a.id < |s.invoices| { GenerateStep(s, a.id, a.generation); }
    } else {
      WebhookStep(s, a.eventId, a.body, a.today);
    }
  }

  lemma {:induction false} RunSound(actions: seq<Action>)
    ensures Sound(Run(EMPTY, actions))
  {
    if actions != [] {
      RunSound(actions[..|actions| - 1]);
      StepSound(Run(EMPTY, actions[..|actions| - 1]), actions[|actions| - 1]);
    }
  }
}
