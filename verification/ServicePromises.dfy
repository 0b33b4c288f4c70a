/** What the services of invoice_service.py promise their callers, field by field. */
module ServicePromises {
  import opened Wrappers
  import opened StateMachine
  import opened Records
  import opened InvoiceService
  import opened Tasks
  import opened Payments
  import opened Runs
  import opened Soundness
  import Numbers

  /** Another row than `id` has this number under this supplier, or this external id in this organization. */
  predicate Clash(s: State, id: Id, supplier: nat, number: string, org: nat, externalId: Option<string>) {
    exists j | 0 <= j < |s.invoices| && j != id ::
      (number != "" && s.invoices[j].number == number && s.invoices[j].supplier.id == supplier)
      || (externalId.Some? && s.invoices[j].externalId == externalId && s.invoices[j].org == org)
  }

  lemma AdmitsIff(s: State, id: Id, inv: Invoice)
    ensures Admits(s.invoices, id, inv) <==> !Clash(s, id, inv.supplier.id, inv.number, inv.org, inv.externalId)
  {
    if Clash(s, id, inv.supplier.id, inv.number, inv.org, inv.externalId) {
      var j :| 0 <= j < |s.invoices| && j != id
               && ((inv.number != "" && s.invoices[j].number == inv.number
                    && s.invoices[j].supplier.id == inv.supplier.id)
                   || (inv.externalId.Some? && s.invoices[j].externalId == inv.externalId
                       && s.invoices[j].org == inv.org));
      assert !Compatible(inv, s.invoices[j]);
    }
  }

  /** Only the rows of the invoices and the log differ: row `id` is now `inv`, and `added` was logged. */
  predicate Became(s: State, s': State, id: Id, inv: Invoice, added: seq<Log>) {
    && id < |s.invoices|
    && s' == s.(invoices := s.invoices[id := inv], logs := s.logs + added)
  }

  // ---------- drafts ----------

  /** A creation is refused exactly on a clash; else it adds a draft at version 1 that carries what was
      given, the number in its document too, and nothing else. */
  lemma CreatePromise(s: State, d: Payload)
    ensures var e, n := CreateInvoice(s, d), |s.invoices|;
            && (e.out == IntegrityError <==> Clash(s, n, d.supplier.id, d.number, d.org, d.externalId))
            && (e.out != Done ==> e == Effect(s, IntegrityError))
            && (e.out == Done ==>
                  && |e.after.invoices| == n + 1
                  && e.after == s.(invoices := s.invoices + [e.after.invoices[n]], logs := s.logs + [Created(n)])
                  && var inv := e.after.invoices[n];
                     && inv.status == Draft && inv.version == 1 && !inv.deleted && inv.preceding.None?
                     && inv.org == d.org && inv.supplier == d.supplier && inv.externalId == d.externalId
                     && inv.number == d.number && inv.total == d.data.gross
                     && inv.data == (if d.number != "" then d.data.(invoiceNumber := d.number) else d.data)
                     && inv.paymentDate.None? && inv.paymentAmount.None? && inv.paymentReference == ""
                     && inv.transmissionId == "" && inv.pdpStatus == "")
  {
    AdmitsIff(s, |s.invoices|, NewInvoice(d));
  }

  /** An update needs a draft and its current version; else ConflictError. What it gives replaces what
      was there, the rest stays, and the version rises by one. */
  lemma UpdatePromise(s: State, id: Id, p: Patch)
    requires id < |s.invoices|
    ensures var inv, e := s.invoices[id], UpdateInvoice(s, id, p);
            var supplier := if p.supplier.Some? then p.supplier.value else inv.supplier;
            var data := if p.data.Some? then p.data.value else inv.data;
            var externalId := if p.externalId.Some? then p.externalId.value else inv.externalId;
            && (e.out == ConflictError <==> inv.status != Draft || p.version != Some(inv.version))
            && (e.out == IntegrityError <==>
                  inv.status == Draft && p.version == Some(inv.version)
                  && Clash(s, id, supplier.id, inv.number, inv.org, externalId))
            && (e.out != ConflictError && e.out != IntegrityError ==>
                  && e.out == Done
                  && Became(s, e.after, id,
                            inv.(supplier := supplier, data := data, externalId := externalId,
                                 version := inv.version + 1, total := data.gross),
                            [DataUpdate(id)]))
            && (e.out != Done ==> e.after == s)
  {
    hide Admits;
    AdmitsIff(s, id, Patched(s.invoices[id], p));
  }

  /** The optimistic lock: a version is good for one update. */
  lemma StaleUpdate(s: State, id: Id, p: Patch, q: Patch)
    requires id < |s.invoices| && UpdateInvoice(s, id, p).out == Done && q.version == p.version
    ensures var s' := UpdateInvoice(s, id, p).after;
            id < |s'.invoices| && UpdateInvoice(s', id, q) == Effect(s', ConflictError)
  {
  }

  /** A re-import needs a draft; it replaces supplier and document, keeps the number, and raises the version. */
  lemma ReplacePromise(s: State, id: Id, supplier: Supplier, data: Snapshot)
    requires id < |s.invoices|
    ensures var inv, e := s.invoices[id], ReplaceDraftData(s, id, supplier, data);
            && (e.out == ConflictError <==> inv.status != Draft)
            && (e.out == IntegrityError <==>
                  inv.status == Draft && Clash(s, id, supplier.id, inv.number, inv.org, inv.externalId))
            && (e.out != ConflictError && e.out != IntegrityError ==>
                  && e.out == Done
                  && Became(s, e.after, id,
                            inv.(supplier := supplier,
                                 data := if inv.number == "" then data else data.(invoiceNumber := inv.number),
                                 version := inv.version + 1, total := data.gross),
                            [DataUpdate(id)]))
            && (e.out != Done ==> e.after == s)
  {
    hide Admits;
    AdmitsIff(s, id, Replaced(s.invoices[id], supplier, data));
  }

  /** Exactly the drafts without number can be deleted; the row stays, marked. */
  lemma DeletePromise(s: State, id: Id)
    requires id < |s.invoices|
    ensures var inv, e := s.invoices[id], SoftDelete(s, id);
            && (e.out == Done <==> inv.status == Draft && inv.number == "")
            && (e.out == Done ==> Became(s, e.after, id, inv.(deleted := true), [Delete(id)]))
            && (e.out != Done ==> e == Effect(s, ConflictError))
  {
  }

  // ---------- validation ----------

  /** The number a draft is validated with: its own, or the next of its series. */
  function NumberDue(s: State, inv: Invoice, prefix: string, padding: nat): string {
    var key := Series(inv.supplier.id, prefix);
    var last := if key in s.counters then s.counters[key] else 0;
    if inv.number != "" then inv.number else Numbers.Print(prefix, last + 1, padding)
  }

  /** A validation needs a draft, parties in order, and a free number, in this order; whatever is missing,
      nothing changes, the counter included. */
  lemma ValidateRefuses(s: State, id: Id, partiesOk: bool, prefix: string, padding: nat)
    requires id < |s.invoices|
    ensures var inv, e := s.invoices[id], ValidateInvoice(s, id, partiesOk, prefix, padding);
            && (e.out == ConflictError <==> inv.status != Draft)
            && (e.out == ValueError <==> inv.status == Draft && !partiesOk)
            && (e.out == IntegrityError <==>
                  inv.status == Draft && partiesOk
                  && Clash(s, id, inv.supplier.id, NumberDue(s, inv, prefix, padding), inv.org, inv.externalId))
            && (e.out == Done || e.out in {ConflictError, ValueError, IntegrityError})
            && (e.out != Done ==> e.after == s)
  {
    var inv := s.invoices[id];
    hide Admits, Numbers.Print;
    AdmitsIff(s, id, Numbered(inv, NumberFor(s, inv, prefix, padding)));
  }

  /** Else the draft goes to PROCESSING under that number, written into its document, and a payment
      recorded beforehand is shown in it as prepaid (BR-CO-16). The counter moves only for a new number. */
  lemma ValidatePromise(s: State, id: Id, prefix: string, padding: nat)
    requires id < |s.invoices| && ValidateInvoice(s, id, true, prefix, padding).out == Done
    ensures var inv, s' := s.invoices[id], ValidateInvoice(s, id, true, prefix, padding).after;
            var number, key := NumberDue(s, inv, prefix, padding), Series(inv.supplier.id, prefix);
            var data := inv.data.(invoiceNumber := number);
            var gross := if data.gross.Some? then data.gross.value else 0;
            var data' := if inv.paymentAmount.None? || inv.paymentAmount.value == 0 then data
                         else data.(prepayment := inv.paymentAmount,
                                    amountDue := Some(gross - inv.paymentAmount.value));
            && |s'.invoices| == |s.invoices|
            && s'.invoices == s.invoices[id := inv.(status := Processing, number := number, data := data',
                                                    total := inv.data.gross)]
            && s'.logs == s.logs + [StatusChange(id, Draft, Processing, ByUser)]
            && s'.events == s.events && s'.txns == s.txns
            && s'.counters == (if inv.number != "" then s.counters
                               else s.counters[key := (if key in s.counters then s.counters[key] else 0) + 1])
  {
    hide Admits, Numbers.Print;
  }

  /** Exactly a validated invoice can be transmitted. */
  lemma TransmitPromise(s: State, id: Id)
    requires id < |s.invoices|
    ensures var inv, e := s.invoices[id], TransmitInvoice(s, id);
            && (e.out == Done <==> inv.status == Validated)
            && (e.out == Done ==> Became(s, e.after, id, inv.(status := Transmitting),
                                         [StatusChange(id, Validated, Transmitting, ByUser)]))
            && (e.out != Done ==> e == Effect(s, ConflictError))
  {
  }

  // ---------- payment ----------

  /** Exactly validated, transmitted and accepted invoices can be paid. The date given is kept, else the
      one recorded, else today; the reference given, else the one recorded; the amount given unless it is
      absent or zero, else the one recorded unless absent or zero, else the gross total; the log says which. */
  lemma PayPromise(s: State, id: Id, p: PaymentData, source: string, today: int)
    requires Sound(s) && id < |s.invoices|
    ensures var inv, e := s.invoices[id], MarkPaid(s, id, p, source, today);
            var date := if p.date.Some? then p.date else if inv.paymentDate.Some? then inv.paymentDate else Some(today);
            var reference := if p.reference.Some? then p.reference.value else inv.paymentReference;
            var amount := if p.amount.Some? && p.amount.value != 0 then p.amount
                          else if inv.paymentAmount.Some? && inv.paymentAmount.value != 0 then inv.paymentAmount
                          else inv.total;
            && (e.out == Done <==> inv.status in {Validated, Transmitted, Accepted})
            && (e.out == Done ==>
                  Became(s, e.after, id,
                         inv.(status := Paid, paymentDate := date, paymentReference := reference,
                              paymentAmount := amount),
                         [StatusChange(id, inv.status, Paid, Payment(source, date, reference, amount))]))
            && (e.out != Done ==> e == Effect(s, ConflictError))
  {
    assert RowOk(s.invoices[id], id);
    hide Sound;
  }

  // ---------- cancellation ----------

  /** Exactly validated, transmitted, accepted and paid invoices can be cancelled: a draft credit note of
      type 381 with the same document is added, linked to the invoice and naming its number. */
  lemma CancelPromise(s: State, id: Id)
    requires Sound(s) && id < |s.invoices|
    ensures var inv, e, n := s.invoices[id], CancelInvoice(s, id), |s.invoices|;
            && (e.out == Done <==> inv.status in {Validated, Transmitted, Accepted, Paid})
            && (e.out != Done ==> e == Effect(s, ConflictError))
            && (e.out == Done ==>
                  && |e.after.invoices| == n + 1
                  && e.after == s.(invoices := s.invoices + [e.after.invoices[n]], logs := s.logs + [Created(n)])
                  && var note := e.after.invoices[n];
                     && note.status == Draft && note.number == "" && note.version == 1 && !note.deleted
                     && note.preceding == Some(id) && note.externalId.None?
                     && note.org == inv.org && note.supplier == inv.supplier && note.total == inv.total
                     && note.data == inv.data.(typeCode := "381", precedingReference := inv.number)
                     && note.paymentDate.None? && note.paymentAmount.None? && note.paymentReference == ""
                     && note.transmissionId == "" && note.pdpStatus == "")
  {
    assert RowOk(s.invoices[id], id);
    hide Sound;
  }

  /** A credit note cancels the invoice it is linked to exactly when that one is VALIDATED or PAID and the
      gross totals are there and equal; nothing else changes. */
  lemma AutoCancelPromise(s: State, c: Id)
    requires Sound(s) && c < |s.invoices|
    ensures var note, s' := s.invoices[c], CheckAutoCancel(s, c);
            if note.preceding.Some? && note.preceding.value < |s.invoices|
               && s.invoices[note.preceding.value].status in {Validated, Paid}
               && note.total.Some? && s.invoices[note.preceding.value].total == note.total
            then
              var o := note.preceding.value;
              Became(s, s', o, s.invoices[o].(status := Cancelled),
                     [StatusChange(o, s.invoices[o].status, Cancelled, CreditNoteValidated(c))])
            else s' == s
  {
    hide Sound;
  }

  // ---------- which action calls which service ----------

  /** A user's action on a row that is missing or deleted changes nothing. */
  lemma DeletedRowsAreOut(s: State, a: Action)
    requires a.DoUpdate? || a.DoReplace? || a.DoSoftDelete? || a.DoValidate? || a.DoTransmit? || a.DoMarkPaid?
             || a.DoCancel? || a.DoCheckout?
    requires a.id >= |s.invoices| || s.invoices[a.id].deleted
    ensures Apply(s, a) == s
  {
  }

  /** On a live row it is the service of that name; a manual payment has no source. */
  lemma UserActionPromise(s: State, a: Action, id: Id)
    requires id < |s.invoices| && !s.invoices[id].deleted
    ensures a.DoUpdate? && a.id == id ==> Apply(s, a) == UpdateInvoice(s, id, a.patch).after
    ensures a.DoReplace? && a.id == id ==> Apply(s, a) == ReplaceDraftData(s, id, a.supplier, a.data).after
    ensures a.DoSoftDelete? && a.id == id ==> Apply(s, a) == SoftDelete(s, id).after
    ensures a.DoValidate? && a.id == id ==>
              Apply(s, a) == ValidateInvoice(s, id, a.partiesOk, a.prefix, a.padding).after
    ensures a.DoTransmit? && a.id == id ==> Apply(s, a) == TransmitInvoice(s, id).after
    ensures a.DoMarkPaid? && a.id == id ==> Apply(s, a) == MarkPaid(s, id, a.payment, "", a.today).after
    ensures a.DoCancel? && a.id == id ==> Apply(s, a) == CancelInvoice(s, id).after
    ensures a.DoCheckout? && a.id == id ==> Apply(s, a) == CreateCheckout(s, id, a.provider, a.answer).after
  {
    hide UpdateInvoice, ReplaceDraftData, SoftDelete, ValidateInvoice, TransmitInvoice, MarkPaid, CancelInvoice;
    hide CreateCheckout;
  }

  /** Tasks run on any row, deleted or not. */
  lemma TaskActionPromise(s: State, a: Action)
    ensures a.DoGenerate? && a.id < |s.invoices| ==> Apply(s, a) == GenerateAndValidate(s, a.id, a.generation).after
    ensures a.DoSubmit? && a.id < |s.invoices| ==> Apply(s, a) == SubmitFlow(s, a.id, a.flow).after
    ensures a.DoPoll? ==> Apply(s, a) == Poll(s, a.org, a.number, a.reports, a.acks, a.today)
    ensures a.DoPollInterrupted? ==> Apply(s, a) == PollInterrupted(s, a.org, a.number, a.reports, a.acks, a.k, a.today)
    ensures a.DoWebhook? ==> Apply(s, a) == HandleWebhook(s, a.eventId, a.body, a.today)
    ensures a.DoImportInvoice? ==> Apply(s, a) == ImportInvoice(s, a.payload, a.stripeId).after
    ensures a.DoImportCreditNote? ==> Apply(s, a) == ImportCreditNote(s, a.payload, a.stripeId, a.credited).after
    ensures a.DoCreate? ==> Apply(s, a) == CreateInvoice(s, a.payload).after
  {
    hide GenerateAndValidate, SubmitFlow, Poll, PollInterrupted, HandleWebhook, ImportInvoice, ImportCreditNote;
    hide CreateInvoice;
  }
}
