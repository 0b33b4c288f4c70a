/** What the tasks promise, one step at a time: generation, submission, lifecycle events, acknowledgements. */
module TaskPromises {
  import opened Wrappers
  import opened StateMachine
  import opened Records
  import opened Tasks
  import opened Soundness
  import opened ServicePromises

  // ---------- generation and submission ----------

  /** The credit note of row `id`, once generated, cancels the invoice it is linked to. */
  predicate CancelsOriginal(s: State, id: Id) {
    && id < |s.invoices|
    && s.invoices[id].preceding.Some? && s.invoices[id].preceding.value < |s.invoices|
    && s.invoices[s.invoices[id].preceding.value].status in {Validated, Paid}
    && s.invoices[id].total.Some?
    && s.invoices[s.invoices[id].preceding.value].total == s.invoices[id].total
  }

  /** Only an invoice being processed is generated. A failure sends it back to DRAFT; a success makes it
      VALIDATED and, for a matching credit note, cancels the original; interrupted after that, it goes
      back to DRAFT all the same, the cancellation standing. */
  lemma GeneratePromise(s: State, id: Id, g: Generation)
    requires Sound(s) && id < |s.invoices|
    ensures var inv, e := s.invoices[id], GenerateAndValidate(s, id, g);
            var moved := s.invoices[id := inv.(status := if g.Generated? then Validated else Draft)];
            var validated := StatusChange(id, Processing, Validated, CeleryTask);
            var back := if g.Interrupted? then [StatusChange(id, Validated, Draft, Failure("timeout"))] else [];
            && (inv.status != Processing ==> e == Effect(s, Skipped))
            && (inv.status == Processing ==>
                  && e.out == Done
                  && (if g.GenerateFailed? then
                        e.after == s.(invoices := moved,
                                      logs := s.logs + [StatusChange(id, Processing, Draft, Failure(g.kind))])
                      else if !CancelsOriginal(s, id) then
                        e.after == s.(invoices := moved, logs := s.logs + [validated] + back)
                      else
                        var o := inv.preceding.value;
                        var cancelled := StatusChange(o, s.invoices[o].status, Cancelled, CreditNoteValidated(id));
                        e.after == s.(invoices := moved[o := s.invoices[o].(status := Cancelled)],
                                      logs := s.logs + [validated, cancelled] + back)))
  {
    var inv := s.invoices[id];
    assert RowOk(inv, id);
    if inv.preceding.Some? && inv.preceding.value < |s.invoices| {
      assert RowOk(s.invoices[inv.preceding.value], inv.preceding.value);
    }
    hide Sound;
  }

  /** Only an invoice in transmission is submitted: accepted, it keeps its status and the flow id; else it
      goes back to VALIDATED. */
  lemma SubmitPromise(s: State, id: Id, flow: Option<string>)
    requires id < |s.invoices|
    ensures var inv, e := s.invoices[id], SubmitFlow(s, id, flow);
            && (inv.status != Transmitting ==> e == Effect(s, Skipped))
            && (inv.status == Transmitting && flow.Some? ==>
                  e.out == Done && Became(s, e.after, id, inv.(transmissionId := flow.value, pdpStatus := "submitted"),
                                          [FlowSubmitted(id, flow.value)]))
            && (inv.status == Transmitting && flow.None? ==>
                  e.out == Done && Became(s, e.after, id, inv.(status := Validated),
                                          [StatusChange(id, Transmitting, Validated, Failure("transmission_failed"))]))
  {
  }

  // ---------- a lifecycle event ----------

  /** Deposited 200, accepted 201, refused 210, rejected 213: from which statuses, and to which. */
  function Reached(st: Status, code: string): Option<Status> {
    if code == "200" && st == Transmitting then Some(Transmitted)
    else if code == "201" && st == Transmitted then Some(Accepted)
    else if code == "210" && st in {Transmitted, Accepted} then Some(Refused)
    else if code == "213" && st in {Transmitting, Transmitted} then Some(Rejected)
    else None
  }

  /** The amount a recorded payment is applied with: the one recorded unless absent or zero, else the total. */
  function AppliedAmount(inv: Invoice): Option<int> {
    if inv.paymentAmount.Some? && inv.paymentAmount.value != 0 then inv.paymentAmount else inv.total
  }

  /** A payment recorded on `inv` applied in status `st`, and its log row. */
  function PaidInvoice(inv: Invoice): Invoice {
    inv.(status := Paid, paymentAmount := AppliedAmount(inv))
  }

  function PaidLog(inv: Invoice, id: Id, st: Status): Log {
    StatusChange(id, st, Paid, Payment("prepaid_auto", inv.paymentDate, inv.paymentReference, AppliedAmount(inv)))
  }

  /** A fresh event is always logged. It moves the invoice where the codes say, and an invoice paid for
      that is then deposited or accepted on to PAID; else it changes no invoice. */
  lemma EventPromise(s: State, id: Id, ev: Event, today: int)
    requires Sound(s) && id < |s.invoices|
    ensures var inv, to := s.invoices[id], Reached(s.invoices[id].status, ev.code);
            var s', seen := ProcessEvent(s, id, ev, today), CdarEvent(id, ev.code, ev.at);
            if to.None? then s' == s.(logs := s.logs + [seen])
            else if inv.paymentDate.None? || to.value !in {Transmitted, Accepted} then
              Became(s, s', id, inv.(status := to.value),
                     [seen, StatusChange(id, inv.status, to.value, CdarPoll(ev.code))])
            else
              Became(s, s', id, PaidInvoice(inv),
                     [seen, StatusChange(id, inv.status, to.value, CdarPoll(ev.code)), PaidLog(inv, id, to.value)])
  {
    assert RowOk(s.invoices[id], id);
    hide Sound;
    EventReaches(s.invoices[id].status, ev.code);
  }

  /** With the broker down the event is logged and moves the invoice, and no payment is applied. */
  lemma BrokenEventPromise(s: State, id: Id, ev: Event)
    requires id < |s.invoices|
    ensures var inv, to := s.invoices[id], Reached(s.invoices[id].status, ev.code);
            var s', seen := RecordEvent(s, id, ev), CdarEvent(id, ev.code, ev.at);
            if to.None? then s' == s.(logs := s.logs + [seen])
            else
              Became(s, s', id, inv.(status := to.value),
                     [seen, StatusChange(id, inv.status, to.value, CdarPoll(ev.code))])
  {
    EventReaches(s.invoices[id].status, ev.code);
  }

  lemma EventReaches(st: Status, code: string)
    ensures Applies(st, code) <==> Reached(st, code).Some?
    ensures Applies(st, code) ==> CdarStatus(code) == Reached(st, code)
  {
    assert "200"[2] != "201"[2] && "200"[1] != "210"[1] && "200"[1] != "213"[1];
    assert "201"[1] != "210"[1] && "201"[1] != "213"[1] && "210"[2] != "213"[2];
  }

  // ---------- an acknowledgement ----------

  /** The flow of this row is looked up: submitted, still in transmission, of the organization and the number
      asked, and not reported. */
  predicate Awaiting(inv: Invoice, org: nat, number: Option<string>, reported: set<string>) {
    && inv.status == Transmitting && inv.transmissionId != "" && inv.org == org
    && (number.Some? ==> inv.number == number.value)
    && inv.number !in reported
  }

  /** The row after the platform answered for its flow. */
  function Acknowledged(inv: Invoice, ack: Ack): Invoice {
    match ack
    case Ok => if inv.paymentDate.Some? then PaidInvoice(inv.(pdpStatus := "Ok"))
               else inv.(status := Transmitted, pdpStatus := "Ok")
    case Error => inv.(status := Validated, pdpStatus := "Error")
    case Pending => inv
    case Unreachable => inv
  }

  function AcknowledgedLogs(inv: Invoice, id: Id, ack: Ack): seq<Log> {
    match ack
    case Ok => [StatusChange(id, Transmitting, Transmitted, FlowFallback)]
               + if inv.paymentDate.Some? then [PaidLog(inv, id, Transmitted)] else []
    case Error => [StatusChange(id, Transmitting, Validated, FlowFallback)]
    case Pending => []
    case Unreachable => []
  }

  /** Ok makes the invoice TRANSMITTED, and PAID if paid for; Error sends it back to VALIDATED; a pending or
      missing answer changes nothing, and no other invoice is looked at. */
  lemma FlowPromise(s: State, id: Id, org: nat, number: Option<string>, reported: set<string>, ack: Ack, today: int)
    requires Sound(s) && id < |s.invoices|
    ensures var inv, s' := s.invoices[id], CheckFlow(s, id, org, number, reported, ack, today);
            if Awaiting(inv, org, number, reported)
            then Became(s, s', id, Acknowledged(inv, ack), AcknowledgedLogs(inv, id, ack))
            else s' == s
  {
    assert RowOk(s.invoices[id], id);
    hide Sound;
  }
}
