/** Runs of the whole system: every service call, task body and inbound event is one step. */
module Runs {
  import opened Wrappers
  import opened Records
  import opened InvoiceService
  import opened Tasks
  import opened Payments

  datatype Action =
    | DoCreate(payload: Payload)
    | DoUpdate(id: Id, patch: Patch)
    | DoReplace(id: Id, supplier: Supplier, data: Snapshot)
    | DoSoftDelete(id: Id)
    | DoValidate(id: Id, partiesOk: bool, prefix: string, padding: nat)
    | DoTransmit(id: Id)
    | DoMarkPaid(id: Id, payment: PaymentData, today: int)
    | DoCancel(id: Id)
    | DoGenerate(id: Id, generation: Generation)
    | DoSubmit(id: Id, flow: Option<string>)
    | DoPoll(org: nat, number: Option<string>, reports: seq<Report>, acks: map<Id, Ack>, today: int)
    | DoPollInterrupted(org: nat, number: Option<string>, reports: seq<Report>, acks: map<Id, Ack>, k: nat, today: int)
    | DoCheckout(id: Id, provider: string, answer: Session)
    | DoWebhook(eventId: string, body: Body, today: int)
    | DoImportInvoice(payload: Payload, stripeId: string)
    | DoImportCreditNote(payload: Payload, stripeId: string, credited: string)

  /** One step. User actions find the invoice as the API does; tasks find any row. A task may run
      at any time and any number of times: its own status check decides whether it does anything. */
  function Apply(s: State, a: Action): State {
    match a
    case DoCreate(d) => CreateInvoice(s, d).after
    case DoUpdate(id, p) => if Visible(s, id) then UpdateInvoice(s, id, p).after else s
    case DoReplace(id, sup, data) => if Visible(s, id) then ReplaceDraftData(s, id, sup, data).after else s
    case DoSoftDelete(id) => if Visible(s, id) then SoftDelete(s, id).after else s
    case DoValidate(id, ok, prefix, padding) =>
      if Visible(s, id) then ValidateInvoice(s, id, ok, prefix, padding).after else s
    case DoTransmit(id) => if Visible(s, id) then TransmitInvoice(s, id).after else s
    case DoMarkPaid(id, p, today) => if Visible(s, id) then MarkPaid(s, id, p, "", today).after else s
    case DoCancel(id) => if Visible(s, id) then CancelInvoice(s, id).after else s
    case DoGenerate(id, g) => if id < |s.invoices| then GenerateAndValidate(s, id, g).after else s
    case DoSubmit(id, flow) => if id < |s.invoices| then SubmitFlow(s, id, flow).after else s
    case DoPoll(org, number, reports, acks, today) => Poll(s, org, number, reports, acks, today)
    case DoPollInterrupted(org, number, reports, acks, k, today) =>
      PollInterrupted(s, org, number, reports, acks, k, today)
    case DoCheckout(id, provider, answer) => if Visible(s, id) then CreateCheckout(s, id, provider, answer).after else s
    case DoWebhook(eventId, body, today) => HandleWebhook(s, eventId, body, today)
    case DoImportInvoice(d, stripeId) => ImportInvoice(s, d, stripeId).after
    case DoImportCreditNote(d, stripeId, credited) => ImportCreditNote(s, d, stripeId, credited).after
  }

  function Run(s: State, actions: seq<Action>): State {
    if actions == [] then s
    else Apply(Run(s, actions[..|actions| - 1]), actions[|actions| - 1])
  }

  /** `p` holds at every moment of the run. */
  ghost predicate Always(p: State -> bool, actions: seq<Action>) {
    forall n | 0 <= n <= |actions| :: p(Run(EMPTY, actions[..n]))
  }

  /** No step of the run is a `q` step. */
  ghost predicate Never(q: (State, Action) -> bool, actions: seq<Action>) {
    forall n | 0 <= n < |actions| :: !q(Run(EMPTY, actions[..n]), actions[n])
  }

  lemma AlwaysLast(p: State -> bool, actions: seq<Action>)
    requires actions != []
    ensures Always(p, actions) <==> Always(p, actions[..|actions| - 1]) && p(Run(EMPTY, actions))
  {
    hide Run;
    var before := actions[..|actions| - 1];
    if Always(p, actions) {
      assert actions[..|actions|] == actions;
      forall m | 0 <= m <= |before| ensures p(Run(EMPTY, before[..m])) {
        assert before[..m] == actions[..m];
      }
    } else if Always(p, before) && p(Run(EMPTY, actions)) {
      forall m | 0 <= m <= |actions| ensures p(Run(EMPTY, actions[..m])) {
        assert actions[..m] == if m <= |before| then before[..m] else actions;
      }
    }
  }

  lemma NeverLast(q: (State, Action) -> bool, actions: seq<Action>)
    requires actions != []
    ensures var n := |actions| - 1;
            Never(q, actions) <==> Never(q, actions[..n]) && !q(Run(EMPTY, actions[..n]), actions[n])
  {
    hide Run;
    var before := actions[..|actions| - 1];
    if Never(q, actions) {
      forall m | 0 <= m < |before| ensures !q(Run(EMPTY, before[..m]), before[m]) {
        assert before[..m] == actions[..m];
      }
    } else if Never(q, before) && !q(Run(EMPTY, before), actions[|before|]) {
      forall m | 0 <= m < |actions| ensures !q(Run(EMPTY, actions[..m]), actions[m]) {
        assert actions[..m] == if m < |before| then before[..m] else before;
      }
    }
  }

  /** When exactly the `q` steps break `p`, a run keeps `p` throughout iff it has no `q` step. */
  lemma {:induction false} AlwaysIffNever(inv: State -> bool, p: State -> bool, q: (State, Action) -> bool,
                                          actions: seq<Action>)
    requires inv(EMPTY) && p(EMPTY)
    requires forall s, a :: inv(s) ==> inv(Apply(s, a))
    requires forall s, a :: inv(s) && p(s) ==> (p(Apply(s, a)) <==> !q(s, a))
    ensures inv(Run(EMPTY, actions))
    ensures Always(p, actions) <==> Never(q, actions)
  {
    hide Apply;
    if actions != [] {
      var n := |actions| - 1;
      AlwaysIffNever(inv, p, q, actions[..n]);
      AlwaysLast(p, actions);
      NeverLast(q, actions);
      if Always(p, actions[..n]) {
        assert actions[..n][..n] == actions[..n];
        assert p(Run(EMPTY, actions[..n]));
      }
    }
  }
}
