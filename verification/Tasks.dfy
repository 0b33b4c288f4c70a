/** What each Celery task of tasks.py does to the rows; a remote call is an argument of the step. */
module Tasks {
  import opened Wrappers
  import opened StateMachine
  import opened Records
  import opened InvoiceService

  // ---------- generation ----------

  /** `GenerateFailed`: an exception before VALIDATED is saved. `Interrupted`: `emit_webhook` (or a
      later statement of the same `try`) raises after VALIDATED was saved. */
  datatype Generation = GenerateFailed(kind: string) | Generated | Interrupted

  function HandleFactpulseError(s: State, id: Id, kind: string): State
    requires id < |s.invoices|
  {
    Move(s, id, Sync(s.invoices[id]), Draft, Failure(kind))
  }

  function GenerateAndValidate(s: State, id: Id, g: Generation): Effect
    requires id < |s.invoices|
  {
    if s.invoices[id].status != Processing then Effect(s, Skipped)
    else if g.GenerateFailed? then Effect(HandleFactpulseError(s, id, g.kind), Done)
    else
      var validated := CheckAutoCancel(Move(s, id, Sync(s.invoices[id]), Validated, CeleryTask), id);
      if g.Generated? then Effect(validated, Done)
      else Effect(HandleFactpulseError(validated, id, "timeout"), Done)
  }

  // ---------- submission ----------

  /** `flow`: the flow id of a 202 answer, or None when the platform refuses or is unreachable. */
  function SubmitFlow(s: State, id: Id, flow: Option<string>): Effect
    requires id < |s.invoices|
  {
    var inv := s.invoices[id];
    if inv.status != Transmitting then Effect(s, Skipped)
    else if flow.Some? then
      Effect(Note(Save(s, id, inv.(transmissionId := flow.value, pdpStatus := "submitted")),
                  FlowSubmitted(id, flow.value)), Done)
    else Effect(Move(s, id, inv, Validated, Failure("transmission_failed")), Done)
  }

  // ---------- CDAR lifecycle ----------

  datatype Event = Event(code: string, at: string)

  /** One element of `data["invoices"]`. */
  datatype Report = Report(sellerId: string, invoiceId: string, events: seq<Event>)

  /** An event together with the local invoice it was matched to. */
  datatype Item = Item(id: Id, event: Event)

  function CdarStatus(code: string): Option<Status> {
    if code == "200" then Some(Transmitted)
    else if code == "201" then Some(Accepted)
    else if code == "210" then Some(Refused)
    else if code == "213" then Some(Rejected)
    else None
  }

  /** The event makes an invoice in this status move. */
  predicate Applies(status: Status, code: string) {
    CdarStatus(code).Some? && CanTransition(status, CdarStatus(code).value)
  }

  /** `_maybe_auto_mark_paid`. */
  function AutoPay(s: State, id: Id, today: int): State
    requires id < |s.invoices|
  {
    if s.invoices[id].paymentDate.None? || !CanTransition(s.invoices[id].status, Paid) then s
    else MarkPaid(s, id, NO_PAYMENT_DATA, "prepaid_auto", today).after
  }

  /** A fresh event up to and including the status change it causes. */
  function RecordEvent(s: State, id: Id, ev: Event): State
    requires id < |s.invoices|
  {
    var noted := Note(s, CdarEvent(id, ev.code, ev.at));
    if Applies(s.invoices[id].status, ev.code)
    then Move(noted, id, noted.invoices[id], CdarStatus(ev.code).value, CdarPoll(ev.code))
    else noted
  }

  /** `_process_single_cdar_event` on an event that is not a duplicate. */
  function ProcessEvent(s: State, id: Id, ev: Event, today: int): State
    requires id < |s.invoices|
  {
    if Applies(s.invoices[id].status, ev.code)
    then AutoPay(RecordEvent(s, id, ev), id, today)
    else RecordEvent(s, id, ev)
  }

  /** The keys of the CDAR_EVENT rows: what `dedup_cache` holds for all invoices together. */
  function SeenKeys(logs: seq<Log>): set<Item> {
    set l | l in logs && l.CdarEvent? :: Item(l.id, Event(l.code, l.at))
  }

  predicate InRange(items: seq<Item>, n: nat) {
    forall it | it in items :: it.id < n
  }

  /** The event loop: `seen` was read before it starts and is not updated by it. */
  function Deliver(s: State, seen: set<Item>, items: seq<Item>, today: int): (r: State)
    requires InRange(items, |s.invoices|)
    ensures |r.invoices| == |s.invoices|
  {
    if items == [] then s
    else
      var before, it := Deliver(s, seen, items[..|items| - 1], today), items[|items| - 1];
      if it in seen then before else ProcessEvent(before, it.id, it.event, today)
  }

  lemma DeliverOneMore(s: State, seen: set<Item>, items: seq<Item>, it: Item, today: int)
    requires InRange(items, |s.invoices|) && it.id < |s.invoices|
    ensures InRange(items + [it], |s.invoices|)
    ensures var before := Deliver(s, seen, items, today);
            Deliver(s, seen, items + [it], today)
            == if it in seen then before else ProcessEvent(before, it.id, it.event, today)
  {
    hide ProcessEvent;
    assert (items + [it])[..|items|] == items;
  }

  // ---------- matching reports to local invoices ----------

  /** A row the prefetch of `_process_cdar_lifecycle` returns for this number. */
  predicate Candidate(inv: Invoice, org: nat, number: string) {
    inv.org == org && inv.number == number && !inv.deleted
  }

  predicate CandidateOf(inv: Invoice, org: nat, number: string, siren: string) {
    Candidate(inv, org, number) && inv.supplier.siren == siren
  }

  /** The oldest candidate whose supplier has this SIREN. */
  function OldestWithSiren(invoices: seq<Invoice>, org: nat, number: string, siren: string): (r: Option<Id>)
    ensures r.Some? ==> r.value < |invoices| && CandidateOf(invoices[r.value], org, number, siren)
    ensures r.Some? ==> forall j | 0 <= j < r.value :: !CandidateOf(invoices[j], org, number, siren)
    ensures r.None? ==> forall j | 0 <= j < |invoices| :: !CandidateOf(invoices[j], org, number, siren)
  {
    if invoices == [] then None
    else
      var older, k := OldestWithSiren(invoices[..|invoices| - 1], org, number, siren), |invoices| - 1;
      if older.Some? then older
      else if CandidateOf(invoices[k], org, number, siren) then Some(k)
      else None
  }

  /** Seller and number match; else a supplier without SIREN; else the newest row with that number. */
  function LocalInvoice(invoices: seq<Invoice>, org: nat, seller: string, number: string): (r: Option<Id>)
    ensures r.Some? ==> r.value < |invoices|
  {
    var exact := OldestWithSiren(invoices, org, number, seller);
    var blank := OldestWithSiren(invoices, org, number, "");
    if exact.Some? then exact
    else if blank.Some? then blank
    else Newest(invoices, inv => Candidate(inv, org, number))
  }

  function Items(id: Id, events: seq<Event>): (r: seq<Item>)
    ensures |r| == |events| && forall k | 0 <= k < |r| :: r[k] == Item(id, events[k])
  {
    seq(|events|, k requires 0 <= k < |events| => Item(id, events[k]))
  }

  /** The events of one report, none when it matches no local invoice. */
  function Matched(invoices: seq<Invoice>, org: nat, rep: Report): (r: seq<Item>)
    ensures InRange(r, |invoices|)
  {
    var target := LocalInvoice(invoices, org, rep.sellerId, rep.invoiceId);
    if rep.invoiceId == "" || target.None? then [] else Items(target.value, rep.events)
  }

  /** All events of a lifecycle answer in processing order. */
  function Resolve(invoices: seq<Invoice>, org: nat, reports: seq<Report>): (r: seq<Item>)
    ensures InRange(r, |invoices|)
  {
    if reports == [] then []
    else Resolve(invoices, org, reports[..|reports| - 1]) + Matched(invoices, org, reports[|reports| - 1])
  }

  lemma ResolveOneMore(invoices: seq<Invoice>, org: nat, reports: seq<Report>, rep: Report)
    ensures Resolve(invoices, org, reports + [rep]) == Resolve(invoices, org, reports) + Matched(invoices, org, rep)
  {
    hide Matched, InRange;
    assert (reports + [rep])[..|reports|] == reports;
  }

  function ProcessLifecycle(s: State, org: nat, reports: seq<Report>, today: int): (r: State)
    ensures |r.invoices| == |s.invoices|
  {
    Deliver(s, SeenKeys(s.logs), Resolve(s.invoices, org, reports), today)
  }

  /** `invoices_with_cdar`. */
  function ReportedNumbers(reports: seq<Report>): set<string> {
    set rep | rep in reports && rep.invoiceId != "" :: rep.invoiceId
  }

  lemma ReportedOneMore(reports: seq<Report>, rep: Report)
    ensures ReportedNumbers(reports + [rep])
         == if rep.invoiceId != "" then ReportedNumbers(reports) + {rep.invoiceId} else ReportedNumbers(reports)
  {
  }

  // ---------- AFNOR flow fallback ----------

  datatype Ack = Ok | Error | Pending | Unreachable

  predicate Stuck(inv: Invoice, org: nat, number: Option<string>, reported: set<string>) {
    && inv.org == org && inv.status == Transmitting && inv.transmissionId != ""
    && (number.Some? ==> inv.number == number.value)
    && inv.number !in reported
  }

  function ApplyFlow(s: State, id: Id, ack: Ack, today: int): State
    requires id < |s.invoices|
  {
    var inv := s.invoices[id];
    match ack
    case Ok => AutoPay(Move(s, id, inv.(pdpStatus := "Ok"), Transmitted, FlowFallback), id, today)
    case Error => Move(s, id, inv.(pdpStatus := "Error"), Validated, FlowFallback)
    case Pending => s
    case Unreachable => s
  }

  function AckFor(acks: map<Id, Ack>, id: Id): Ack {
    if id in acks then acks[id] else Unreachable
  }

  /** One iteration of `_check_afnor_flow_fallback`. */
  function CheckFlow(s: State, id: Id, org: nat, number: Option<string>, reported: set<string>,
                     ack: Ack, today: int): (r: State)
    requires id < |s.invoices|
    ensures |r.invoices| == |s.invoices|
  {
    if Stuck(s.invoices[id], org, number, reported) then ApplyFlow(s, id, ack, today) else s
  }

  /** Rows `n - 1` down to 0, newest first; each row is only written by its own iteration, so the
      filter may be evaluated row by row. */
  function FlowFallbackBelow(s: State, n: nat, org: nat, number: Option<string>, reported: set<string>,
                             acks: map<Id, Ack>, today: int): (r: State)
    requires n <= |s.invoices|
    ensures |r.invoices| == |s.invoices|
    decreases n
  {
    if n == 0 then s
    else
      var s' := CheckFlow(s, n - 1, org, number, reported, AckFor(acks, n - 1), today);
      FlowFallbackBelow(s', n - 1, org, number, reported, acks, today)
  }

  /** One organization of `poll_cdar_events`; `check_invoice_lifecycle` is the same with a number. */
  function Poll(s: State, org: nat, number: Option<string>, reports: seq<Report>,
                acks: map<Id, Ack>, today: int): State
  {
    var s' := ProcessLifecycle(s, org, reports, today);
    FlowFallbackBelow(s', |s'.invoices|, org, number, ReportedNumbers(reports), acks, today)
  }

  /** The broker is down when the status change of item `k` emits its webhook: nothing after it runs. */
  predicate InterruptedAt(s: State, items: seq<Item>, k: nat, today: int)
    requires InRange(items, |s.invoices|)
  {
    && k < |items|
    && items[k] !in SeenKeys(s.logs)
    && Applies(Deliver(s, SeenKeys(s.logs), items[..k], today).invoices[items[k].id].status, items[k].event.code)
  }

  /** A poll with the broker down while event `k` is processed: if that event makes an invoice move, its
      webhook is not emitted and nothing runs after it; otherwise nothing is disturbed. */
  function PollInterrupted(s: State, org: nat, number: Option<string>, reports: seq<Report>,
                           acks: map<Id, Ack>, k: nat, today: int): State
  {
    var items := Resolve(s.invoices, org, reports);
    if !InterruptedAt(s, items, k, today) then Poll(s, org, number, reports, acks, today)
    else RecordEvent(Deliver(s, SeenKeys(s.logs), items[..k], today), items[k].id, items[k].event)
  }
}
