/** The invariant of the workflow, and the relation every step keeps to the rows before it. */
module Soundness {
  import opened Wrappers
  import opened StateMachine
  import opened Records
  import opened InvoiceService
  import opened Tasks

  /** What holds of one row. */
  predicate RowOk(inv: Invoice, id: Id) {
    && inv.total == inv.data.gross
    && (inv.deleted ==> inv.status == Draft && inv.number == "")
    && (inv.status != Draft ==> inv.number != "" && inv.data.invoiceNumber == inv.number)
    && (inv.preceding.Some? ==> inv.preceding.value < id)
  }

  ghost predicate Rows(s: State) {
    forall id | 0 <= id < |s.invoices| :: RowOk(s.invoices[id], id)
  }

  ghost predicate Unique(s: State) {
    forall i, j | 0 <= i < |s.invoices| && 0 <= j < |s.invoices| && i != j :: Compatible(s.invoices[i], s.invoices[j])
  }

  ghost predicate LogsKnown(s: State) {
    forall l | l in s.logs :: l.id < |s.invoices|
  }

  ghost predicate Histories(s: State) {
    forall id | 0 <= id < |s.invoices| :: Chained(Trail(s.logs, id), s.invoices[id].status)
  }

  /** The invariant; it constrains the invoices and the audit log only. */
  ghost predicate Sound(s: State) {
    Rows(s) && Unique(s) && LogsKnown(s) && Histories(s)
  }

  lemma {:induction false} NoTrail(logs: seq<Log>, id: Id)
    requires forall l | l in logs :: l.id != id
    ensures Trail(logs, id) == []
  {
    if logs != [] {
      NoTrail(logs[..|logs| - 1], id);
    }
  }

  lemma AddSound(s: State, inv: Invoice)
    requires Sound(s) && Admits(s.invoices, |s.invoices|, inv)
    requires inv.status == Draft && RowOk(inv, |s.invoices|)
    ensures Sound(Add(s, inv))
  {
    var s' := Add(s, inv);
    forall id | 0 <= id < |s'.invoices| ensures Chained(Trail(s'.logs, id), s'.invoices[id].status) {
      TrailNote(s.logs, Created(|s.invoices|), id);
      if id == |s.invoices| {
        NoTrail(s.logs, id);
      }
    }
  }

  lemma SaveSound(s: State, id: Id, inv: Invoice)
    requires Sound(s) && id < |s.invoices| && Admits(s.invoices, id, inv)
    requires inv.status == s.invoices[id].status && RowOk(inv, id)
    ensures Sound(Save(s, id, inv))
  {
  }

  lemma NoteSound(s: State, l: Log)
    requires Sound(s) && l.id < |s.invoices| && !l.StatusChange?
    ensures Sound(Note(s, l))
  {
    forall id | 0 <= id < |s.invoices| ensures Chained(Trail(Note(s, l).logs, id), s.invoices[id].status) {
      TrailNote(s.logs, l, id);
    }
  }

  /** The constraints do not look at the status. */
  lemma AdmitsAnyStatus(invoices: seq<Invoice>, id: Id, inv: Invoice, st: Status)
    ensures Admits(invoices, id, inv.(status := st)) == Admits(invoices, id, inv)
  {
    assert forall j | 0 <= j < |invoices| ::
        Compatible(inv.(status := st), invoices[j]) == Compatible(inv, invoices[j]);
  }

  lemma UniqueSaved(s: State, id: Id, inv: Invoice)
    requires Unique(s) && id < |s.invoices| && Admits(s.invoices, id, inv)
    ensures Unique(Save(s, id, inv))
  {
  }

  lemma MoveSound(s: State, id: Id, inv: Invoice, to: Status, why: Cause)
    requires Sound(s) && id < |s.invoices| && Admits(s.invoices, id, inv)
    requires RowOk(inv.(status := to), id)
    requires TableLink(Link(s.invoices[id].status, to)) || CrashLink(Link(s.invoices[id].status, to))
    ensures Sound(Move(s, id, inv, to, why))
  {
    hide Trail, Chained;
    AdmitsAnyStatus(s.invoices, id, inv, to);
    var s' := Move(s, id, inv, to, why);
    var l := StatusChange(id, s.invoices[id].status, to, why);
    UniqueSaved(s, id, inv.(status := to));
    forall i | 0 <= i < |s'.invoices| ensures Chained(Trail(s'.logs, i), s'.invoices[i].status) {
      TrailNote(s.logs, l, i);
      if i == id {
        ChainedExtend(Trail(s.logs, id), Link(l.from, l.to));
      }
    }
  }

  /** A row of a sound state is admitted where it is, whatever happens to its other fields. */
  lemma OwnRowAdmitted(s: State, id: Id, inv: Invoice)
    requires Sound(s) && id < |s.invoices|
    requires inv.number == s.invoices[id].number && inv.supplier == s.invoices[id].supplier
    requires inv.externalId == s.invoices[id].externalId && inv.org == s.invoices[id].org
    ensures Admits(s.invoices, id, inv)
  {
    forall j | 0 <= j < |s.invoices| && j != id ensures Compatible(inv, s.invoices[j]) {
      assert Compatible(s.invoices[id], s.invoices[j]);
    }
  }

  // ---------- steps that only follow the table from an emitted invoice ----------

  /** Everything but the status, the payment and the transmission. */
  predicate SameDocument(a: Invoice, b: Invoice) {
    b == a.(status := b.status, paymentDate := b.paymentDate, paymentReference := b.paymentReference,
            paymentAmount := b.paymentAmount, transmissionId := b.transmissionId, pdpStatus := b.pdpStatus)
  }

  /** Out of DRAFT and PROCESSING. */
  predicate Settled(st: Status) {
    st != Draft && st != Processing
  }

  /** A row keeps its document, stays settled or unsettled, is left alone while a draft, and is neither
      newly nor no longer cancelled. */
  predicate RowQuiet(a: Invoice, b: Invoice) {
    && SameDocument(a, b)
    && (Settled(a.status) <==> Settled(b.status))
    && (a.status == Cancelled <==> b.status == Cancelled)
    && (a.status == Draft ==> b == a)
    && (b.status == Draft ==> a.status == Draft)
    && (Final(a.status) ==> b.status == a.status)
  }

  /** A status change in the table, or another kind of row. */
  predicate InTable(l: Log) {
    l.StatusChange? ==> CanTransition(l.from, l.to)
  }

  /** The log is append-only; the rows added are in the table. */
  ghost predicate Appended(logs: seq<Log>, logs': seq<Log>) {
    logs <= logs' && forall k | |logs| <= k < |logs'| :: InTable(logs'[k])
  }

  ghost predicate Quiet(s: State, s': State) {
    && |s'.invoices| == |s.invoices|
    && s'.counters == s.counters
    && s'.events == s.events
    && Appended(s.logs, s'.logs)
    && forall id | 0 <= id < |s.invoices| :: RowQuiet(s.invoices[id], s'.invoices[id])
  }

  lemma QuietRefl(s: State)
    ensures Quiet(s, s)
  {
  }

  lemma QuietTrans(s: State, s': State, s'': State)
    requires Quiet(s, s') && Quiet(s', s'')
    ensures Quiet(s, s'')
  {
    forall id | 0 <= id < |s.invoices| ensures RowQuiet(s.invoices[id], s''.invoices[id]) {
      assert RowQuiet(s.invoices[id], s'.invoices[id]) && RowQuiet(s'.invoices[id], s''.invoices[id]);
    }
  }

  /** A table move of a settled invoice to anything but CANCELLED that keeps the document. */
  lemma QuietMove(s: State, id: Id, inv: Invoice, to: Status, why: Cause)
    requires Sound(s) && id < |s.invoices| && SameDocument(s.invoices[id], inv)
    requires Settled(s.invoices[id].status) && CanTransition(s.invoices[id].status, to) && to != Cancelled
    ensures Quiet(s, Move(s, id, inv, to, why)) && Sound(Move(s, id, inv, to, why))
  {
    OwnRowAdmitted(s, id, inv);
    assert RowOk(s.invoices[id], id);
    MoveSound(s, id, inv, to, why);
  }

  lemma PaidQuiet(s: State, id: Id, p: PaymentData, source: string, today: int)
    requires Sound(s) && id < |s.invoices|
    ensures Quiet(s, MarkPaid(s, id, p, source, today).after) && Sound(MarkPaid(s, id, p, source, today).after)
  {
    var inv := s.invoices[id];
    if TransitionAccepted(inv.status, Paid) {
      assert RowOk(inv, id);
      var inv' := WithPayment(inv, p, today);
      QuietMove(s, id, inv', Paid, Payment(source, inv'.paymentDate, inv'.paymentReference, inv'.paymentAmount));
    }
  }

  lemma RecordQuiet(s: State, id: Id, ev: Event)
    requires Sound(s) && id < |s.invoices|
    ensures Quiet(s, RecordEvent(s, id, ev)) && Sound(RecordEvent(s, id, ev))
  {
    var noted := Note(s, CdarEvent(id, ev.code, ev.at));
    NoteSound(s, CdarEvent(id, ev.code, ev.at));
    if Applies(s.invoices[id].status, ev.code) {
      QuietMove(noted, id, noted.invoices[id], CdarStatus(ev.code).value, CdarPoll(ev.code));
      QuietTrans(s, noted, RecordEvent(s, id, ev));
    }
  }

  lemma AutoPayQuiet(s: State, id: Id, today: int)
    requires Sound(s) && id < |s.invoices|
    ensures Quiet(s, AutoPay(s, id, today)) && Sound(AutoPay(s, id, today))
  {
    PaidQuiet(s, id, NO_PAYMENT_DATA, "prepaid_auto", today);
  }

  lemma ProcessQuiet(s: State, id: Id, ev: Event, today: int)
    requires Sound(s) && id < |s.invoices|
    ensures Quiet(s, ProcessEvent(s, id, ev, today)) && Sound(ProcessEvent(s, id, ev, today))
  {
    RecordQuiet(s, id, ev);
    var r := RecordEvent(s, id, ev);
    AutoPayQuiet(r, id, today);
    QuietTrans(s, r, AutoPay(r, id, today));
  }

  lemma {:induction false} DeliverQuiet(s: State, seen: set<Item>, items: seq<Item>, today: int)
    requires Sound(s) && InRange(items, |s.invoices|)
    ensures Quiet(s, Deliver(s, seen, items, today)) && Sound(Deliver(s, seen, items, today))
  {
    if items != [] {
      var before, it := Deliver(s, seen, items[..|items| - 1], today), items[|items| - 1];
      DeliverQuiet(s, seen, items[..|items| - 1], today);
      assert it in items;
      ProcessQuiet(before, it.id, it.event, today);
      if it !in seen {
        QuietTrans(s, before, ProcessEvent(before, it.id, it.event, today));
      }
    }
  }

  lemma ApplyFlowQuiet(s: State, id: Id, ack: Ack, today: int)
    requires Sound(s) && id < |s.invoices| && s.invoices[id].status == Transmitting
    ensures Quiet(s, ApplyFlow(s, id, ack, today)) && Sound(ApplyFlow(s, id, ack, today))
  {
    var inv := s.invoices[id];
    if ack == Ok {
      QuietMove(s, id, inv.(pdpStatus := "Ok"), Transmitted, FlowFallback);
      var moved := Move(s, id, inv.(pdpStatus := "Ok"), Transmitted, FlowFallback);
      AutoPayQuiet(moved, id, today);
      QuietTrans(s, moved, AutoPay(moved, id, today));
    } else if ack == Error {
      QuietMove(s, id, inv.(pdpStatus := "Error"), Validated, FlowFallback);
    }
  }

  lemma CheckFlowQuiet(s: State, id: Id, org: nat, number: Option<string>, reported: set<string>, ack: Ack, today: int)
    requires Sound(s) && id < |s.invoices|
    ensures Quiet(s, CheckFlow(s, id, org, number, reported, ack, today))
    ensures Sound(CheckFlow(s, id, org, number, reported, ack, today))
  {
    if Stuck(s.invoices[id], org, number, reported) {
      ApplyFlowQuiet(s, id, ack, today);
    }
  }

  lemma {:induction false} FallbackQuiet(s: State, n: nat, org: nat, number: Option<string>, reported: set<string>,
                                         acks: map<Id, Ack>, today: int)
    requires Sound(s) && n <= |s.invoices|
    ensures Quiet(s, FlowFallbackBelow(s, n, org, number, reported, acks, today))
    ensures Sound(FlowFallbackBelow(s, n, org, number, reported, acks, today))
    decreases n
  {
    hide CheckFlow, Sound, Quiet;
    if n == 0 {
      QuietRefl(s);
    } else {
      var s' := CheckFlow(s, n - 1, org, number, reported, AckFor(acks, n - 1), today);
      CheckFlowQuiet(s, n - 1, org, number, reported, AckFor(acks, n - 1), today);
      FallbackQuiet(s', n - 1, org, number, reported, acks, today);
      QuietTrans(s, s', FlowFallbackBelow(s', n - 1, org, number, reported, acks, today));
    }
  }

  lemma PollQuiet(s: State, org: nat, number: Option<string>, reports: seq<Report>, acks: map<Id, Ack>, today: int)
    requires Sound(s)
    ensures Quiet(s, Poll(s, org, number, reports, acks, today)) && Sound(Poll(s, org, number, reports, acks, today))
  {
    DeliverQuiet(s, SeenKeys(s.logs), Resolve(s.invoices, org, reports), today);
    var s' := ProcessLifecycle(s, org, reports, today);
    FallbackQuiet(s', |s'.invoices|, org, number, ReportedNumbers(reports), acks, today);
    QuietTrans(s, s', Poll(s, org, number, reports, acks, today));
  }

  lemma PollInterruptedQuiet(s: State, org: nat, number: Option<string>, reports: seq<Report>,
                             acks: map<Id, Ack>, k: nat, today: int)
    requires Sound(s)
    ensures var s' := PollInterrupted(s, org, number, reports, acks, k, today); Quiet(s, s') && Sound(s')
  {
    var items := Resolve(s.invoices, org, reports);
    if InterruptedAt(s, items, k, today) {
      DeliverQuiet(s, SeenKeys(s.logs), items[..k], today);
      var before := Deliver(s, SeenKeys(s.logs), items[..k], today);
      RecordQuiet(before, items[k].id, items[k].event);
      QuietTrans(s, before, RecordEvent(before, items[k].id, items[k].event));
    } else {
      PollQuiet(s, org, number, reports, acks, today);
    }
  }
}
