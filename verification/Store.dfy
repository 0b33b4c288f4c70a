/** The services and tasks as they run, each proved to have the effect the specifications state. */
module Store {
  import opened Wrappers
  import opened StateMachine
  import opened Records
  import opened InvoiceService
  import opened Tasks
  import opened Payments
  import opened Runs
  import opened Soundness
  import Polling
  import Numbers

  // ---------- the dictionary of `_process_cdar_lifecycle` ----------

  type Dictionary = map<(string, string), Id>

  /** `local_invoices.get((seller, number)) or local_invoices.get(("", number))`. */
  function LookUp(local: Dictionary, seller: string, number: string): Option<Id> {
    if (seller, number) in local then Some(local[(seller, number)])
    else if ("", number) in local then Some(local[("", number)])
    else None
  }

  /** One row of the prefetch: the exact key is overwritten, the blank one only set once. */
  function WithRow(local: Dictionary, inv: Invoice, id: Id, org: nat, numbers: set<string>): Dictionary {
    if inv.org == org && inv.number in numbers && !inv.deleted then
      var local' := local[(inv.supplier.siren, inv.number) := id];
      if ("", inv.number) in local' then local' else local'[("", inv.number) := id]
    else local
  }

  predicate NoneWithSiren(invoices: seq<Invoice>, lo: nat, org: nat, number: string, siren: string) {
    forall j | lo <= j < |invoices| :: !CandidateOf(invoices[j], org, number, siren)
  }

  predicate NoneWithNumber(invoices: seq<Invoice>, lo: nat, org: nat, number: string) {
    forall j | lo <= j < |invoices| :: !Candidate(invoices[j], org, number)
  }

  /** What entry `(siren, number)` means once the rows from `lo` on went in, newest first. */
  predicate Placed(invoices: seq<Invoice>, lo: nat, org: nat, siren: string, number: string, id: Id) {
    && lo <= id < |invoices|
    && Candidate(invoices[id], org, number)
    && (if invoices[id].supplier.siren == siren
        then forall j | lo <= j < id :: !CandidateOf(invoices[j], org, number, siren)
        else
          && siren == ""
          && NoneWithSiren(invoices, lo, org, number, "")
          && NoneWithNumber(invoices, id + 1, org, number))
  }

  ghost predicate Filled(invoices: seq<Invoice>, lo: nat, org: nat, numbers: set<string>, local: Dictionary) {
    && (forall siren, number | (siren, number) in local ::
          number in numbers && Placed(invoices, lo, org, siren, number, local[(siren, number)]))
    && (forall siren, number | number in numbers && (siren, number) !in local ::
          NoneWithSiren(invoices, lo, org, number, siren))
    && (forall number | number in numbers && ("", number) !in local :: NoneWithNumber(invoices, lo, org, number))
  }

  lemma FilledStep(invoices: seq<Invoice>, i: nat, org: nat, numbers: set<string>, local: Dictionary)
    requires i < |invoices| && Filled(invoices, i + 1, org, numbers, local)
    ensures Filled(invoices, i, org, numbers, WithRow(local, invoices[i], i, org, numbers))
  {
    var inv, local' := invoices[i], WithRow(local, invoices[i], i, org, numbers);
    forall siren, number | (siren, number) in local'
      ensures number in numbers && Placed(invoices, i, org, siren, number, local'[(siren, number)])
    {
      if (siren, number) in local {
        assert Placed(invoices, i + 1, org, siren, number, local[(siren, number)]);
      } else {
        assert NoneWithSiren(invoices, i + 1, org, number, siren);
        assert siren == "" ==> NoneWithNumber(invoices, i + 1, org, number);
      }
    }
    forall siren, number | number in numbers && (siren, number) !in local'
      ensures NoneWithSiren(invoices, i, org, number, siren)
    {
      assert NoneWithSiren(invoices, i + 1, org, number, siren);
    }
    forall number | number in numbers && ("", number) !in local' ensures NoneWithNumber(invoices, i, org, number) {
      assert NoneWithNumber(invoices, i + 1, org, number);
    }
  }

  /** The complete dictionary answers as the matching rule says. */
  lemma FilledLookUp(invoices: seq<Invoice>, org: nat, numbers: set<string>, local: Dictionary,
                     seller: string, number: string)
    requires Filled(invoices, 0, org, numbers, local) && number in numbers
    ensures LookUp(local, seller, number) == LocalInvoice(invoices, org, seller, number)
  {
    var exact, blank := OldestWithSiren(invoices, org, number, seller), OldestWithSiren(invoices, org, number, "");
    var newest := Newest(invoices, inv => Candidate(inv, org, number));
    if (seller, number) in local {
      assert Placed(invoices, 0, org, seller, number, local[(seller, number)]);
    } else {
      assert NoneWithSiren(invoices, 0, org, number, seller);
      if ("", number) in local {
        assert Placed(invoices, 0, org, "", number, local[("", number)]);
      } else {
        assert NoneWithNumber(invoices, 0, org, number);
        assert NoneWithSiren(invoices, 0, org, number, "");
      }
    }
  }

  /** The state in which event `k` leaves the poll when its webhook cannot be emitted. */
  function Broken(s: State, items: seq<Item>, k: nat, today: int): State
    requires k < |items| && InRange(items, |s.invoices|)
  {
    RecordEvent(Deliver(s, SeenKeys(s.logs), items[..k], today), items[k].id, items[k].event)
  }

  /** None of the events fails for want of a broker. */
  predicate Undisturbed(s: State, items: seq<Item>, down: Option<nat>, today: int)
    requires InRange(items, |s.invoices|)
  {
    !(down.Some? && InterruptedAt(s, items, down.value, today))
  }

  lemma DisturbedNext(s: State, all: seq<Item>, p: nat, down: Option<nat>, today: int)
    requires p < |all| && InRange(all, |s.invoices|) && InRange(all[..p], |s.invoices|)
    requires Undisturbed(s, all[..p], down, today)
    ensures InRange(all[..p + 1], |s.invoices|)
    ensures var before := Deliver(s, SeenKeys(s.logs), all[..p], today);
            var fails := down == Some(p) && all[p] !in SeenKeys(s.logs)
                         && Applies(before.invoices[all[p].id].status, all[p].event.code);
            && Undisturbed(s, all[..p + 1], down, today) == !fails
            && (fails ==> !Undisturbed(s, all, down, today))
  {
    hide Deliver, Applies, SeenKeys;
    if down.Some? && down.value < p {
      assert all[..p][..down.value] == all[..p + 1][..down.value];
    } else if down == Some(p) {
      assert all[..p + 1][..p] == all[..p];
    }
  }

  lemma BrokenInFull(s: State, org: nat, reports: seq<Report>, i: nat, k: nat, today: int)
    requires i <= |reports| && InterruptedAt(s, Resolve(s.invoices, org, reports[..i]), k, today)
    ensures InterruptedAt(s, Resolve(s.invoices, org, reports), k, today)
    ensures Broken(s, Resolve(s.invoices, org, reports), k, today)
         == Broken(s, Resolve(s.invoices, org, reports[..i]), k, today)
  {
    hide Deliver, Applies, SeenKeys, RecordEvent, Resolve;
    assert reports == reports[..i] + reports[i..];
    Polling.ResolveConcat(s.invoices, org, reports[..i], reports[i..]);
    var part, all := Resolve(s.invoices, org, reports[..i]), Resolve(s.invoices, org, reports);
    assert all[..k] == part[..k] && all[k] == part[k];
  }

  lemma OneMoreReport(rows: seq<Invoice>, org: nat, reports: seq<Report>, i: nat)
    requires i < |reports|
    ensures var before, all := Resolve(rows, org, reports[..i]), Resolve(rows, org, reports[..i + 1]);
            var target := LocalInvoice(rows, org, reports[i].sellerId, reports[i].invoiceId);
            && |before| <= |all| && all[..|before|] == before
            && (if reports[i].invoiceId == "" || target.None? then all == before
                else all[|before|..] == Items(target.value, reports[i].events)
                     && |all| == |before| + |reports[i].events|)
    ensures ReportedNumbers(reports[..i + 1])
         == ReportedNumbers(reports[..i]) + if reports[i].invoiceId != "" then {reports[i].invoiceId} else {}
  {
    hide Resolve, ReportedNumbers;
    assert reports[..i + 1] == reports[..i] + [reports[i]];
    ResolveOneMore(rows, org, reports[..i], reports[i]);
    ReportedOneMore(reports[..i], reports[i]);
  }

  lemma EndOfReport(all: seq<Item>, k: nat, id: Id, events: seq<Event>)
    requires k <= |all| && all[k..] == Items(id, events)
    ensures |all| == k + |events| && all[..k + |events|] == all
  {
  }

  lemma NextOfReport(all: seq<Item>, k: nat, id: Id, events: seq<Event>, j: nat)
    requires k <= |all| && all[k..] == Items(id, events) && j < |events|
    ensures k + j < |all| && all[k + j] == Item(id, events[j])
  {
    assert all[k + j] == all[k..][j];
  }

  class BillingStore {
    var invoices: seq<Invoice>
    var logs: seq<Log>
    var counters: map<Series, nat>
    var events: set<string>
    var txns: seq<Txn>

    ghost function View(): State
      reads this
    {
      State(invoices, logs, counters, events, txns)
    }

    constructor ()
      ensures View() == EMPTY
    {
      invoices, logs, counters, events, txns := [], [], map[], {}, [];
    }

    method WriteLog(l: Log)
      modifies this
      ensures View() == Note(old(View()), l)
    {
      logs := logs + [l];
    }

    // ---------- invoice_service ----------

    method Create(p: Payload) returns (out: Outcome)
      modifies this
      ensures Effect(View(), out) == CreateInvoice(old(View()), p)
    {
      var inv := Invoice(p.org, p.supplier, "", Draft, None, p.data, p.externalId, None, false, 1,
                         None, "", None, "", "");
      if p.number != "" {
        inv := inv.(number := p.number, data := inv.data.(invoiceNumber := p.number));
      }
      inv := Sync(inv);
      if !Admits(invoices, |invoices|, inv) {
        return IntegrityError;
      }
      invoices := invoices + [inv];
      WriteLog(Created(|invoices| - 1));
      return Done;
    }

    method Update(id: Id, p: Patch) returns (out: Outcome)
      requires id < |invoices|
      modifies this
      ensures Effect(View(), out) == UpdateInvoice(old(View()), id, p)
    {
      var inv := invoices[id];
      if inv.status != Draft || p.version != Some(inv.version) {
        return ConflictError;
      }
      if p.supplier.Some? {
        inv := inv.(supplier := p.supplier.value);
      }
      if p.data.Some? {
        inv := inv.(data := p.data.value);
      }
      if p.externalId.Some? {
        inv := inv.(externalId := p.externalId.value);
      }
      inv := Sync(inv.(version := inv.version + 1));
      if !Admits(invoices, id, inv) {
        return IntegrityError;
      }
      invoices := invoices[id := inv];
      WriteLog(DataUpdate(id));
      return Done;
    }

    method Replace(id: Id, supplier: Supplier, data: Snapshot) returns (out: Outcome)
      requires id < |invoices|
      modifies this
      ensures Effect(View(), out) == ReplaceDraftData(old(View()), id, supplier, data)
    {
      var inv := invoices[id];
      if inv.status != Draft {
        return ConflictError;
      }
      inv := inv.(data := data, supplier := supplier);
      if inv.number != "" {
        inv := inv.(data := inv.data.(invoiceNumber := inv.number));
      }
      inv := Sync(inv.(version := inv.version + 1));
      if !Admits(invoices, id, inv) {
        return IntegrityError;
      }
      invoices := invoices[id := inv];
      WriteLog(DataUpdate(id));
      return Done;
    }

    method Remove(id: Id) returns (out: Outcome)
      requires id < |invoices|
      modifies this
      ensures Effect(View(), out) == SoftDelete(old(View()), id)
    {
      var inv := invoices[id];
      if !(inv.status == Draft && inv.number == "") {
        return ConflictError;
      }
      invoices := invoices[id := inv.(deleted := true)];
      WriteLog(Delete(id));
      return Done;
    }

    /** `numbering_service.assign_number`, the prefix already rendered. */
    method AssignNumber(inv: Invoice, prefix: string, padding: nat) returns (number: string)
      modifies this`counters
      ensures var key := Series(inv.supplier.id, prefix);
              var n := LastNumber(old(counters), key) + 1;
              counters == old(counters)[key := n] && number == Numbers.Print(prefix, n, padding)
    {
      var key := Series(inv.supplier.id, prefix);
      if key !in counters {
        counters := counters[key := 0];
      }
      counters := counters[key := counters[key] + 1];
      number := prefix + Numbers.Zfill(Numbers.Text(counters[key]), padding);
    }

    method Validate(id: Id, partiesOk: bool, prefix: string, padding: nat) returns (out: Outcome)
      requires id < |invoices|
      modifies this
      ensures Effect(View(), out) == ValidateInvoice(old(View()), id, partiesOk, prefix, padding)
    {
      hide Admits, Numbered;
      var inv := invoices[id];
      if !TransitionAccepted(inv.status, Processing) {
        return ConflictError;
      }
      if !partiesOk {
        return ValueError;
      }
      var savepoint := counters;
      var number := inv.number;
      if number == "" {
        number := AssignNumber(inv, prefix, padding);
      }
      var oldStatus := inv.status;
      inv := WriteNumber(inv, number);
      AdmitsAnyStatus(invoices, id, Numbered(invoices[id], number), Processing);
      if !Admits(invoices, id, inv) {
        counters := savepoint;
        return IntegrityError;
      }
      invoices := invoices[id := inv];
      WriteLog(StatusChange(id, oldStatus, Processing, ByUser));
      return Done;
    }

    /** The row as `validate_invoice` saves it: number, payment recorded beforehand, status. */
    method WriteNumber(draft: Invoice, number: string) returns (inv: Invoice)
      ensures inv == Numbered(draft, number).(status := Processing)
    {
      inv := draft.(number := number);
      inv := inv.(data := inv.data.(invoiceNumber := inv.number));
      if Truthy(inv.paymentAmount) {
        var gross := inv.data.gross.GetOr(0);
        inv := inv.(data := inv.data.(prepayment := inv.paymentAmount,
                                      amountDue := Some(gross - inv.paymentAmount.value)));
      }
      inv := Sync(inv.(status := Processing));
    }

    method Transmit(id: Id) returns (out: Outcome)
      requires id < |invoices|
      modifies this
      ensures Effect(View(), out) == TransmitInvoice(old(View()), id)
    {
      var inv := invoices[id];
      if !TransitionAccepted(inv.status, Transmitting) {
        return ConflictError;
      }
      invoices := invoices[id := inv.(status := Transmitting)];
      WriteLog(StatusChange(id, inv.status, Transmitting, ByUser));
      return Done;
    }

    method Pay(id: Id, p: PaymentData, source: string, today: int) returns (out: Outcome)
      requires id < |invoices|
      modifies this
      ensures Effect(View(), out) == MarkPaid(old(View()), id, p, source, today)
    {
      var inv := invoices[id];
      if !TransitionAccepted(inv.status, Paid) {
        return ConflictError;
      }
      var oldStatus := inv.status;
      inv := inv.(status := Paid);
      if p.date.Some? {
        inv := inv.(paymentDate := p.date);
      } else if inv.paymentDate.None? {
        inv := inv.(paymentDate := Some(today));
      }
      if p.reference.Some? {
        inv := inv.(paymentReference := p.reference.value);
      }
      if Truthy(p.amount) {
        inv := inv.(paymentAmount := p.amount);
      } else if !Truthy(inv.paymentAmount) {
        inv := inv.(paymentAmount := inv.total);
      }
      inv := Sync(inv);
      invoices := invoices[id := inv];
      var why := Payment(source, inv.paymentDate, inv.paymentReference, inv.paymentAmount);
      WriteLog(StatusChange(id, oldStatus, Paid, why));
      return Done;
    }

    method Cancel(id: Id) returns (out: Outcome)
      requires id < |invoices|
      modifies this
      ensures Effect(View(), out) == CancelInvoice(old(View()), id)
    {
      var inv := invoices[id];
      if inv.status !in {Validated, Transmitted, Accepted, Paid} {
        return ConflictError;
      }
      var data := inv.data.(typeCode := CREDIT_NOTE_TYPE_CODE);
      if inv.number != "" {
        data := data.(precedingReference := inv.number);
      }
      var note := Invoice(inv.org, inv.supplier, "", Draft, None, data, None, Some(id), false, 1,
                          None, "", None, "", "");
      invoices := invoices + [Sync(note)];
      WriteLog(Created(|invoices| - 1));
      return Done;
    }

    method AutoCancel(creditNote: Id)
      requires creditNote < |invoices|
      modifies this
      ensures View() == CheckAutoCancel(old(View()), creditNote)
    {
      var note := invoices[creditNote];
      if note.preceding.None? || note.preceding.value >= |invoices| {
        return;
      }
      var id := note.preceding.value;
      var original := invoices[id];
      if original.status !in {Validated, Paid} {
        return;
      }
      if note.total.Some? && original.total.Some? && note.total == original.total {
        invoices := invoices[id := original.(status := Cancelled)];
        WriteLog(StatusChange(id, original.status, Cancelled, CreditNoteValidated(creditNote)));
      }
    }

    // ---------- tasks ----------

    method HandleError(id: Id, kind: string)
      requires id < |invoices|
      modifies this
      ensures View() == HandleFactpulseError(old(View()), id, kind)
    {
      var inv := invoices[id];
      var oldStatus := inv.status;
      inv := Sync(inv.(status := Draft));
      invoices := invoices[id := inv];
      WriteLog(StatusChange(id, oldStatus, Draft, Failure(kind)));
    }

    method Generate(id: Id, g: Generation) returns (out: Outcome)
      requires id < |invoices|
      modifies this
      ensures Effect(View(), out) == GenerateAndValidate(old(View()), id, g)
    {
      var inv := invoices[id];
      if inv.status != Processing {
        return Skipped;
      }
      if g.GenerateFailed? {
        HandleError(id, g.kind);
        return Done;
      }
      inv := Sync(inv.(status := Validated));
      invoices := invoices[id := inv];
      WriteLog(StatusChange(id, Processing, Validated, CeleryTask));
      AutoCancel(id);
      if g.Interrupted? {
        HandleError(id, "timeout");
      }
      return Done;
    }

    method Submit(id: Id, flow: Option<string>) returns (out: Outcome)
      requires id < |invoices|
      modifies this
      ensures Effect(View(), out) == SubmitFlow(old(View()), id, flow)
    {
      var inv := invoices[id];
      if inv.status != Transmitting {
        return Skipped;
      }
      if flow.Some? {
        invoices := invoices[id := inv.(transmissionId := flow.value, pdpStatus := "submitted")];
        WriteLog(FlowSubmitted(id, flow.value));
      } else {
        invoices := invoices[id := inv.(status := Validated)];
        WriteLog(StatusChange(id, Transmitting, Validated, Failure("transmission_failed")));
      }
      return Done;
    }

    method MaybeAutoMarkPaid(id: Id, today: int)
      requires id < |invoices|
      modifies this
      ensures View() == AutoPay(old(View()), id, today)
    {
      var inv := invoices[id];
      if inv.paymentDate.None? || !CanTransition(inv.status, Paid) {
        return;
      }
      var _ := Pay(id, NO_PAYMENT_DATA, "prepaid_auto", today);
    }

    /** `down`: the webhook of a status change cannot be emitted. */
    method ProcessSingleEvent(id: Id, ev: Event, existing: set<Event>, today: int, down: bool) returns (raised: bool)
      requires id < |invoices|
      modifies this
      ensures raised == (down && ev !in existing && Applies(old(invoices)[id].status, ev.code))
      ensures View() == if ev in existing then old(View())
                        else if raised then RecordEvent(old(View()), id, ev)
                        else ProcessEvent(old(View()), id, ev, today)
    {
      if ev in existing {
        return false;
      }
      WriteLog(CdarEvent(id, ev.code, ev.at));
      var inv, target := invoices[id], CdarStatus(ev.code);
      if target.Some? && CanTransition(inv.status, target.value) {
        invoices := invoices[id := inv.(status := target.value)];
        WriteLog(StatusChange(id, inv.status, target.value, CdarPoll(ev.code)));
        if down {
          return true;
        }
        MaybeAutoMarkPaid(id, today);
      }
      return false;
    }

    /** The dictionary `local_invoices`. */
    method Prefetch(org: nat, numbers: set<string>) returns (local: Dictionary)
      ensures forall seller, number | number in numbers ::
                LookUp(local, seller, number) == LocalInvoice(invoices, org, seller, number)
      ensures forall seller, number | number in numbers && LookUp(local, seller, number).Some? ::
                LookUp(local, seller, number).value in local.Values
    {
      local := map[];
      var i := |invoices|;
      while i > 0
        invariant 0 <= i <= |invoices|
        invariant Filled(invoices, i, org, numbers, local)
      {
        i := i - 1;
        var inv := invoices[i];
        FilledStep(invoices, i, org, numbers, local);
        if inv.org == org && inv.number in numbers && !inv.deleted {
          local := local[(inv.supplier.siren, inv.number) := i];
          if ("", inv.number) !in local {
            local := local[("", inv.number) := i];
          }
        }
      }
      forall seller, number | number in numbers
        ensures LookUp(local, seller, number) == LocalInvoice(invoices, org, seller, number)
      {
        FilledLookUp(invoices, org, numbers, local, seller, number);
      }
    }

    /** `dedup_cache`, read before any event of the answer is processed. */
    method PrefetchKeys(ids: set<Id>) returns (cache: map<Id, set<Event>>)
      ensures forall id, ev | id in ids :: (id in cache && ev in cache[id]) <==> Item(id, ev) in SeenKeys(logs)
    {
      cache := map[];
      for i := 0 to |logs|
        invariant forall id, ev | id in ids :: (id in cache && ev in cache[id]) <==> Item(id, ev) in SeenKeys(logs[..i])
      {
        var l := logs[i];
        assert logs[..i + 1] == logs[..i] + [l];
        if l.CdarEvent? && l.id in ids {
          var keys := if l.id in cache then cache[l.id] else {};
          cache := cache[l.id := keys + {Event(l.code, l.at)}];
        }
      }
      assert logs[..|logs|] == logs;
    }

    /** The broker is down while event `down` of the answer is processed. */
    method ProcessAnswer(org: nat, reports: seq<Report>, today: int, down: Option<nat>)
      returns (reported: set<string>, raised: bool)
      modifies this
      ensures var s, items := old(View()), Resolve(old(invoices), org, reports);
              && raised == (down.Some? && InterruptedAt(s, items, down.value, today))
              && View() == if raised then Broken(s, items, down.value, today)
                           else ProcessLifecycle(s, org, reports, today)
      ensures !raised ==> reported == ReportedNumbers(reports)
    {
      ghost var s := View();
      ghost var seen := SeenKeys(logs);
      ghost var rows := invoices;
      var numbers := set rep | rep in reports && rep.invoiceId != "" :: rep.invoiceId;
      var local := Prefetch(org, numbers);
      var cache := PrefetchKeys(local.Values);
      var position := 0;
      reported := {};
      for i := 0 to |reports|
        invariant reported == ReportedNumbers(reports[..i])
        invariant position == |Resolve(rows, org, reports[..i])|
        invariant View() == Deliver(s, seen, Resolve(rows, org, reports[..i]), today)
        invariant Undisturbed(s, Resolve(rows, org, reports[..i]), down, today)
      {
        var rep := reports[i];
        hide Deliver, InRange, SeenKeys, Resolve, ReportedNumbers, InterruptedAt, Broken, Undisturbed, Items;
        OneMoreReport(rows, org, reports, i);
        if rep.invoiceId != "" {
          reported := reported + {rep.invoiceId};
          assert rep.invoiceId in numbers;
          var target := LookUp(local, rep.sellerId, rep.invoiceId);
          if target.Some? {
            var existing := if target.value in cache then cache[target.value] else {};
            raised := ProcessReport(s, seen, Resolve(rows, org, reports[..i + 1]), position, target.value, rep.events,
                                    existing, today, down);
            if raised {
              BrokenInFull(s, org, reports, i + 1, down.value, today);
              return;
            }
            position := position + |rep.events|;
          }
        }
      }
      assert reports[..|reports|] == reports;
      return reported, false;
    }

    /** The events of one report: those of `all` from `position` on. */
    method ProcessReport(ghost s: State, ghost seen: set<Item>, ghost all: seq<Item>, position: nat, id: Id,
                         events: seq<Event>, existing: set<Event>, today: int, down: Option<nat>)
      returns (raised: bool)
      requires position <= |all| && all[position..] == Items(id, events) && seen == SeenKeys(s.logs)
      requires InRange(all, |s.invoices|) && InRange(all[..position], |s.invoices|)
      requires id < |s.invoices| && View() == Deliver(s, seen, all[..position], today)
      requires forall ev :: ev in existing <==> Item(id, ev) in seen
      requires Undisturbed(s, all[..position], down, today)
      modifies this
      ensures raised == !Undisturbed(s, all, down, today)
      ensures View() == if raised then Broken(s, all, down.value, today) else Deliver(s, seen, all, today)
    {
      hide *;
      EndOfReport(all, position, id, events);
      for j := 0 to |events|
        invariant InRange(all[..position + j], |s.invoices|)
        invariant View() == Deliver(s, seen, all[..position + j], today)
        invariant Undisturbed(s, all[..position + j], down, today)
      {
        NextOfReport(all, position, id, events, j);
        raised := ProcessNext(s, seen, all, position + j, id, events[j], existing, today, down);
        if raised {
          return;
        }
      }
      return false;
    }

    /** Event `p` of the answer. */
    method ProcessNext(ghost s: State, ghost seen: set<Item>, ghost all: seq<Item>, p: nat, id: Id, ev: Event,
                       existing: set<Event>, today: int, down: Option<nat>)
      returns (raised: bool)
      requires p < |all| && all[p] == Item(id, ev) && id < |s.invoices| && seen == SeenKeys(s.logs)
      requires InRange(all, |s.invoices|) && InRange(all[..p], |s.invoices|)
      requires View() == Deliver(s, seen, all[..p], today) && Undisturbed(s, all[..p], down, today)
      requires ev in existing <==> all[p] in seen
      modifies this
      ensures InRange(all[..p + 1], |s.invoices|)
      ensures raised ==> down == Some(p) && !Undisturbed(s, all, down, today) && View() == Broken(s, all, p, today)
      ensures !raised ==> View() == Deliver(s, seen, all[..p + 1], today) && Undisturbed(s, all[..p + 1], down, today)
    {
      hide Deliver, ProcessEvent, InRange, SeenKeys, RecordEvent, Applies, Undisturbed;
      DeliverOneMore(s, seen, all[..p], all[p], today);
      assert all[..p + 1] == all[..p] + [all[p]];
      DisturbedNext(s, all, p, down, today);
      raised := ProcessSingleEvent(id, ev, existing, today, down == Some(p));
    }

    method CheckFlows(org: nat, number: Option<string>, reported: set<string>, acks: map<Id, Ack>, today: int)
      modifies this
      ensures View() == FlowFallbackBelow(old(View()), |old(invoices)|, org, number, reported, acks, today)
    {
      var i := |invoices|;
      while i > 0
        invariant 0 <= i <= |invoices|
        invariant FlowFallbackBelow(View(), i, org, number, reported, acks, today)
               == FlowFallbackBelow(old(View()), |old(invoices)|, org, number, reported, acks, today)
      {
        i := i - 1;
        OneFlow(i, org, number, reported, AckFor(acks, i), today);
      }
    }

    method OneFlow(id: Id, org: nat, number: Option<string>, reported: set<string>, ack: Ack, today: int)
      requires id < |invoices|
      modifies this
      ensures View() == CheckFlow(old(View()), id, org, number, reported, ack, today)
    {
      var inv := invoices[id];
      if !Stuck(inv, org, number, reported) {
        return;
      }
      if ack == Ok {
        invoices := invoices[id := inv.(status := Transmitted, pdpStatus := "Ok")];
        WriteLog(StatusChange(id, inv.status, Transmitted, FlowFallback));
        MaybeAutoMarkPaid(id, today);
      } else if ack == Error {
        invoices := invoices[id := inv.(status := Validated, pdpStatus := "Error")];
        WriteLog(StatusChange(id, inv.status, Validated, FlowFallback));
      }
    }

    method PollCdarEvents(org: nat, number: Option<string>, reports: seq<Report>, acks: map<Id, Ack>, today: int,
                          down: Option<nat>)
      modifies this
      ensures View() == if down.None? then Poll(old(View()), org, number, reports, acks, today)
                        else PollInterrupted(old(View()), org, number, reports, acks, down.value, today)
    {
      var reported, raised := ProcessAnswer(org, reports, today, down);
      if !raised {
        CheckFlows(org, number, reported, acks, today);
      }
    }

    // ---------- payments ----------

    method PaymentReceived(provider: string, stripeId: string, cents: int, today: int)
      modifies this
      ensures View() == InvoicePaid(old(View()), provider, stripeId, cents, today)
    {
      var found := Newest(invoices, inv => Linked(inv, stripeId));
      if stripeId == "" || found.None? {
        return;
      }
      var id, inv := found.value, invoices[found.value];
      var reference := provider + ":" + stripeId;
      if inv.status == Paid {
        return;
      }
      if inv.status in {Draft, Processing} {
        inv := inv.(paymentDate := Some(today), paymentReference := reference, paymentAmount := Some(cents));
        invoices := invoices[id := inv];
        return;
      }
      var _ := Pay(id, PaymentData(Some(today), Some(reference), Some(cents)), "online_payment", today);
    }

    method TransactionConfirmed(provider: string, paymentId: string, today: int)
      modifies this
      ensures View() == PaymentConfirmed(old(View()), provider, paymentId, today)
    {
      var k := FirstTxn(txns, (t: Txn) => t.provider == provider && t.paymentId == paymentId);
      if k.None? {
        return;
      }
      var txn := txns[k.value];
      txns := txns[k.value := txn.(status := TxnConfirmed)];
      if txn.invoice < |invoices| && invoices[txn.invoice].status != Paid {
        var p := PaymentData(Some(today), Some(provider + ":" + paymentId), Some(txn.amount));
        var _ := Pay(txn.invoice, p, "online_payment", today);
      }
    }

    method TransactionFailed(provider: string, paymentId: string)
      modifies this
      ensures View() == PaymentFailed(old(View()), provider, paymentId)
    {
      var k := FirstTxn(txns, (t: Txn) => t.provider == provider && t.paymentId == paymentId);
      if k.Some? {
        txns := txns[k.value := txns[k.value].(status := TxnFailed)];
      }
    }

    method StripeInvoice(p: Payload, stripeId: string) returns (out: Outcome)
      modifies this
      ensures Effect(View(), out) == ImportInvoice(old(View()), p, stripeId)
    {
      var existing := Newest(invoices, inv => Imported(inv, p.org, stripeId));
      if existing.Some? {
        return Skipped;
      }
      out := Create(p.(externalId := Some(stripeId)));
    }

    method StripeNote(p: Payload, stripeId: string, credited: string) returns (out: Outcome)
      modifies this
      ensures Effect(View(), out) == ImportCreditNote(old(View()), p, stripeId, credited)
    {
      var existing := Newest(invoices, inv => Imported(inv, p.org, stripeId));
      if existing.Some? {
        return Skipped;
      }
      var original := Newest(invoices, inv => Imported(inv, p.org, credited));
      if credited == "" || original.None? {
        return Skipped;
      }
      var id := |invoices|;
      out := Create(p.(externalId := Some(stripeId)));
      if out == Done {
        invoices := invoices[id := invoices[id].(preceding := original)];
      }
    }

    method ReceiveWebhook(eventId: string, b: Body, today: int) returns (processed: bool)
      modifies this
      ensures View() == HandleWebhook(old(View()), eventId, b, today)
      ensures processed == (eventId !in old(events))
    {
      if eventId in events {
        return false;
      }
      events := events + {eventId};
      match b {
        case Confirmed(provider, paymentId) => TransactionConfirmed(provider, paymentId, today);
        case Failed(provider, paymentId) => TransactionFailed(provider, paymentId);
        case StripePaid(provider, stripeId, cents) => PaymentReceived(provider, stripeId, cents, today);
        case StripeFinalized(p, stripeId) => var _ := StripeInvoice(p, stripeId);
        case StripeCreditNote(p, stripeId, credited) => var _ := StripeNote(p, stripeId, credited);
        case Unhandled =>
      }
      return true;
    }

    method Checkout(id: Id, provider: string, answer: Session) returns (out: Outcome)
      requires id < |invoices|
      modifies this
      ensures Effect(View(), out) == CreateCheckout(old(View()), id, provider, answer)
    {
      var inv := invoices[id];
      if inv.status !in {Validated, Transmitted, Accepted} {
        return ConflictError;
      }
      var existing := FirstTxn(txns, (t: Txn) =>
                                 t.invoice == id && t.provider == provider && t.status in {TxnCreated, TxnPending});
      if existing.Some? && txns[existing.value].url != "" {
        return Skipped;
      }
      if inv.total.None? {
        return IntegrityError;
      }
      txns := txns + [Txn(provider, answer.paymentId, id, inv.total.value, answer.status, answer.url)];
      return Done;
    }

    // ---------- any step, any run ----------

    /** One step of the system. */
    method Step(a: Action)
      modifies this
      ensures View() == Apply(old(View()), a)
    {
      if OnVisibleRow(a) {
        if !(a.id < |invoices| && !invoices[a.id].deleted) {
          return;
        }
        UserStep(a);
      } else {
        SystemStep(a);
      }
    }

    method UserStep(a: Action)
      requires OnVisibleRow(a) && a.id < |invoices| && !invoices[a.id].deleted
      modifies this
      ensures View() == Apply(old(View()), a)
    {
      match a {
        case DoUpdate(id, p) => var _ := Update(id, p);
        case DoReplace(id, sup, data) => var _ := Replace(id, sup, data);
        case DoSoftDelete(id) => var _ := Remove(id);
        case DoValidate(id, ok, prefix, padding) => var _ := Validate(id, ok, prefix, padding);
        case DoTransmit(id) => var _ := Transmit(id);
        case DoMarkPaid(id, p, today) => var _ := Pay(id, p, "", today);
        case DoCancel(id) => var _ := Cancel(id);
        case DoCheckout(id, provider, answer) => var _ := Checkout(id, provider, answer);
      }
    }

    method SystemStep(a: Action)
      requires !OnVisibleRow(a)
      modifies this
      ensures View() == Apply(old(View()), a)
    {
      match a {
        case DoCreate(p) => var _ := Create(p);
        case DoGenerate(id, g) => if id < |invoices| { var _ := Generate(id, g); }
        case DoSubmit(id, flow) => if id < |invoices| { var _ := Submit(id, flow); }
        case DoPoll(org, number, reports, acks, today) => PollCdarEvents(org, number, reports, acks, today, None);
        case DoPollInterrupted(org, number, reports, acks, k, today) =>
          PollCdarEvents(org, number, reports, acks, today, Some(k));
        case DoWebhook(eventId, body, today) => var _ := ReceiveWebhook(eventId, body, today);
        case DoImportInvoice(p, stripeId) => var _ := StripeInvoice(p, stripeId);
        case DoImportCreditNote(p, stripeId, credited) => var _ := StripeNote(p, stripeId, credited);
      }
    }

    /** A whole run: from a new store, what is proved of `Run(EMPTY, actions)` is true of the store. */
    method Perform(actions: seq<Action>)
      modifies this
      ensures View() == Run(old(View()), actions)
    {
      hide Apply;
      for i := 0 to |actions|
        invariant View() == Run(old(View()), actions[..i])
      {
        assert actions[..i + 1][..i] == actions[..i];
        Step(actions[i]);
      }
      assert actions[..|actions|] == actions;
    }
  }

  /** A user action: it names a row, found as the API finds it. */
  predicate OnVisibleRow(a: Action) {
    a.DoUpdate? || a.DoReplace? || a.DoSoftDelete? || a.DoValidate? || a.DoTransmit? || a.DoMarkPaid? || a.DoCancel?
    || a.DoCheckout?
  }
}
