/** What a whole poll of one organization promises: whom it reaches, and what it leaves alone. */
module PollPromises {
  import opened Wrappers
  import opened Records
  import opened Tasks
  import opened Soundness
  import opened Polling
  import opened TaskPromises

  // ---------- matching ----------

  /** A live row of the organization with this number. */
  predicate Bears(inv: Invoice, org: nat, number: string) {
    inv.org == org && inv.number == number && !inv.deleted
  }

  /** A report reaches a live row of the organization with its number, and none only if there is none: the
      oldest whose supplier has the seller's SIREN; without one the oldest whose supplier has no SIREN;
      without one the newest. */
  lemma MatchPromise(invoices: seq<Invoice>, org: nat, seller: string, number: string)
    ensures var r := LocalInvoice(invoices, org, seller, number);
            && (r.None? <==> forall i | 0 <= i < |invoices| :: !Bears(invoices[i], org, number))
            && (r.Some? ==>
                  && r.value < |invoices| && Bears(invoices[r.value], org, number)
                  && var siren := invoices[r.value].supplier.siren;
                     && (siren != seller ==>
                           forall i | 0 <= i < |invoices| && Bears(invoices[i], org, number) ::
                             invoices[i].supplier.siren != seller)
                     && (siren != seller && siren != "" ==>
                           forall i | 0 <= i < |invoices| && Bears(invoices[i], org, number) ::
                             invoices[i].supplier.siren != "" && i <= r.value)
                     && (siren == seller || siren == "" ==>
                           forall i | 0 <= i < r.value && Bears(invoices[i], org, number) ::
                             invoices[i].supplier.siren != siren))
  {
    forall i | 0 <= i < |invoices| ensures Candidate(invoices[i], org, number) <==> Bears(invoices[i], org, number) {
    }
    forall i, siren | 0 <= i < |invoices|
      ensures CandidateOf(invoices[i], org, number, siren)
         <==> Bears(invoices[i], org, number) && invoices[i].supplier.siren == siren
    {
    }
  }

  /** The events of one report all go to the row it reaches, in their order; without a number, or without a
      row, to none. */
  lemma ReportPromise(invoices: seq<Invoice>, org: nat, rep: Report)
    ensures var r, items := LocalInvoice(invoices, org, rep.sellerId, rep.invoiceId), Resolve(invoices, org, [rep]);
            if rep.invoiceId == "" || r.None? then items == []
            else |items| == |rep.events| && forall k | 0 <= k < |items| :: items[k] == Item(r.value, rep.events[k])
  {
    OneReport(invoices, org, rep);
    hide Resolve, LocalInvoice;
  }

  lemma OneReport(invoices: seq<Invoice>, org: nat, rep: Report)
    ensures Resolve(invoices, org, [rep]) == Matched(invoices, org, rep)
  {
    ResolveOneMore(invoices, org, [], rep);
    NoReports(invoices, org);
    hide *;
    assert [] + [rep] == [rep];
    assert [] + Matched(invoices, org, rep) == Matched(invoices, org, rep);
  }

  lemma NoReports(invoices: seq<Invoice>, org: nat)
    ensures Resolve(invoices, org, []) == []
  {
  }

  /** Some report names the invoice. */
  predicate Reported(reports: seq<Report>, inv: Invoice) {
    exists rep | rep in reports :: rep.invoiceId != "" && rep.invoiceId == inv.number
  }

  /** Events reach only live rows of the organization that some report names. */
  lemma {:induction false} ReachedRows(invoices: seq<Invoice>, org: nat, reports: seq<Report>)
    ensures forall it | it in Resolve(invoices, org, reports) ::
              && it.id < |invoices| && invoices[it.id].org == org && !invoices[it.id].deleted
              && Reported(reports, invoices[it.id])
  {
    if reports != [] {
      var front, last := reports[..|reports| - 1], reports[|reports| - 1];
      assert reports == front + [last];
      ReachedRows(invoices, org, front);
      ResolveConcat(invoices, org, front, [last]);
      ReportPromise(invoices, org, last);
      MatchPromise(invoices, org, last.sellerId, last.invoiceId);
      hide Resolve, LocalInvoice;
      forall it | it in Resolve(invoices, org, reports)
        ensures it.id < |invoices| && invoices[it.id].org == org && !invoices[it.id].deleted
        ensures Reported(reports, invoices[it.id])
      {
        if it in Resolve(invoices, org, front) {
          assert Reported(front, invoices[it.id]);
        }
      }
    }
  }

  /** An event counts as seen exactly when a row of the log has its invoice, code and time. */
  lemma SeenPromise(logs: seq<Log>, it: Item)
    ensures it in SeenKeys(logs) <==> CdarEvent(it.id, it.event.code, it.event.at) in logs
  {
  }

  // ---------- the fallback ----------

  /** The answer of the platform for the flow of a row, if any came. */
  function AnswerFor(acks: map<Id, Ack>, id: Id): Ack {
    if id in acks then acks[id] else Unreachable
  }

  /** What the fallback makes of a row, and what it logs of it. */
  predicate FellBack(s: State, s': State, id: Id, org: nat, number: Option<string>, reported: set<string>,
                     acks: map<Id, Ack>)
  {
    && id < |s.invoices| && id < |s'.invoices|
    && var inv, ack := s.invoices[id], AnswerFor(acks, id);
       if Awaiting(inv, org, number, reported) then
         s'.invoices[id] == Acknowledged(inv, ack)
         && LogsOf(s'.logs, id) == LogsOf(s.logs, id) + AcknowledgedLogs(inv, id, ack)
       else s'.invoices[id] == inv && LogsOf(s'.logs, id) == LogsOf(s.logs, id)
  }

  lemma LogsOfFew(logs: seq<Log>, added: seq<Log>, id: Id, other: Id)
    requires |added| <= 2 && forall l | l in added :: l.id == id
    ensures LogsOf(logs + added, other) == LogsOf(logs, other) + if other == id then added else []
  {
    if |added| == 1 {
      assert (logs + added)[..|logs|] == logs;
    } else if |added| == 2 {
      assert added[0] in added && added[1] in added;
      assert (logs + added)[..|logs| + 1] == logs + [added[0]];
      assert (logs + [added[0]])[..|logs|] == logs;
    } else {
      assert logs + added == logs;
    }
  }

  /** One iteration leaves every other row and its history. */
  lemma FlowRow(s: State, id: Id, org: nat, number: Option<string>, reported: set<string>, acks: map<Id, Ack>,
                today: int, other: Id)
    requires Sound(s) && id < |s.invoices| && other < |s.invoices|
    ensures var s' := CheckFlow(s, id, org, number, reported, AckFor(acks, id), today);
            && Sound(s') && |s'.invoices| == |s.invoices|
            && (if other == id then FellBack(s, s', id, org, number, reported, acks) else Agree(s, s', other))
  {
    FlowPromise(s, id, org, number, reported, AckFor(acks, id), today);
    CheckFlowQuiet(s, id, org, number, reported, AckFor(acks, id), today);
    hide Sound, Quiet, CheckFlow, LogsOf, Acknowledged;
    LogsOfFew(s.logs, AcknowledgedLogs(s.invoices[id], id, AckFor(acks, id)), id, other);
    assert LogsOf(s.logs, other) + [] == LogsOf(s.logs, other);
  }

  lemma FellBackThen(s: State, m: State, s': State, id: Id, org: nat, number: Option<string>, reported: set<string>,
                     acks: map<Id, Ack>)
    ensures FellBack(s, m, id, org, number, reported, acks) && Agree(m, s', id)
            ==> FellBack(s, s', id, org, number, reported, acks)
    ensures Agree(s, m, id) && FellBack(m, s', id, org, number, reported, acks)
            ==> FellBack(s, s', id, org, number, reported, acks)
    ensures Agree(s, m, id) && Agree(m, s', id) ==> Agree(s, s', id)
  {
    hide LogsOf, Awaiting, Acknowledged, AcknowledgedLogs, AnswerFor;
  }

  lemma FallbackUnfolds(s: State, n: nat, org: nat, number: Option<string>, reported: set<string>, acks: map<Id, Ack>,
                        today: int)
    requires 0 < n <= |s.invoices|
    ensures var m := CheckFlow(s, n - 1, org, number, reported, AckFor(acks, n - 1), today);
            FlowFallbackBelow(s, n, org, number, reported, acks, today)
            == FlowFallbackBelow(m, n - 1, org, number, reported, acks, today)
  {
    hide CheckFlow;
  }

  lemma NoFallback(s: State, org: nat, number: Option<string>, reported: set<string>, acks: map<Id, Ack>, today: int,
                   id: Id)
    requires id < |s.invoices|
    ensures FlowFallbackBelow(s, 0, org, number, reported, acks, today) == s && Agree(s, s, id)
  {
  }

  lemma {:induction false} FallbackRow(s: State, n: nat, org: nat, number: Option<string>, reported: set<string>,
                                       acks: map<Id, Ack>, today: int, id: Id)
    requires Sound(s) && n <= |s.invoices| && id < |s.invoices|
    ensures var s' := FlowFallbackBelow(s, n, org, number, reported, acks, today);
            if id < n then FellBack(s, s', id, org, number, reported, acks) else Agree(s, s', id)
    decreases n
  {
    hide *;
    if n == 0 {
      NoFallback(s, org, number, reported, acks, today, id);
    } else {
      var m := CheckFlow(s, n - 1, org, number, reported, AckFor(acks, n - 1), today);
      FlowRow(s, n - 1, org, number, reported, acks, today, id);
      FallbackRow(m, n - 1, org, number, reported, acks, today, id);
      FallbackUnfolds(s, n, org, number, reported, acks, today);
      FellBackThen(s, m, FlowFallbackBelow(s, n, org, number, reported, acks, today), id, org, number, reported, acks);
    }
  }

  // ---------- a whole poll ----------

  lemma LifecycleElsewhere(s: State, org: nat, reports: seq<Report>, today: int, id: Id)
    requires id < |s.invoices|
    requires s.invoices[id].org != org || s.invoices[id].deleted || !Reported(reports, s.invoices[id])
    ensures Agree(s, ProcessLifecycle(s, org, reports, today), id)
  {
    var items := Resolve(s.invoices, org, reports);
    ReachedRows(s.invoices, org, reports);
    OnlyNone(items, id);
    BatchProjects(s, SeenKeys(s.logs), items, today, id);
  }

  lemma {:induction false} OnlyNone(items: seq<Item>, id: Id)
    requires forall it | it in items :: it.id != id
    ensures Only(items, id) == []
  {
    if items != [] {
      assert items[|items| - 1] in items;
      OnlyNone(items[..|items| - 1], id);
    }
  }

  lemma ReportedIff(reports: seq<Report>, inv: Invoice)
    ensures inv.number in ReportedNumbers(reports) <==> Reported(reports, inv)
  {
  }

  /** A poll of one organization leaves every invoice of the others, and its history, as they were. */
  lemma OtherOrganizations(s: State, org: nat, number: Option<string>, reports: seq<Report>, acks: map<Id, Ack>,
                           today: int, id: Id)
    requires Sound(s) && id < |s.invoices| && s.invoices[id].org != org
    ensures Agree(s, Poll(s, org, number, reports, acks, today), id)
  {
    LifecycleElsewhere(s, org, reports, today, id);
    DeliverQuiet(s, SeenKeys(s.logs), Resolve(s.invoices, org, reports), today);
    var m := ProcessLifecycle(s, org, reports, today);
    hide Sound, Quiet, ProcessLifecycle, FlowFallbackBelow, LogsOf;
    FallbackRow(m, |m.invoices|, org, number, ReportedNumbers(reports), acks, today, id);
  }

  /** An invoice that no report names is left to the fallback: awaiting an answer, it becomes what the
      platform answers; else it and its history stay as they were. */
  lemma UnreportedPromise(s: State, org: nat, number: Option<string>, reports: seq<Report>, acks: map<Id, Ack>,
                          today: int, id: Id)
    requires Sound(s) && id < |s.invoices| && !Reported(reports, s.invoices[id])
    ensures FellBack(s, Poll(s, org, number, reports, acks, today), id, org, number, {}, acks)
  {
    LifecycleElsewhere(s, org, reports, today, id);
    DeliverQuiet(s, SeenKeys(s.logs), Resolve(s.invoices, org, reports), today);
    ReportedIff(reports, s.invoices[id]);
    var m := ProcessLifecycle(s, org, reports, today);
    hide Sound, Quiet, ProcessLifecycle, FlowFallbackBelow, LogsOf, ReportedNumbers;
    FallbackRow(m, |m.invoices|, org, number, ReportedNumbers(reports), acks, today, id);
  }

  /** One that a report names is not looked up again: its events alone decide. */
  lemma ReportedRowPromise(s: State, org: nat, number: Option<string>, reports: seq<Report>, acks: map<Id, Ack>,
                           today: int, id: Id)
    requires Sound(s) && id < |s.invoices| && Reported(reports, s.invoices[id])
    ensures Agree(ProcessLifecycle(s, org, reports, today), Poll(s, org, number, reports, acks, today), id)
  {
    var m := ProcessLifecycle(s, org, reports, today);
    DeliverQuiet(s, SeenKeys(s.logs), Resolve(s.invoices, org, reports), today);
    assert RowQuiet(s.invoices[id], m.invoices[id]);
    ReportedIff(reports, m.invoices[id]);
    hide Sound, Quiet, ProcessLifecycle, FlowFallbackBelow, LogsOf, ReportedNumbers;
    FallbackRow(m, |m.invoices|, org, number, ReportedNumbers(reports), acks, today, id);
  }

  /** The poll is cut short exactly when event `k` is fresh and moves its invoice as it then is. */
  lemma InterruptedPromise(s: State, org: nat, number: Option<string>, reports: seq<Report>, acks: map<Id, Ack>,
                           k: nat, today: int)
    ensures var items := Resolve(s.invoices, org, reports);
            var s' := PollInterrupted(s, org, number, reports, acks, k, today);
            if k >= |items| || items[k] in SeenKeys(s.logs) then s' == Poll(s, org, number, reports, acks, today)
            else
              && InRange(items[..k], |s.invoices|) && items[k] in items
              && var m := Deliver(s, SeenKeys(s.logs), items[..k], today);
                 s' == if Reached(m.invoices[items[k].id].status, items[k].event.code).Some?
                       then RecordEvent(m, items[k].id, items[k].event)
                       else Poll(s, org, number, reports, acks, today)
  {
    hide Deliver, Resolve, RecordEvent, SeenKeys, Poll;
    var items := Resolve(s.invoices, org, reports);
    if k < |items| && items[k] !in SeenKeys(s.logs) {
      assert items[k] in items;
      var m := Deliver(s, SeenKeys(s.logs), items[..k], today);
      EventReaches(m.invoices[items[k].id].status, items[k].event.code);
    }
  }
}
