/** What repeated and incremental polls of the CDAR lifecycle amount to. */
module Polling {
  import opened StateMachine
  import opened Records
  import opened InvoiceService
  import opened Tasks
  import opened Soundness

  /** One poll whose events are already matched to invoices. */
  function Ingest(s: State, items: seq<Item>, today: int): State
    requires InRange(items, |s.invoices|)
  {
    Deliver(s, SeenKeys(s.logs), items, today)
  }

  lemma {:induction false} DeliverConcat(s: State, seen: set<Item>, a: seq<Item>, b: seq<Item>, today: int)
    requires InRange(a + b, |s.invoices|) && InRange(a, |s.invoices|) && InRange(b, |s.invoices|)
    ensures Deliver(s, seen, a + b, today) == Deliver(Deliver(s, seen, a, today), seen, b, today)
  {
    if b == [] {
      assert a + b == a;
    } else {
      var n := |b| - 1;
      assert InRange(b[..n], |s.invoices|) && InRange(a + b[..n], |s.invoices|);
      DeliverConcat(s, seen, a, b[..n], today);
      assert (a + b)[..|a + b| - 1] == a + b[..n];
    }
  }

  lemma ProcessAnyDay(s: State, id: Id, ev: Event, day: int, day': int)
    requires id < |s.invoices|
    ensures ProcessEvent(s, id, ev, day) == ProcessEvent(s, id, ev, day')
  {
  }

  /** The day of a poll plays no part: a payment it applies has its date already. */
  lemma {:induction false} DeliverAnyDay(s: State, seen: set<Item>, items: seq<Item>, day: int, day': int)
    requires InRange(items, |s.invoices|)
    ensures Deliver(s, seen, items, day) == Deliver(s, seen, items, day')
  {
    if items != [] {
      hide ProcessEvent;
      var front, last := items[..|items| - 1], items[|items| - 1];
      DeliverAnyDay(s, seen, front, day, day');
      assert last in items;
      ProcessAnyDay(Deliver(s, seen, front, day), last.id, last.event, day, day');
    }
  }

  lemma {:induction false} DeliverSameSeen(s: State, seen: set<Item>, seen': set<Item>, items: seq<Item>, today: int)
    requires InRange(items, |s.invoices|)
    requires forall it | it in items :: it in seen <==> it in seen'
    ensures Deliver(s, seen, items, today) == Deliver(s, seen', items, today)
  {
    if items != [] {
      assert items[|items| - 1] in items;
      DeliverSameSeen(s, seen, seen', items[..|items| - 1], today);
    }
  }

  lemma {:induction false} DeliverSkips(s: State, seen: set<Item>, items: seq<Item>, today: int)
    requires InRange(items, |s.invoices|) && forall it | it in items :: it in seen
    ensures Deliver(s, seen, items, today) == s
  {
    if items != [] {
      assert items[|items| - 1] in items;
      DeliverSkips(s, seen, items[..|items| - 1], today);
    }
  }

  function Fresh(items: seq<Item>, seen: set<Item>): set<Item> {
    set it | it in items && it !in seen
  }

  function CountFresh(items: seq<Item>, seen: set<Item>): nat {
    if items == [] then 0
    else CountFresh(items[..|items| - 1], seen) + if items[|items| - 1] in seen then 0 else 1
  }

  function CountEvents(logs: seq<Log>): nat {
    if logs == [] then 0
    else CountEvents(logs[..|logs| - 1]) + if logs[|logs| - 1].CdarEvent? then 1 else 0
  }

  lemma NoteEvents(s: State, l: Log)
    ensures CountEvents(Note(s, l).logs) == CountEvents(s.logs) + if l.CdarEvent? then 1 else 0
    ensures SeenKeys(Note(s, l).logs)
         == SeenKeys(s.logs) + if l.CdarEvent? then {Item(l.id, Event(l.code, l.at))} else {}
  {
    assert (s.logs + [l])[..|s.logs|] == s.logs;
  }

  /** Each processed event leaves exactly one CDAR_EVENT row. */
  lemma ProcessLogs(s: State, id: Id, ev: Event, today: int)
    requires id < |s.invoices|
    ensures var s' := ProcessEvent(s, id, ev, today);
            CountEvents(s'.logs) == CountEvents(s.logs) + 1
            && SeenKeys(s'.logs) == SeenKeys(s.logs) + {Item(id, ev)}
  {
    var noted := Note(s, CdarEvent(id, ev.code, ev.at));
    NoteEvents(s, CdarEvent(id, ev.code, ev.at));
    if Applies(s.invoices[id].status, ev.code) {
      var moved := RecordEvent(s, id, ev);
      NoteEvents(Save(noted, id, moved.invoices[id]),
                 StatusChange(id, s.invoices[id].status, CdarStatus(ev.code).value, CdarPoll(ev.code)));
      var inv := moved.invoices[id];
      if inv.paymentDate.Some? && CanTransition(inv.status, Paid) {
        var inv' := WithPayment(inv, NO_PAYMENT_DATA, today);
        NoteEvents(Save(moved, id, inv'.(status := Paid)),
                   StatusChange(id, inv.status, Paid,
                                Payment("prepaid_auto", inv'.paymentDate, inv'.paymentReference, inv'.paymentAmount)));
      }
    }
  }

  lemma {:induction false} DeliverLogs(s: State, seen: set<Item>, items: seq<Item>, today: int)
    requires InRange(items, |s.invoices|)
    ensures var s' := Deliver(s, seen, items, today);
            CountEvents(s'.logs) == CountEvents(s.logs) + CountFresh(items, seen)
            && SeenKeys(s'.logs) == SeenKeys(s.logs) + Fresh(items, seen)
  {
    if items != [] {
      var n := |items| - 1;
      assert items[n] in items && items == items[..n] + [items[n]];
      DeliverLogs(s, seen, items[..n], today);
      hide ProcessEvent;
      ProcessLogs(Deliver(s, seen, items[..n], today), items[n].id, items[n].event, today);
    }
  }

  lemma {:induction false} FewerFresh(items: seq<Item>, seen: set<Item>, seen': set<Item>, x: Item)
    requires seen <= seen'
    ensures CountFresh(items, seen') <= CountFresh(items, seen)
    ensures x in items && x in seen' && x !in seen ==> CountFresh(items, seen') < CountFresh(items, seen)
  {
    if items != [] {
      FewerFresh(items[..|items| - 1], seen, seen', x);
    }
  }

  lemma IncrementalOnOneDay(s: State, a: seq<Item>, b: seq<Item>, today: int)
    requires InRange(a, |s.invoices|) && InRange(b, |s.invoices|) && InRange(a + b, |s.invoices|)
    ensures Ingest(Ingest(s, a, today), a + b, today) == Ingest(s, a + b, today)
       <==> forall it | it in b :: it in a ==> it in SeenKeys(s.logs)
  {
    var seen := SeenKeys(s.logs);
    var s' := Ingest(s, a, today);
    var seen' := SeenKeys(s'.logs);
    DeliverLogs(s, seen, a, today);
    DeliverConcat(s, seen, a, b, today);
    DeliverConcat(s', seen', a, b, today);
    DeliverSkips(s', seen', a, today);
    hide Deliver;
    if forall it | it in b :: it in a ==> it in seen {
      DeliverSameSeen(s', seen, seen', b, today);
    } else {
      var x :| x in b && x in a && x !in seen;
      DeliverLogs(s', seen, b, today);
      DeliverLogs(s', seen', b, today);
      FewerFresh(b, seen, seen', x);
    }
  }

  /** Polling A, then A followed by B, is the same as polling A followed by B once, statuses, payments
      and log alike and on whatever days, if and only if no event of B repeats a key that A brought in. */
  lemma IncrementalPollingIff(s: State, a: seq<Item>, b: seq<Item>, day: int, later: int, once: int)
    requires InRange(a, |s.invoices|) && InRange(b, |s.invoices|) && InRange(a + b, |s.invoices|)
    ensures Ingest(Ingest(s, a, day), a + b, later) == Ingest(s, a + b, once)
       <==> forall it | it in b :: it in a ==> it in SeenKeys(s.logs)
  {
    hide Deliver, InRange, SeenKeys;
    var s' := Ingest(s, a, day);
    DeliverAnyDay(s', SeenKeys(s'.logs), a + b, later, day);
    DeliverAnyDay(s, SeenKeys(s.logs), a + b, once, day);
    IncrementalOnOneDay(s, a, b, day);
  }

  // ---------- the same for the answers as they arrive ----------

  ghost predicate SameDocuments(a: seq<Invoice>, b: seq<Invoice>) {
    |a| == |b| && forall i | 0 <= i < |a| :: SameDocument(a[i], b[i])
  }

  lemma {:induction false} LookupStable(a: seq<Invoice>, b: seq<Invoice>, org: nat, number: string, siren: string)
    requires SameDocuments(a, b)
    ensures OldestWithSiren(a, org, number, siren) == OldestWithSiren(b, org, number, siren)
    ensures Newest(a, inv => Candidate(inv, org, number)) == Newest(b, inv => Candidate(inv, org, number))
  {
    if a != [] {
      var n := |a| - 1;
      assert SameDocument(a[n], b[n]);
      LookupStable(a[..n], b[..n], org, number, siren);
    }
  }

  lemma {:induction false} ResolveStable(a: seq<Invoice>, b: seq<Invoice>, org: nat, reports: seq<Report>)
    requires SameDocuments(a, b)
    ensures Resolve(a, org, reports) == Resolve(b, org, reports)
  {
    if reports != [] {
      var rep := reports[|reports| - 1];
      ResolveStable(a, b, org, reports[..|reports| - 1]);
      LookupStable(a, b, org, rep.invoiceId, rep.sellerId);
      LookupStable(a, b, org, rep.invoiceId, "");
    }
  }

  lemma {:induction false} ResolveConcat(invoices: seq<Invoice>, org: nat, a: seq<Report>, b: seq<Report>)
    ensures Resolve(invoices, org, a + b) == Resolve(invoices, org, a) + Resolve(invoices, org, b)
  {
    hide Matched, InRange;
    if b == [] {
      assert a + b == a;
      assert Resolve(invoices, org, b) == [];
    } else {
      hide Resolve;
      var b', last := b[..|b| - 1], b[|b| - 1];
      ResolveConcat(invoices, org, a, b');
      assert a + b == (a + b') + [last];
      assert b == b' + [last];
      ResolveOneMore(invoices, org, a + b', last);
      ResolveOneMore(invoices, org, b', last);
      var x, y, z := Resolve(invoices, org, a), Resolve(invoices, org, b'), Matched(invoices, org, last);
      assert (x + y) + z == x + (y + z);
    }
  }

  /** `IncrementalPollingIff` for lifecycle answers: the reports matched against the database each time. */
  lemma IncrementalAnswersIff(s: State, org: nat, a: seq<Report>, b: seq<Report>, day: int, later: int, once: int)
    requires Sound(s)
    ensures var ia, ib := Resolve(s.invoices, org, a), Resolve(s.invoices, org, b);
            ProcessLifecycle(ProcessLifecycle(s, org, a, day), org, a + b, later)
            == ProcessLifecycle(s, org, a + b, once)
            <==> forall it | it in ib :: it in ia ==> it in SeenKeys(s.logs)
  {
    var ia, ib := Resolve(s.invoices, org, a), Resolve(s.invoices, org, b);
    var s' := ProcessLifecycle(s, org, a, day);
    DeliverQuiet(s, SeenKeys(s.logs), ia, day);
    assert SameDocuments(s.invoices, s'.invoices) by {
      forall i | 0 <= i < |s.invoices| ensures SameDocument(s.invoices[i], s'.invoices[i]) {
        assert RowQuiet(s.invoices[i], s'.invoices[i]);
      }
    }
    hide Sound, Quiet, SameDocuments, Deliver;
    ResolveStable(s.invoices, s'.invoices, org, a + b);
    ResolveConcat(s.invoices, org, a, b);
    IncrementalPollingIff(s, ia, ib, day, later, once);
  }

  /** Polling the same answer again, on whatever day, changes nothing, duplicate keys included. */
  lemma RepollIsNoop(s: State, org: nat, a: seq<Report>, day: int, later: int)
    requires Sound(s)
    ensures ProcessLifecycle(ProcessLifecycle(s, org, a, day), org, a, later) == ProcessLifecycle(s, org, a, day)
  {
    assert a + [] == a;
    IncrementalAnswersIff(s, org, a, [], day, later, day);
  }

  // ---------- events of different invoices ----------

  function LogsOf(logs: seq<Log>, id: Id): seq<Log> {
    if logs == [] then []
    else LogsOf(logs[..|logs| - 1], id) + if logs[|logs| - 1].id == id then [logs[|logs| - 1]] else []
  }

  function Only(items: seq<Item>, id: Id): (r: seq<Item>)
    ensures forall it | it in r :: it in items && it.id == id
  {
    if items == [] then []
    else Only(items[..|items| - 1], id) + if items[|items| - 1].id == id then [items[|items| - 1]] else []
  }

  /** The two states show the same invoice `id` with the same history. */
  predicate Agree(s: State, t: State, id: Id) {
    && id < |s.invoices| && id < |t.invoices|
    && s.invoices[id] == t.invoices[id]
    && LogsOf(s.logs, id) == LogsOf(t.logs, id)
  }

  lemma NoteLogsOf(s: State, l: Log, id: Id)
    ensures LogsOf(Note(s, l).logs, id) == LogsOf(s.logs, id) + if l.id == id then [l] else []
  {
    assert (s.logs + [l])[..|s.logs|] == s.logs;
  }

  lemma MoveAgrees(s: State, t: State, id: Id, inv: Invoice, to: Status, why: Cause)
    requires Agree(s, t, id)
    ensures Agree(Move(s, id, inv, to, why), Move(t, id, inv, to, why), id)
  {
    var l := StatusChange(id, s.invoices[id].status, to, why);
    NoteLogsOf(Save(s, id, inv.(status := to)), l, id);
    NoteLogsOf(Save(t, id, inv.(status := to)), l, id);
  }

  lemma MoveElsewhere(s: State, id: Id, inv: Invoice, to: Status, why: Cause, other: Id)
    requires id < |s.invoices| && other < |s.invoices| && id != other
    ensures Agree(s, Move(s, id, inv, to, why), other)
  {
    NoteLogsOf(Save(s, id, inv.(status := to)), StatusChange(id, s.invoices[id].status, to, why), other);
  }

  lemma ProcessAgrees(s: State, t: State, id: Id, ev: Event, today: int)
    requires Agree(s, t, id)
    ensures Agree(ProcessEvent(s, id, ev, today), ProcessEvent(t, id, ev, today), id)
  {
    var l := CdarEvent(id, ev.code, ev.at);
    NoteLogsOf(s, l, id);
    NoteLogsOf(t, l, id);
    if Applies(s.invoices[id].status, ev.code) {
      MoveAgrees(Note(s, l), Note(t, l), id, s.invoices[id], CdarStatus(ev.code).value, CdarPoll(ev.code));
      var s', t' := RecordEvent(s, id, ev), RecordEvent(t, id, ev);
      var inv' := WithPayment(s'.invoices[id], NO_PAYMENT_DATA, today);
      MoveAgrees(s', t', id, inv', Paid,
                 Payment("prepaid_auto", inv'.paymentDate, inv'.paymentReference, inv'.paymentAmount));
    }
  }

  lemma AutoPayElsewhere(s: State, id: Id, today: int, other: Id)
    requires id < |s.invoices| && other < |s.invoices| && id != other
    ensures Agree(s, AutoPay(s, id, today), other)
  {
    var inv' := WithPayment(s.invoices[id], NO_PAYMENT_DATA, today);
    MoveElsewhere(s, id, inv', Paid,
                  Payment("prepaid_auto", inv'.paymentDate, inv'.paymentReference, inv'.paymentAmount), other);
  }

  lemma ProcessElsewhere(s: State, id: Id, ev: Event, today: int, other: Id)
    requires id < |s.invoices| && other < |s.invoices| && id != other
    ensures Agree(s, ProcessEvent(s, id, ev, today), other)
  {
    hide AutoPay, LogsOf;
    var l := CdarEvent(id, ev.code, ev.at);
    NoteLogsOf(s, l, other);
    if Applies(s.invoices[id].status, ev.code) {
      MoveElsewhere(Note(s, l), id, s.invoices[id], CdarStatus(ev.code).value, CdarPoll(ev.code), other);
      AutoPayElsewhere(RecordEvent(s, id, ev), id, today, other);
    }
  }

  /** What a batch does to an invoice, history included, is what its own events alone would do. */
  lemma {:induction false} BatchProjects(s: State, seen: set<Item>, items: seq<Item>, today: int, id: Id)
    requires InRange(items, |s.invoices|) && InRange(Only(items, id), |s.invoices|) && id < |s.invoices|
    ensures Agree(Deliver(s, seen, items, today), Deliver(s, seen, Only(items, id), today), id)
  {
    if items != [] {
      var n := |items| - 1;
      var it := items[n];
      assert it in items && items == items[..n] + [it];
      hide ProcessEvent, Deliver;
      BatchProjects(s, seen, items[..n], today, id);
      var before, alone := Deliver(s, seen, items[..n], today), Deliver(s, seen, Only(items[..n], id), today);
      DeliverOneMore(s, seen, items[..n], it, today);
      if it.id == id {
        DeliverOneMore(s, seen, Only(items[..n], id), it, today);
        ProcessAgrees(before, alone, id, it.event, today);
      } else {
        assert Only(items, id) == Only(items[..n], id);
        ProcessElsewhere(before, it.id, it.event, today, id);
      }
    }
  }

  /** Batches that hold the same events per invoice in the same order, however interleaved, leave
      every invoice and its history the same. */
  lemma InterleavingIrrelevant(s: State, a: seq<Item>, b: seq<Item>, day: int, day': int, id: Id)
    requires InRange(a, |s.invoices|) && InRange(b, |s.invoices|) && id < |s.invoices|
    requires Only(a, id) == Only(b, id)
    ensures Agree(Ingest(s, a, day), Ingest(s, b, day'), id)
  {
    BatchProjects(s, SeenKeys(s.logs), a, day, id);
    BatchProjects(s, SeenKeys(s.logs), b, day, id);
    DeliverAnyDay(s, SeenKeys(s.logs), b, day, day');
  }

  /** An event once logged, applied or refused, plays no part in any later poll. */
  lemma {:induction false} LoggedEventIsSpent(s: State, seen: set<Item>, items: seq<Item>, x: Item, today: int)
    requires InRange(items, |s.invoices|) && InRange(Without(items, x), |s.invoices|) && x in seen
    ensures Deliver(s, seen, items, today) == Deliver(s, seen, Without(items, x), today)
  {
    if items != [] {
      var n := |items| - 1;
      assert items[n] in items && items == items[..n] + [items[n]];
      hide ProcessEvent, Deliver;
      LoggedEventIsSpent(s, seen, items[..n], x, today);
      DeliverOneMore(s, seen, items[..n], items[n], today);
      if items[n] != x {
        DeliverOneMore(s, seen, Without(items[..n], x), items[n], today);
      } else {
        assert Without(items, x) == Without(items[..n], x);
      }
    }
  }

  function Without(items: seq<Item>, x: Item): (r: seq<Item>)
    ensures forall it | it in r :: it in items
  {
    if items == [] then []
    else Without(items[..|items| - 1], x) + if items[|items| - 1] == x then [] else [items[|items| - 1]]
  }
}
