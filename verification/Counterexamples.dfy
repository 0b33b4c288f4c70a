/** Runs in which an exception after a saved status change breaks a guarantee. */
module Counterexamples {
  import opened Wrappers
  import opened StateMachine
  import opened Records
  import opened InvoiceService
  import opened Tasks
  import opened Payments
  import opened Runs
  import opened History
  import opened Webhooks
  import Cancellation
  import Overcrediting
  import Prepaid
  import Numbers

  lemma RunNext(actions: seq<Action>, n: nat)
    requires n < |actions|
    ensures Run(EMPTY, actions[..n + 1]) == Apply(Run(EMPTY, actions[..n]), actions[n])
  {
    hide Apply;
    assert actions[..n + 1][..n] == actions[..n];
  }

  const SNAPSHOT := Snapshot(Some(12000), None, None, "", "380", "", "")
  const PAYLOAD := Payload(0, Supplier(0, ""), SNAPSHOT, Some("in_1"), "N1")

  /** Invoice `N1` created and validated, its generation then ending in `g`. */
  function Emitting(g: Generation): seq<Action> {
    [DoCreate(PAYLOAD), DoValidate(0, true, "", 0), DoGenerate(0, g)]
  }

  /** The state just before the generation: one invoice, being processed. */
  lemma BeforeGeneration(actions: seq<Action>)
    requires |actions| >= 3 && actions[2].DoGenerate? && actions[..3] == Emitting(actions[2].generation)
    ensures var s := Run(EMPTY, actions[..2]);
            && |s.invoices| == 1 && s.counters == map[]
            && s.invoices[0] == NewInvoice(PAYLOAD).(status := Processing)
            && SeenKeys(s.logs) == {} && s.events == {}
  {
    assert actions[0] == actions[..3][0] && actions[1] == actions[..3][1];
    assert actions[..0] == [];
    RunNext(actions, 0);
    RunNext(actions, 1);
    var s1 := Run(EMPTY, actions[..1]);
    assert s1 == Add(EMPTY, NewInvoice(PAYLOAD));
  }

  /** VALIDATED goes back to DRAFT, which the table forbids. */
  lemma CrashLeavesTable()
    ensures !AllInTable(Run(EMPTY, Emitting(Interrupted)).logs)
  {
    var actions := Emitting(Interrupted);
    assert actions[..3] == actions;
    BeforeGeneration(actions);
    assert Crashes(Run(EMPTY, actions[..2]), actions[2]);
    TableRespectedIff(actions);
  }

  /** The invoice is then cancelled by a credit note whose own generation is interrupted. */
  function TakingBack(): seq<Action> {
    Emitting(Generated) + [DoCancel(0), DoValidate(1, true, "AV-", 3), DoGenerate(1, Interrupted)]
  }

  const PROCESSED := NewInvoice(PAYLOAD).(status := Processing)
  const ISSUED := NewInvoice(PAYLOAD).(status := Validated)

  lemma GeneratedStep(s: State)
    requires s.invoices == [PROCESSED]
    ensures var s' := Apply(s, DoGenerate(0, Generated)); s'.invoices == [ISSUED] && s'.counters == s.counters
  {
  }

  lemma CancelStep(s: State)
    requires s.invoices == [ISSUED]
    ensures var s' := Apply(s, DoCancel(0)); s'.invoices == [ISSUED, CreditNote(ISSUED, 0)] && s'.counters == s.counters
  {
  }

  lemma ValidateNoteStep(s: State)
    requires s.invoices == [ISSUED, CreditNote(ISSUED, 0)] && s.counters == map[]
    ensures var s' := Apply(s, DoValidate(1, true, "AV-", 3));
            && |s'.invoices| == 2 && s'.invoices[0] == ISSUED && s'.invoices[1].status == Processing
            && s'.invoices[1].preceding == Some(0) && s'.invoices[1].total == Some(12000)
  {
    var number := Numbers.Print("AV-", 1, 3);
    assert number[0] == 'A' && "N1"[0] == 'N';
    assert NumberFor(s, s.invoices[1], "AV-", 3) == number;
    hide Numbers.Print;
    assert Admits(s.invoices, 1, Numbered(s.invoices[1], number));
  }

  lemma AfterCancel(actions: seq<Action>)
    requires actions == TakingBack()
    ensures var s := Run(EMPTY, actions[..5]);
            && |s.invoices| == 2 && s.invoices[0].status == Validated && s.invoices[1].status == Processing
            && s.invoices[1].preceding == Some(0) && s.invoices[1].total == s.invoices[0].total == Some(12000)
  {
    assert actions[..3] == Emitting(Generated);
    BeforeGeneration(actions);
    hide Apply, Run;
    RunNext(actions, 2);
    RunNext(actions, 3);
    RunNext(actions, 4);
    GeneratedStep(Run(EMPTY, actions[..2]));
    CancelStep(Run(EMPTY, actions[..3]));
    ValidateNoteStep(Run(EMPTY, actions[..4]));
  }

  /** A cancelled invoice is left with a credit note that is a draft again. */
  lemma InterruptedCreditNote()
    ensures !Always(Cancellation.Backed, TakingBack())
  {
    var actions := TakingBack();
    AfterCancel(actions);
    assert Cancellation.TakesBack(Run(EMPTY, actions[..5]), actions[5]);
    Cancellation.CancelledIsCreditedIff(actions);
  }

  // ---------- one invoice on its way to the platform ----------

  /** Invoice `N1`, a payment recorded or not, submitted or not. */
  function Copy(paid: bool, sent: bool, st: Status): Invoice {
    var inv := PROCESSED.(status := st);
    var inv' := if paid
                then inv.(paymentDate := Some(7), paymentReference := "stripe:in_1", paymentAmount := Some(12000))
                else inv;
    if sent then inv'.(transmissionId := "flow_1", pdpStatus := "submitted") else inv'
  }

  /** The only invoice, none of its events polled yet. */
  predicate Alone(s: State, inv: Invoice) {
    s.invoices == [inv] && SeenKeys(s.logs) == {}
  }

  lemma GenerateAlone(s: State, paid: bool)
    requires Alone(s, Copy(paid, false, Processing))
    ensures Alone(Apply(s, DoGenerate(0, Generated)), Copy(paid, false, Validated))
  {
  }

  lemma TransmitAlone(s: State, paid: bool)
    requires Alone(s, Copy(paid, false, Validated))
    ensures Alone(Apply(s, DoTransmit(0)), Copy(paid, false, Transmitting))
  {
  }

  lemma SubmitAlone(s: State, paid: bool)
    requires Alone(s, Copy(paid, false, Transmitting))
    ensures Alone(Apply(s, DoSubmit(0, Some("flow_1"))), Copy(paid, true, Transmitting))
  {
  }

  const PAYMENT := StripePaid("stripe", "in_1", 12000)
  const DEPOSIT := Report("", "N1", [Event("200", "t")])

  /** The deposit is matched to the invoice. */
  lemma DepositMatched(s: State, paid: bool)
    requires Alone(s, Copy(paid, true, Transmitting))
    ensures Resolve(s.invoices, 0, [DEPOSIT]) == [Item(0, Event("200", "t"))]
  {
    assert Matched(s.invoices, 0, DEPOSIT) == [Item(0, Event("200", "t"))];
    ResolveOneMore(s.invoices, 0, [], DEPOSIT);
    assert [] + [DEPOSIT] == [DEPOSIT];
  }

  // ---------- a broker down at the deposit ----------

  /** The invoice is paid for while being processed, and deposited while the broker is down. */
  function Stranding(): seq<Action> {
    [DoCreate(PAYLOAD), DoValidate(0, true, "", 0), DoWebhook("evt_1", PAYMENT, 7), DoGenerate(0, Generated),
     DoTransmit(0), DoSubmit(0, Some("flow_1")), DoPollInterrupted(0, None, [DEPOSIT], map[], 0, 8)]
  }

  lemma PaidStep(s: State)
    requires Alone(s, PROCESSED) && s.events == {}
    ensures Alone(Apply(s, DoWebhook("evt_1", PAYMENT, 7)), Copy(true, false, Processing))
  {
    var t := s.(events := s.events + {"evt_1"});
    assert Newest(t.invoices, inv => Linked(inv, "in_1")) == Some(0);
    assert "stripe" + ":" + "in_1" == "stripe:in_1";
  }

  lemma PaidWhileProcessing(actions: seq<Action>)
    requires actions == Stranding()
    ensures Alone(Run(EMPTY, actions[..3]), Copy(true, false, Processing))
  {
    var emitting := Emitting(Generated);
    assert emitting[..3] == emitting && actions[..2] == emitting[..2];
    BeforeGeneration(emitting);
    hide Apply, Run;
    RunNext(actions, 2);
    PaidStep(Run(EMPTY, actions[..2]));
  }

  lemma BeforeDeposit(actions: seq<Action>)
    requires actions == Stranding()
    ensures Alone(Run(EMPTY, actions[..6]), Copy(true, true, Transmitting))
  {
    PaidWhileProcessing(actions);
    hide Apply, Run, Alone, Copy;
    RunNext(actions, 3);
    RunNext(actions, 4);
    RunNext(actions, 5);
    GenerateAlone(Run(EMPTY, actions[..3]), true);
    TransmitAlone(Run(EMPTY, actions[..4]), true);
    SubmitAlone(Run(EMPTY, actions[..5]), true);
  }

  /** The recorded payment is not applied with the deposit: the invoice rests in TRANSMITTED until its
      next status or a manual payment. */
  lemma InterruptedDeposit()
    ensures !Always(Prepaid.AllApplied, Stranding())
  {
    var actions := Stranding();
    BeforeDeposit(actions);
    var s := Run(EMPTY, actions[..6]);
    DepositMatched(s, true);
    assert Prepaid.Strands(s, actions[6]);
    Prepaid.PrepaidAppliedIff(actions);
  }

  // ---------- a payment that comes during the transmission ----------

  /** The invoice is submitted, paid for, deposited, and the payment delivered again. */
  function Dropping(): seq<Action> {
    Emitting(Generated)
    + [DoTransmit(0), DoSubmit(0, Some("flow_1")), DoWebhook("evt_1", PAYMENT, 7),
       DoPoll(0, None, [DEPOSIT], map[], 8), DoWebhook("evt_1", PAYMENT, 9)]
  }

  lemma UnpaidInTransmission(actions: seq<Action>)
    requires actions == Dropping()
    ensures Alone(Run(EMPTY, actions[..5]), Copy(false, true, Transmitting))
  {
    assert actions[..3] == Emitting(Generated);
    BeforeGeneration(actions);
    assert Alone(Run(EMPTY, actions[..2]), Copy(false, false, Processing));
    hide Apply, Run, Alone, Copy;
    RunNext(actions, 2);
    RunNext(actions, 3);
    RunNext(actions, 4);
    GenerateAlone(Run(EMPTY, actions[..2]), false);
    TransmitAlone(Run(EMPTY, actions[..3]), false);
    SubmitAlone(Run(EMPTY, actions[..4]), false);
  }

  lemma PaymentDropped(s: State, a: Action)
    requires Alone(s, Copy(false, true, Transmitting)) && a.DoWebhook? && a.body == PAYMENT
    ensures Alone(Apply(s, a), Copy(false, true, Transmitting)) && a.eventId in Apply(s, a).events
  {
  }

  lemma DepositProcessed(s: State)
    requires Alone(s, Copy(false, true, Transmitting))
    ensures var p := ProcessLifecycle(s, 0, [DEPOSIT], 8);
            p.invoices == [Copy(false, true, Transmitted)] && p.events == s.events
  {
    var it := Item(0, Event("200", "t"));
    DepositMatched(s, false);
    assert InRange([it], 1);
    DeliverOneMore(s, {}, [], it, 8);
    assert [] + [it] == [it];
    var p := ProcessEvent(s, 0, it.event, 8);
    assert p.invoices == [Copy(false, true, Transmitted)];
  }

  lemma NothingStuck(s: State)
    requires s.invoices == [Copy(false, true, Transmitted)]
    ensures FlowFallbackBelow(s, 1, 0, None, ReportedNumbers([DEPOSIT]), map[], 8) == s
  {
  }

  lemma DepositedUnpaid(s: State)
    requires Alone(s, Copy(false, true, Transmitting))
    ensures var s' := Apply(s, DoPoll(0, None, [DEPOSIT], map[], 8));
            && s'.invoices == [Copy(false, true, Transmitted)] && s'.events == s.events
  {
    DepositProcessed(s);
    hide ProcessLifecycle, FlowFallbackBelow, Copy;
    NothingStuck(ProcessLifecycle(s, 0, [DEPOSIT], 8));
  }

  /** The payment is missed: a TRANSMITTED invoice without it, and its event spent. Only another event or
      a manual payment can still record it. */
  lemma PaymentMissed()
    ensures var s := Run(EMPTY, Dropping());
            && |s.invoices| == 1 && "evt_1" in s.events
            && s.invoices[0].status == Transmitted && s.invoices[0].paymentDate.None?
  {
    var actions := Dropping();
    UnpaidInTransmission(actions);
    hide Apply, Run, Alone;
    RunNext(actions, 5);
    RunNext(actions, 6);
    RunNext(actions, 7);
    PaymentDropped(Run(EMPTY, actions[..5]), actions[5]);
    DepositedUnpaid(Run(EMPTY, actions[..6]));
    RedeliveryIsNoop(Run(EMPTY, actions[..7]), actions[7]);
    assert actions[..8] == actions;
  }

  // ---------- two cancellations of one invoice ----------

  /** The invoice is cancelled twice and both credit notes are emitted. */
  function CreditingTwice(): seq<Action> {
    Emitting(Generated)
    + [DoCancel(0), DoCancel(0), DoValidate(1, true, "AV-", 3), DoGenerate(1, Generated),
       DoValidate(2, true, "AV-", 3), DoGenerate(2, Generated)]
  }

  const NOTE := CreditNote(ISSUED, 0)

  lemma CancelledTwice(actions: seq<Action>)
    requires actions == CreditingTwice()
    ensures Run(EMPTY, actions[..5]).invoices == [ISSUED, NOTE, NOTE] && Run(EMPTY, actions[..5]).counters == map[]
  {
    assert actions[..3] == Emitting(Generated);
    BeforeGeneration(actions);
    hide Apply, Run;
    RunNext(actions, 2);
    RunNext(actions, 3);
    RunNext(actions, 4);
    GeneratedStep(Run(EMPTY, actions[..2]));
    CancelStep(Run(EMPTY, actions[..3]));
    CancelAgain(Run(EMPTY, actions[..4]));
  }

  lemma CancelAgain(s: State)
    requires s.invoices == [ISSUED, NOTE]
    ensures var s' := Apply(s, DoCancel(0)); s'.invoices == [ISSUED, NOTE, NOTE] && s'.counters == s.counters
  {
  }

  /** Row 0 in full, credit notes 1 and 2 in these statuses. */
  predicate Crediting(s: State, original: Status, first: Status, second: Status) {
    && |s.invoices| == 3
    && s.invoices[0].status == original && s.invoices[0].total == Some(12000)
    && (forall i | 1 <= i < 3 :: s.invoices[i].preceding == Some(0) && s.invoices[i].total == Some(12000))
    && s.invoices[1].status == first && s.invoices[2].status == second
    && s.invoices[2].data.gross == Some(12000)
  }

  lemma FirstNoteAdmitted(s: State)
    requires s.invoices == [ISSUED, NOTE, NOTE] && s.counters == map[]
    ensures NumberFor(s, NOTE, "AV-", 3) == Numbers.Print("AV-", 1, 3)
    ensures Admits(s.invoices, 1, Numbered(NOTE, Numbers.Print("AV-", 1, 3)))
  {
    var number := Numbers.Print("AV-", 1, 3);
    assert number[0] == 'A' && "N1"[0] == 'N';
    hide Numbers.Print;
  }

  lemma NotesValidated(s: State)
    requires s.invoices == [ISSUED, NOTE, NOTE] && s.counters == map[]
    ensures var s1 := Apply(s, DoValidate(1, true, "AV-", 3));
            && Crediting(s1, Validated, Processing, Draft)
            && s1.invoices[0] == ISSUED && s1.invoices[2] == NOTE && s1.invoices[1].data.gross == Some(12000)
            && s1.invoices[1].number == Numbers.Print("AV-", 1, 3) && s1.invoices[1].supplier == NOTE.supplier
            && s1.invoices[1].externalId.None? && s1.counters == map[Series(0, "AV-") := 1]
  {
    FirstNoteAdmitted(s);
    hide Numbers.Print, NumberFor, Admits;
  }

  lemma FirstNoteEmitted(s: State)
    requires Crediting(s, Validated, Processing, Draft) && s.invoices[1].data.gross == Some(12000)
    ensures var s' := Apply(s, DoGenerate(1, Generated));
            && Crediting(s', Cancelled, Validated, Draft) && s'.counters == s.counters
            && s'.invoices[0] == s.invoices[0].(status := Cancelled) && s'.invoices[2] == s.invoices[2]
            && s'.invoices[1] == s.invoices[1].(status := Validated)
  {
  }

  lemma SecondNoteAdmitted(s: State)
    requires |s.invoices| == 3 && s.counters == map[Series(0, "AV-") := 1]
    requires s.invoices[0] == ISSUED.(status := Cancelled) && s.invoices[2] == NOTE
    requires s.invoices[1].number == Numbers.Print("AV-", 1, 3) && s.invoices[1].externalId.None?
    ensures NumberFor(s, NOTE, "AV-", 3) == Numbers.Print("AV-", 2, 3)
    ensures Admits(s.invoices, 2, Numbered(NOTE, Numbers.Print("AV-", 2, 3)))
  {
    var number := Numbers.Print("AV-", 2, 3);
    assert number[0] == 'A' && "N1"[0] == 'N';
    if number == Numbers.Print("AV-", 1, 3) {
      Numbers.SamePrefixInjective("AV-", 2, 3, 1, 3);
    }
    hide Numbers.Print;
  }

  lemma SecondNoteValidated(s: State)
    requires Crediting(s, Cancelled, Validated, Draft) && s.counters == map[Series(0, "AV-") := 1]
    requires s.invoices[0] == ISSUED.(status := Cancelled) && s.invoices[2] == NOTE
    requires s.invoices[1].number == Numbers.Print("AV-", 1, 3) && s.invoices[1].externalId.None?
    ensures Crediting(Apply(s, DoValidate(2, true, "AV-", 3)), Cancelled, Validated, Processing)
  {
    SecondNoteAdmitted(s);
    hide Numbers.Print, NumberFor, Admits;
  }

  /** An invoice is credited in full twice. */
  lemma CreditedInFullTwice()
    ensures !Always(Overcrediting.CreditedOnce, CreditingTwice())
  {
    var actions := CreditingTwice();
    CancelledTwice(actions);
    hide Apply, Run;
    RunNext(actions, 5);
    RunNext(actions, 6);
    RunNext(actions, 7);
    NotesValidated(Run(EMPTY, actions[..5]));
    FirstNoteEmitted(Run(EMPTY, actions[..6]));
    SecondNoteValidated(Run(EMPTY, actions[..7]));
    SecondNoteOvercredits(Run(EMPTY, actions[..8]));
    Overcrediting.CreditedOnceIff(actions);
  }

  lemma SecondNoteOvercredits(s: State)
    requires Crediting(s, Cancelled, Validated, Processing)
    ensures Overcrediting.Overcredits(s, DoGenerate(2, Generated))
  {
    assert Cancellation.Credits(s, 0, 1);
  }
}
