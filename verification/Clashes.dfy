/** A number taken by hand stops the series that would print it. */
module Clashes {
  import opened StateMachine
  import opened Records
  import opened InvoiceService
  import opened Runs
  import opened Soundness
  import opened Steps
  import opened Numbering
  import Numbers

  /** The number a series would issue next. */
  function NextNumber(s: State, key: Series, padding: nat): string {
    Numbers.Print(key.prefix, LastNumber(s.counters, key) + 1, padding)
  }

  /** Some invoice of the supplier carries the number. */
  predicate Taken(s: State, supplier: nat, number: string) {
    exists j | 0 <= j < |s.invoices| :: s.invoices[j].supplier.id == supplier && s.invoices[j].number == number
  }

  /** Validating a draft without number is rolled back if and only if the next number is taken; the
      counter is rolled back too, so the next attempt meets the same number. */
  lemma ClashIff(s: State, id: Id, prefix: string, padding: nat)
    requires Sound(s) && Visible(s, id) && s.invoices[id].status == Draft && s.invoices[id].number == ""
    ensures var key, e := SeriesOf(s.invoices[id], prefix), ValidateInvoice(s, id, true, prefix, padding);
            && (e.out == IntegrityError <==> Taken(s, key.supplier, NextNumber(s, key, padding)))
            && (e.out == IntegrityError ==> e.after == s)
            && (e.out != IntegrityError ==> e.out == Done)
  {
    var inv := s.invoices[id];
    var number := NumberFor(s, inv, prefix, padding);
    assert number == NextNumber(s, SeriesOf(inv, prefix), padding) && number != "";
    forall j | 0 <= j < |s.invoices| && j != id
      ensures Compatible(Numbered(inv, number), s.invoices[j])
         <==> !(s.invoices[j].supplier.id == inv.supplier.id && s.invoices[j].number == number)
    {
      assert Compatible(inv, s.invoices[j]);
    }
  }

  /** An invoice of the supplier, emitted, carries the next number of the series. */
  ghost predicate Blocked(s: State, key: Series, padding: nat) {
    exists j | 0 <= j < |s.invoices| ::
      Settled(s.invoices[j].status) && s.invoices[j].supplier.id == key.supplier
      && s.invoices[j].number == NextNumber(s, key, padding)
  }

  lemma BlockedKept(s: State, s': State, key: Series, padding: nat)
    requires Blocked(s, key, padding) && RowsKept(s, s')
    requires LastNumber(s'.counters, key) == LastNumber(s.counters, key)
    ensures Blocked(s', key, padding)
  {
    var j :| 0 <= j < |s.invoices| && Settled(s.invoices[j].status) && s.invoices[j].supplier.id == key.supplier
             && s.invoices[j].number == NextNumber(s, key, padding);
    assert RowKept(s.invoices[j], s'.invoices[j]);
  }

  /** The step prints numbers of the series with this padding only. */
  predicate Padded(a: Action, key: Series, padding: nat) {
    a.DoValidate? && a.prefix == key.prefix ==> a.padding == padding
  }

  /** A blocked series moves neither its counter nor its ledger. */
  lemma BlockedIssuesNone(s: State, a: Action, key: Series, padding: nat)
    requires Sound(s) && Blocked(s, key, padding) && Padded(a, key, padding) && a.DoValidate? && Visible(s, a.id)
    ensures LastNumber(Apply(s, a).counters, key) == LastNumber(s.counters, key)
    ensures forall e | e in Issued(s, a) :: e.key != key
  {
    var inv := s.invoices[a.id];
    if inv.status == Draft && inv.number == "" && SeriesOf(inv, a.prefix) == key {
      ClashIff(s, a.id, a.prefix, a.padding);
    }
  }

  lemma BlockedStep(s: State, a: Action, key: Series, padding: nat)
    requires Sound(s) && Blocked(s, key, padding) && Padded(a, key, padding)
    ensures Blocked(Apply(s, a), key, padding)
    ensures LastNumber(Apply(s, a).counters, key) == LastNumber(s.counters, key)
    ensures forall e | e in Issued(s, a) :: e.key != key
  {
    StepSound(s, a);
    if a.DoValidate? && Visible(s, a.id) {
      BlockedIssuesNone(s, a, key, padding);
    }
    hide Sound, RowsKept, NoneCancelled, NoneEmitted, Appended, Blocked, ValidateInvoice;
    BlockedKept(s, Apply(s, a), key, padding);
  }

  /** Once the next number of a series is carried by an emitted invoice, no continuation of the run
      issues another number in that series as long as its padding stays. */
  lemma {:induction false} SeriesStopped(before: seq<Action>, after: seq<Action>, key: Series, padding: nat)
    requires Blocked(Run(EMPTY, before), key, padding)
    requires forall a | a in after :: Padded(a, key, padding)
    ensures Blocked(Run(EMPTY, before + after), key, padding)
    ensures LastNumber(Run(EMPTY, before + after).counters, key) == LastNumber(Run(EMPTY, before).counters, key)
    ensures |Ledger(before)| <= |Ledger(before + after)|
    ensures forall j | |Ledger(before)| <= j < |Ledger(before + after)| :: Ledger(before + after)[j].key != key
  {
    hide Apply, Issued, Blocked, Sound;
    if after == [] {
      assert before + after == before;
    } else {
      var n := |after| - 1;
      assert after[n] in after;
      SeriesStopped(before, after[..n], key, padding);
      assert (before + after)[..|before + after| - 1] == before + after[..n];
      RunSound(before + after[..n]);
      BlockedStep(Run(EMPTY, before + after[..n]), after[n], key, padding);
    }
  }
}
