/** Gapless numbering: which numbers a run issued, and to whom. */
module Numbering {
  import opened StateMachine
  import opened Records
  import opened InvoiceService
  import opened Runs
  import opened Soundness
  import opened Steps
  import Numbers

  /** A counter value handed out: counter `n` of `key`, printed with `padding`, to invoice `id`. */
  datatype Issue = Issue(key: Series, n: nat, padding: nat, id: Id)

  function Printed(e: Issue): string {
    Numbers.Print(e.key.prefix, e.n, e.padding)
  }

  /** The number a step issues: a committed validation of an invoice that had none. */
  function Issued(s: State, a: Action): seq<Issue> {
    if a.DoValidate? && Visible(s, a.id) && s.invoices[a.id].number == ""
       && ValidateInvoice(s, a.id, a.partiesOk, a.prefix, a.padding).out == Done
    then
      var key := SeriesOf(s.invoices[a.id], a.prefix);
      [Issue(key, LastNumber(s.counters, key) + 1, a.padding, a.id)]
    else []
  }

  /** All numbers issued by a run, in order. */
  function Ledger(actions: seq<Action>): seq<Issue> {
    if actions == [] then []
    else
      var n := |actions| - 1;
      Ledger(actions[..n]) + Issued(Run(EMPTY, actions[..n]), actions[n])
  }

  function CountKey(ledger: seq<Issue>, key: Series): nat {
    if ledger == [] then 0
    else CountKey(ledger[..|ledger| - 1], key) + if ledger[|ledger| - 1].key == key then 1 else 0
  }

  /** Entry `j` is the next number of its series, and its invoice carries it. */
  predicate EntryOk(s: State, ledger: seq<Issue>, j: nat)
    requires j < |ledger|
  {
    && ledger[j].n == CountKey(ledger[..j], ledger[j].key) + 1
    && ledger[j].id < |s.invoices|
    && s.invoices[ledger[j].id].number == Printed(ledger[j])
  }

  ghost predicate Tidy(s: State, ledger: seq<Issue>) {
    && (forall key :: LastNumber(s.counters, key) == CountKey(ledger, key))
    && (forall j | 0 <= j < |ledger| :: EntryOk(s, ledger, j))
    && (forall i, j | 0 <= i < j < |ledger| :: ledger[i].id != ledger[j].id)
  }

  lemma TidyKept(s: State, s': State, ledger: seq<Issue>)
    requires Tidy(s, ledger) && RowsKept(s, s') && s'.counters == s.counters
    ensures Tidy(s', ledger)
  {
    forall j | 0 <= j < |ledger| ensures EntryOk(s', ledger, j) {
      assert EntryOk(s, ledger, j);
      assert RowKept(s.invoices[ledger[j].id], s'.invoices[ledger[j].id]);
    }
  }

  lemma TidyIssue(s: State, s': State, ledger: seq<Issue>, e: Issue)
    requires Tidy(s, ledger) && RowsKept(s, s')
    requires e.n == LastNumber(s.counters, e.key) + 1 && s'.counters == s.counters[e.key := e.n]
    requires e.id < |s.invoices| && s.invoices[e.id].number == "" && s'.invoices[e.id].number == Printed(e)
    ensures Tidy(s', ledger + [e])
  {
    var ledger' := ledger + [e];
    assert ledger'[..|ledger|] == ledger;
    forall key ensures LastNumber(s'.counters, key) == CountKey(ledger', key) {
      assert LastNumber(s.counters, key) == CountKey(ledger, key);
    }
    assert LastNumber(s.counters, e.key) == CountKey(ledger, e.key);
    forall j | 0 <= j < |ledger'| ensures EntryOk(s', ledger', j) {
      if j < |ledger| {
        assert EntryOk(s, ledger, j) && ledger'[..j] == ledger[..j];
        assert RowKept(s.invoices[ledger[j].id], s'.invoices[ledger[j].id]);
      }
    }
    forall i | 0 <= i < |ledger| ensures ledger[i].id != e.id {
      assert EntryOk(s, ledger, i);
    }
  }

  lemma IssueEffect(s: State, a: Action)
    requires Sound(s) && Issued(s, a) != []
    ensures var e, s' := Issued(s, a)[0], Apply(s, a);
            && Issued(s, a) == [e]
            && e.n == LastNumber(s.counters, e.key) + 1 && s'.counters == s.counters[e.key := e.n]
            && e.id < |s.invoices| && e.id < |s'.invoices|
            && s.invoices[e.id].number == "" && s'.invoices[e.id].number == Printed(e)
  {
    hide Sound, Numbers.Print;
  }

  lemma NoIssueEffect(s: State, a: Action)
    requires Sound(s) && Issued(s, a) == []
    ensures Apply(s, a).counters == s.counters
  {
    StepSound(s, a);
    hide Sound, RowsKept, NoneCancelled, NoneEmitted, Appended, Numbers.Print;
  }

  lemma TidyStep(s: State, a: Action, ledger: seq<Issue>)
    requires Sound(s) && Tidy(s, ledger)
    ensures Tidy(Apply(s, a), ledger + Issued(s, a))
  {
    StepSound(s, a);
    hide Apply, Issued, Sound, RowsKept, NoneCancelled, NoneEmitted, Appended, Tidy, LastNumber;
    if Issued(s, a) == [] {
      NoIssueEffect(s, a);
      assert ledger + Issued(s, a) == ledger;
      TidyKept(s, Apply(s, a), ledger);
    } else {
      IssueEffect(s, a);
      TidyIssue(s, Apply(s, a), ledger, Issued(s, a)[0]);
    }
  }

  lemma {:induction false} RunTidy(actions: seq<Action>)
    ensures Tidy(Run(EMPTY, actions), Ledger(actions))
  {
    if actions != [] {
      var n := |actions| - 1;
      hide Tidy, Sound, Apply, Issued;
      RunTidy(actions[..n]);
      RunSound(actions[..n]);
      TidyStep(Run(EMPTY, actions[..n]), actions[n], Ledger(actions[..n]));
    }
  }

  ghost predicate Consecutive(ledger: seq<Issue>) {
    forall j | 0 <= j < |ledger| :: ledger[j].n == CountKey(ledger[..j], ledger[j].key) + 1
  }

  lemma {:induction false} CountGrows(ledger: seq<Issue>, key: Series, i: nat, j: nat)
    requires i < j <= |ledger|
    ensures CountKey(ledger[..j], key) >= CountKey(ledger[..i], key) + if ledger[i].key == key then 1 else 0
  {
    assert ledger[..j][..j - 1] == ledger[..j - 1];
    if i < j - 1 {
      CountGrows(ledger, key, i, j - 1);
    }
  }

  /** Within a series later entries carry larger values. */
  lemma SeriesIncreasing(ledger: seq<Issue>, i: nat, j: nat)
    requires Consecutive(ledger) && i < j < |ledger| && ledger[i].key == ledger[j].key
    ensures ledger[i].n < ledger[j].n
  {
    CountGrows(ledger, ledger[i].key, i, j);
  }

  /** Every value up to the count of a series is carried by some entry. */
  lemma {:induction false} ValueReached(ledger: seq<Issue>, m: nat, key: Series, n: nat)
    requires Consecutive(ledger) && m <= |ledger| && 1 <= n <= CountKey(ledger[..m], key)
    ensures exists j :: 0 <= j < |ledger| && ledger[j].key == key && ledger[j].n == n
  {
    assert ledger[..m][..m - 1] == ledger[..m - 1];
    if n <= CountKey(ledger[..m - 1], key) {
      ValueReached(ledger, m - 1, key, n);
    } else {
      assert ledger[m - 1].key == key && ledger[m - 1].n == n;
    }
  }

  lemma ValuesExactly(ledger: seq<Issue>, key: Series, n: nat)
    requires Consecutive(ledger)
    ensures 1 <= n <= CountKey(ledger, key)
       <==> exists j :: 0 <= j < |ledger| && ledger[j].key == key && ledger[j].n == n
  {
    assert ledger[..|ledger|] == ledger;
    if 1 <= n <= CountKey(ledger, key) {
      ValueReached(ledger, |ledger|, key, n);
    }
    if j :| 0 <= j < |ledger| && ledger[j].key == key && ledger[j].n == n {
      CountGrows(ledger, key, j, |ledger|);
    }
  }

  lemma RunConsecutive(actions: seq<Action>, key: Series)
    ensures Consecutive(Ledger(actions))
    ensures LastNumber(Run(EMPTY, actions).counters, key) == CountKey(Ledger(actions), key)
  {
    var s, ledger := Run(EMPTY, actions), Ledger(actions);
    RunTidy(actions);
    forall j | 0 <= j < |ledger| ensures ledger[j].n == CountKey(ledger[..j], ledger[j].key) + 1 {
      assert EntryOk(s, ledger, j);
    }
  }

  /** In every run, the numbers of a series that were issued are exactly 1 to its counter. */
  lemma GaplessNumbering(actions: seq<Action>, key: Series, n: nat)
    ensures 1 <= n <= LastNumber(Run(EMPTY, actions).counters, key)
       <==> exists j :: 0 <= j < |Ledger(actions)| && Ledger(actions)[j].key == key && Ledger(actions)[j].n == n
  {
    hide Apply, Issued, Consecutive;
    RunConsecutive(actions, key);
    ValuesExactly(Ledger(actions), key, n);
  }

  /** Each was issued once, and each invoice was issued one number only. */
  lemma IssuedOnce(actions: seq<Action>, i: nat, j: nat)
    requires i < j < |Ledger(actions)|
    ensures var a, b := Ledger(actions)[i], Ledger(actions)[j];
            a.id != b.id && (a.key, a.n) != (b.key, b.n)
  {
    RunTidy(actions);
    RunConsecutive(actions, Ledger(actions)[i].key);
    if Ledger(actions)[i].key == Ledger(actions)[j].key {
      SeriesIncreasing(Ledger(actions), i, j);
    }
  }

  /** The invoice a number was issued to still carries it at the end of the run and is not deleted. */
  lemma IssuedIsCarried(actions: seq<Action>, j: nat)
    requires j < |Ledger(actions)|
    ensures var s, e := Run(EMPTY, actions), Ledger(actions)[j];
            e.id < |s.invoices| && !s.invoices[e.id].deleted && s.invoices[e.id].number == Printed(e)
  {
    var s, e := Run(EMPTY, actions), Ledger(actions)[j];
    RunTidy(actions);
    RunSound(actions);
    assert EntryOk(s, Ledger(actions), j);
    assert RowOk(s.invoices[e.id], e.id);
  }

  /** In every run no two invoices of a supplier share a number, and an emitted invoice is sent out
      under its own number. */
  lemma NumbersUnique(actions: seq<Action>, i: Id, j: Id)
    requires i < |Run(EMPTY, actions).invoices| && j < |Run(EMPTY, actions).invoices|
    ensures var a, b := Run(EMPTY, actions).invoices[i], Run(EMPTY, actions).invoices[j];
            && (i != j && a.number == b.number && a.supplier.id == b.supplier.id ==> a.number == "")
            && (a.status != Draft ==> a.number != "" && a.data.invoiceNumber == a.number)
  {
    RunSound(actions);
    var s := Run(EMPTY, actions);
    assert RowOk(s.invoices[i], i);
    if i != j {
      assert Compatible(s.invoices[i], s.invoices[j]);
    }
  }

  lemma IssuedFromOne(actions: seq<Action>, j: nat)
    requires j < |Ledger(actions)|
    ensures Ledger(actions)[j].n >= 1
  {
    RunConsecutive(actions, Ledger(actions)[j].key);
  }

  /** Neither prefix, with the padding it was printed under, continues the other. */
  predicate Apart(a: Issue, b: Issue) {
    && !Numbers.Continues(a.key.prefix, a.padding, b.key.prefix, b.padding)
    && !Numbers.Continues(b.key.prefix, b.padding, a.key.prefix, a.padding)
  }

  /** The invoice is still with the supplier of the series it was numbered in. */
  predicate Stayed(s: State, e: Issue) {
    e.id < |s.invoices| && s.invoices[e.id].supplier.id == e.key.supplier
  }

  /** Two numbers that a supplier's series issue in a run print differently if neither prefix continues
      the other, and, whatever the prefixes, if the two invoices have stayed with the supplier. */
  lemma PrintedDistinct(actions: seq<Action>, i: nat, j: nat)
    requires i < j < |Ledger(actions)|
    requires Ledger(actions)[i].key.supplier == Ledger(actions)[j].key.supplier
    requires var s, a, b := Run(EMPTY, actions), Ledger(actions)[i], Ledger(actions)[j];
             Apart(a, b) || (Stayed(s, a) && Stayed(s, b))
    ensures Printed(Ledger(actions)[i]) != Printed(Ledger(actions)[j])
  {
    hide Apply, Issued, Run;
    var a, b := Ledger(actions)[i], Ledger(actions)[j];
    IssuedOnce(actions, i, j);
    if Printed(a) == Printed(b) {
      IssuedIsCarried(actions, i);
      IssuedIsCarried(actions, j);
      NumbersUnique(actions, a.id, b.id);
      if a.key.prefix == b.key.prefix {
        Numbers.SamePrefixInjective(a.key.prefix, a.n, a.padding, b.n, b.padding);
      } else {
        IssuedFromOne(actions, i);
        IssuedFromOne(actions, j);
        assert Numbers.Collide(a.key.prefix, a.padding, b.key.prefix, b.padding);
        Numbers.CollideIff(a.key.prefix, a.padding, b.key.prefix, b.padding);
      }
    }
  }
}
