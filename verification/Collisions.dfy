/** Which prefixes can make a supplier issue the same number twice. */
module Collisions {
  import opened Wrappers
  import opened StateMachine
  import opened Records
  import opened InvoiceService
  import opened Tasks
  import opened Runs
  import opened Numbering
  import Numbers

  /** Issue `i` of the run is in series `key`, issue `j` in series `key'`, and both print the same. */
  ghost predicate Alike(actions: seq<Action>, i: nat, j: nat, key: Series, padding: nat, key': Series, padding': nat) {
    var ledger := Ledger(actions);
    && i < |ledger| && j < |ledger|
    && ledger[i].key == key && ledger[i].padding == padding
    && ledger[j].key == key' && ledger[j].padding == padding'
    && Printed(ledger[i]) == Printed(ledger[j])
  }

  /** An invoice numbered for supplier `sup`, sent back to DRAFT, and handed to a supplier of its own. */
  function Round(sup: nat, prefix: string, padding: nat, id: Id): seq<Action> {
    [DoCreate(Payload(0, Supplier(sup, ""), Snapshot(None, None, None, "", "380", "", ""), None, "")),
     DoValidate(id, true, prefix, padding),
     DoGenerate(id, GenerateFailed("unavailable")),
     DoUpdate(id, Patch(Some(1), Some(Supplier(sup + 1 + id, "")), None, None))]
  }

  /** Supplier `sup` has no invoice left, each has a supplier of its own. */
  ghost predicate Cleared(s: State, sup: nat) {
    forall i | 0 <= i < |s.invoices| :: s.invoices[i].supplier.id == sup + 1 + i && s.invoices[i].externalId.None?
  }

  lemma CreateLeg(s: State, sup: nat, prefix: string, padding: nat)
    requires Cleared(s, sup)
    ensures var a := Round(sup, prefix, padding, |s.invoices|)[0];
            var s', inv := Apply(s, a), NewInvoice(a.payload);
            s'.invoices == s.invoices + [inv] && s'.counters == s.counters && Issued(s, a) == []
  {
  }

  lemma ValidateLeg(s: State, sup: nat, prefix: string, padding: nat, n: nat, inv: Invoice)
    requires |s.invoices| == n + 1 && s.invoices[n] == inv && Cleared(s.(invoices := s.invoices[..n]), sup)
    requires inv.status == Draft && !inv.deleted && inv.number == "" && inv.supplier == Supplier(sup, "")
    requires inv.externalId.None? && inv.version == 1
    ensures var a, key := Round(sup, prefix, padding, n)[1], Series(sup, prefix);
            var s', last := Apply(s, a), LastNumber(s.counters, key) + 1;
            && |s'.invoices| == n + 1 && s'.invoices[..n] == s.invoices[..n]
            && s'.invoices[n].status == Processing && s'.invoices[n].version == 1 && !s'.invoices[n].deleted
            && s'.invoices[n].supplier == inv.supplier && s'.invoices[n].externalId.None?
            && s'.counters == s.counters[key := last]
            && Issued(s, a) == [Issue(key, last, padding, n)]
  {
    var number := NumberFor(s, inv, prefix, padding);
    forall j | 0 <= j < |s.invoices| && j != n ensures Compatible(Numbered(inv, number), s.invoices[j]) {
      assert s.invoices[..n][j] == s.invoices[j];
    }
  }

  lemma FailLeg(s: State, sup: nat, prefix: string, padding: nat, n: nat)
    requires |s.invoices| == n + 1 && s.invoices[n].status == Processing
    ensures var a := Round(sup, prefix, padding, n)[2];
            var s' := Apply(s, a);
            && s'.invoices == s.invoices[n := Sync(s.invoices[n]).(status := Draft)]
            && s'.counters == s.counters && Issued(s, a) == []
  {
  }

  lemma MoveLeg(s: State, sup: nat, prefix: string, padding: nat, n: nat)
    requires |s.invoices| == n + 1 && Cleared(s.(invoices := s.invoices[..n]), sup)
    requires s.invoices[n].status == Draft && s.invoices[n].version == 1 && !s.invoices[n].deleted
    requires s.invoices[n].externalId.None?
    ensures var a := Round(sup, prefix, padding, n)[3];
            var s' := Apply(s, a);
            Cleared(s', sup) && |s'.invoices| == n + 1 && s'.counters == s.counters && Issued(s, a) == []
  {
    var p := Round(sup, prefix, padding, n)[3].patch;
    forall j | 0 <= j < |s.invoices| && j != n ensures Compatible(Patched(s.invoices[n], p), s.invoices[j]) {
      assert s.invoices[..n][j] == s.invoices[j];
    }
    assert Admits(s.invoices, n, Patched(s.invoices[n], p));
    var s' := Apply(s, Round(sup, prefix, padding, n)[3]);
    forall i | 0 <= i < |s'.invoices|
      ensures s'.invoices[i].supplier.id == sup + 1 + i && s'.invoices[i].externalId.None?
    {
      if i < n {
        assert s.invoices[..n][i] == s'.invoices[i];
      }
    }
  }

  lemma OneMore(actions: seq<Action>, a: Action)
    ensures Run(EMPTY, actions + [a]) == Apply(Run(EMPTY, actions), a)
    ensures Ledger(actions + [a]) == Ledger(actions) + Issued(Run(EMPTY, actions), a)
  {
    hide Apply, Issued;
    assert (actions + [a])[..|actions|] == actions;
  }

  /** A draft of the supplier beside the cleared rows, as it enters the second half of a round. */
  ghost predicate Pending(s: State, s': State) {
    var n := |s.invoices|;
    && |s'.invoices| == n + 1 && s'.invoices[..n] == s.invoices
    && s'.invoices[n].status == Processing && s'.invoices[n].version == 1 && !s'.invoices[n].deleted
    && s'.invoices[n].externalId.None?
  }

  lemma FirstHalf(s: State, sup: nat, prefix: string, padding: nat)
    requires Cleared(s, sup)
    ensures var r, key := Round(sup, prefix, padding, |s.invoices|), Series(sup, prefix);
            var s1, last := Apply(s, r[0]), LastNumber(s.counters, key) + 1;
            && Issued(s, r[0]) == []
            && Pending(s, Apply(s1, r[1])) && Apply(s1, r[1]).counters == s.counters[key := last]
            && Issued(s1, r[1]) == [Issue(key, last, padding, |s.invoices|)]
  {
    var n, r := |s.invoices|, Round(sup, prefix, padding, |s.invoices|);
    CreateLeg(s, sup, prefix, padding);
    var s1 := Apply(s, r[0]);
    assert s1.invoices[..n] == s.invoices;
    StillCleared(s, s1, sup, n);
    hide Apply, Issued, Cleared;
    ValidateLeg(s1, sup, prefix, padding, n, s1.invoices[n]);
  }

  lemma SecondHalf(s: State, s2: State, sup: nat, prefix: string, padding: nat)
    requires Cleared(s, sup) && Pending(s, s2)
    ensures var r := Round(sup, prefix, padding, |s.invoices|);
            var s3 := Apply(s2, r[2]);
            && Issued(s2, r[2]) == [] && Issued(s3, r[3]) == []
            && Cleared(Apply(s3, r[3]), sup) && Apply(s3, r[3]).counters == s2.counters
  {
    var n := |s.invoices|;
    hide Apply, Issued, Cleared;
    FailLeg(s2, sup, prefix, padding, n);
    var s3 := Apply(s2, Round(sup, prefix, padding, n)[2]);
    assert s3.invoices[..n] == s2.invoices[..n];
    StillCleared(s, s3, sup, n);
    MoveLeg(s3, sup, prefix, padding, n);
  }

  lemma FourMore(actions: seq<Action>, r: seq<Action>)
    requires |r| == 4
    ensures var s := Run(EMPTY, actions);
            var s1 := Apply(s, r[0]);
            var s2 := Apply(s1, r[1]);
            var s3 := Apply(s2, r[2]);
            && Run(EMPTY, actions + r) == Apply(s3, r[3])
            && Ledger(actions + r)
               == Ledger(actions) + Issued(s, r[0]) + Issued(s1, r[1]) + Issued(s2, r[2]) + Issued(s3, r[3])
  {
    hide Apply, Issued, Run, Ledger;
    var a1, a2, a3 := actions + [r[0]], actions + [r[0]] + [r[1]], actions + [r[0]] + [r[1]] + [r[2]];
    OneMore(actions, r[0]);
    OneMore(a1, r[1]);
    OneMore(a2, r[2]);
    OneMore(a3, r[3]);
    assert a3 + [r[3]] == actions + r;
  }

  /** A round issues the next number of the series and leaves the supplier without invoices again. */
  lemma RoundIssues(actions: seq<Action>, sup: nat, prefix: string, padding: nat)
    requires Cleared(Run(EMPTY, actions), sup)
    ensures var s, key := Run(EMPTY, actions), Series(sup, prefix);
            var longer, last := actions + Round(sup, prefix, padding, |s.invoices|), LastNumber(s.counters, key) + 1;
            && Cleared(Run(EMPTY, longer), sup)
            && Run(EMPTY, longer).counters == s.counters[key := last]
            && Ledger(longer) == Ledger(actions) + [Issue(key, last, padding, |s.invoices|)]
  {
    hide Apply, Issued, Run, Ledger, Cleared, LastNumber, Pending;
    var s := Run(EMPTY, actions);
    var r := Round(sup, prefix, padding, |s.invoices|);
    FourMore(actions, r);
    FirstHalf(s, sup, prefix, padding);
    SecondHalf(s, Apply(Apply(s, r[0]), r[1]), sup, prefix, padding);
  }

  lemma StillCleared(s: State, s': State, sup: nat, n: nat)
    requires Cleared(s, sup) && n == |s.invoices| <= |s'.invoices| && s'.invoices[..n] == s.invoices
    ensures Cleared(s'.(invoices := s'.invoices[..n]), sup)
  {
  }

  /** A run continued until the counter of a series has moved by `count`. */
  lemma {:induction false} RoundsIssue(actions: seq<Action>, sup: nat, prefix: string, padding: nat, count: nat)
    returns (longer: seq<Action>)
    requires Cleared(Run(EMPTY, actions), sup) && count >= 1
    ensures Cleared(Run(EMPTY, longer), sup)
    ensures var s, key := Run(EMPTY, actions), Series(sup, prefix);
            var last := LastNumber(s.counters, key) + count;
            && Run(EMPTY, longer).counters == s.counters[key := last]
            && Ledger(actions) <= Ledger(longer) && Ledger(actions) != Ledger(longer)
            && var e := Ledger(longer)[|Ledger(longer)| - 1];
               e.key == key && e.n == last && e.padding == padding
  {
    hide Apply, Issued, Run, Ledger, Cleared;
    var before := actions;
    if count > 1 {
      before := RoundsIssue(actions, sup, prefix, padding, count - 1);
    }
    RoundIssues(before, sup, prefix, padding);
    longer := before + Round(sup, prefix, padding, |Run(EMPTY, before).invoices|);
  }

  lemma CollisionReached(sup: nat, prefix: string, n: nat, padding: nat, prefix': string, n': nat, padding': nat)
    returns (actions: seq<Action>, i: nat, j: nat)
    requires prefix != prefix' && n >= 1 && n' >= 1
    requires Numbers.Print(prefix, n, padding) == Numbers.Print(prefix', n', padding')
    ensures Alike(actions, i, j, Series(sup, prefix), padding, Series(sup, prefix'), padding')
  {
    hide Apply, Issued;
    assert Cleared(Run(EMPTY, []), sup);
    var first := RoundsIssue([], sup, prefix, padding, n);
    actions := RoundsIssue(first, sup, prefix', padding', n');
    i, j := |Ledger(first)| - 1, |Ledger(actions)| - 1;
    assert Ledger(actions)[i] == Ledger(first)[i];
  }

  /** Some run makes a supplier issue the same number in two series if and only if one prefix continues
      the other: a draft that kept its number is handed to another supplier in between. */
  lemma CollisionReachableIff(sup: nat, prefix: string, padding: nat, prefix': string, padding': nat)
    requires prefix != prefix'
    ensures (exists actions, i, j :: Alike(actions, i, j, Series(sup, prefix), padding, Series(sup, prefix'), padding'))
       <==> Numbers.Continues(prefix, padding, prefix', padding')
            || Numbers.Continues(prefix', padding', prefix, padding)
  {
    hide Ledger, Numbers.Continues, Numbers.Print;
    Numbers.CollideIff(prefix, padding, prefix', padding');
    if actions, i, j :| Alike(actions, i, j, Series(sup, prefix), padding, Series(sup, prefix'), padding') {
      IssuedFromOne(actions, i);
      IssuedFromOne(actions, j);
      assert Numbers.Collide(prefix, padding, prefix', padding');
    }
    if Numbers.Collide(prefix, padding, prefix', padding') {
      var n: nat, n': nat :|
        n >= 1 && n' >= 1 && Numbers.Print(prefix, n, padding) == Numbers.Print(prefix', n', padding');
      var actions, i, j := CollisionReached(sup, prefix, n, padding, prefix', n', padding');
    }
  }
}
