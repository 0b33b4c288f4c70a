/** What the audit log and the rows say about any run from the empty database. */
module History {
  import opened StateMachine
  import opened Records
  import opened InvoiceService
  import opened Tasks
  import opened Runs
  import opened Soundness
  import opened Steps

  /** The step in which the catch-all handler runs after VALIDATED was saved. */
  predicate Crashes(s: State, a: Action) {
    && a.DoGenerate? && a.generation.Interrupted?
    && a.id < |s.invoices| && s.invoices[a.id].status == Processing
  }

  ghost predicate AllInTable(logs: seq<Log>) {
    forall k | 0 <= k < |logs| :: InTable(logs[k])
  }

  lemma AppendedInTable(logs: seq<Log>, logs': seq<Log>)
    requires Appended(logs, logs')
    ensures AllInTable(logs') <==> AllInTable(logs)
  {
    assert forall k | 0 <= k < |logs| :: logs[k] == logs'[k];
  }

  lemma InterruptedLast(s: State, id: Id)
    requires Sound(s) && id < |s.invoices| && s.invoices[id].status == Processing
    ensures var logs := GenerateAndValidate(s, id, Interrupted).after.logs;
            logs != [] && logs[|logs| - 1] == StatusChange(id, Validated, Draft, Failure("timeout"))
  {
    ValidatedStep(s, id);
    hide Sound, CheckAutoCancel, Appended, RowsKept, GenerateKept, NoneCancelled, Cancels;
  }

  lemma LeavesTable(logs: seq<Log>)
    requires logs != [] && logs[|logs| - 1].StatusChange?
    requires logs[|logs| - 1].from == Validated && logs[|logs| - 1].to == Draft
    ensures !AllInTable(logs)
  {
    assert !InTable(logs[|logs| - 1]);
  }

  lemma GenerateInTable(s: State, id: Id, g: Generation)
    requires Sound(s) && id < |s.invoices| && s.invoices[id].status == Processing
    ensures var s' := GenerateAndValidate(s, id, g).after;
            if g.Interrupted? then !AllInTable(s'.logs) else AllInTable(s'.logs) <==> AllInTable(s.logs)
  {
    hide Sound, CheckAutoCancel, HandleFactpulseError, Appended, RowsKept, AllInTable, NoneCancelled;
    if g.Interrupted? {
      InterruptedLast(s, id);
      LeavesTable(GenerateAndValidate(s, id, g).after.logs);
    } else {
      if g.GenerateFailed? {
        FailedOrdinary(s, id, g.kind);
      } else {
        ValidatedStep(s, id);
      }
      AppendedInTable(s.logs, GenerateAndValidate(s, id, g).after.logs);
    }
  }

  lemma StepInTable(s: State, a: Action)
    requires Sound(s)
    ensures AllInTable(Apply(s, a).logs) <==> AllInTable(s.logs) && !Crashes(s, a)
  {
    StepSound(s, a);
    if !a.DoGenerate? {
      hide Sound, AllInTable, Appended, Apply, RowsKept, NoneCancelled;
      AppendedInTable(s.logs, Apply(s, a).logs);
    } else if a.id < |s.invoices| && s.invoices[a.id].status == Processing {
      hide Sound, AllInTable, GenerateAndValidate;
      GenerateInTable(s, a.id, a.generation);
    }
  }

  /** Every status change of a run is an edge of the table if and only if no generation was
      interrupted after saving VALIDATED. */
  lemma {:induction false} TableRespectedIff(actions: seq<Action>)
    ensures AllInTable(Run(EMPTY, actions).logs) <==> Never(Crashes, actions)
  {
    if actions != [] {
      var n := |actions| - 1;
      hide Sound, AllInTable, Never, Crashes, Apply;
      TableRespectedIff(actions[..n]);
      RunSound(actions[..n]);
      StepInTable(Run(EMPTY, actions[..n]), actions[n]);
      NeverLast(Crashes, actions);
    } else {
      assert Never(Crashes, actions);
    }
  }

  /** In every run the STATUS_CHANGE rows of an invoice chain unbroken from DRAFT to its status. */
  lemma UnbrokenHistory(actions: seq<Action>, id: Id)
    requires id < |Run(EMPTY, actions).invoices|
    ensures Chained(Trail(Run(EMPTY, actions).logs, id), Run(EMPTY, actions).invoices[id].status)
  {
    RunSound(actions);
  }

  /** An invoice with `b` error fallbacks and `c` crashes changes status at most 7 + 2b + 3c times. */
  lemma StatusChangesBounded(actions: seq<Action>, id: Id)
    requires id < |Run(EMPTY, actions).invoices|
    ensures var trail := Trail(Run(EMPTY, actions).logs, id);
            |trail| <= 7 + 2 * Count(trail, FallbackLink) + 3 * Count(trail, CrashLink)
  {
    UnbrokenHistory(actions, id);
    TrailBound(Trail(Run(EMPTY, actions).logs, id), Run(EMPTY, actions).invoices[id].status);
  }

  /** In any run an invoice is marked paid at most once, and cancelled at most once. */
  lemma PaidAndCancelledOnce(actions: seq<Action>, id: Id, i: nat, j: nat)
    requires id < |Run(EMPTY, actions).invoices|
    requires i < j < |Trail(Run(EMPTY, actions).logs, id)|
    ensures var trail := Trail(Run(EMPTY, actions).logs, id);
            !(trail[i].to == trail[j].to && trail[i].to in {Paid, Rejected, Refused, Cancelled})
  {
    UnbrokenHistory(actions, id);
    EntersOnce(Trail(Run(EMPTY, actions).logs, id), Run(EMPTY, actions).invoices[id].status, i, j);
  }

  /** Once emitted, an invoice stays emitted with the same document, to the end of any run;
      a soft-deleted draft stays exactly as it is, and a final status stays. */
  lemma {:induction false} EmittedForever(before: seq<Action>, after: seq<Action>, id: Id)
    requires id < |Run(EMPTY, before).invoices|
    ensures id < |Run(EMPTY, before + after).invoices|
    ensures var a, b := Run(EMPTY, before).invoices[id], Run(EMPTY, before + after).invoices[id];
            && (Settled(a.status) ==> Settled(b.status) && SameDocument(a, b))
            && (a.deleted ==> b == a)
            && (a.number != "" ==> b.number == a.number)
            && a.version <= b.version
            && (Final(a.status) ==> b.status == a.status)
  {
    if after == [] {
      assert before + after == before;
    } else {
      var n := |after| - 1;
      hide Sound, Apply, NoneCancelled, NoneEmitted, Appended;
      EmittedForever(before, after[..n], id);
      assert (before + after)[..|before + after| - 1] == before + after[..n];
      RunSound(before + after[..n]);
      StepSound(Run(EMPTY, before + after[..n]), after[n]);
    }
  }

  /** The step is an update that is accepted. */
  predicate Updates(s: State, a: Action) {
    a.DoUpdate? && Visible(s, a.id) && UpdateInvoice(s, a.id, a.patch).out == Done
  }

  /** Of the updates of an invoice that carry the same version, a run accepts at most one: no user
      overwrites what another has saved since reading. */
  lemma OneUpdatePerVersion(actions: seq<Action>, i: nat, j: nat)
    requires i < j < |actions| && actions[i].DoUpdate? && actions[j].DoUpdate?
    requires actions[i].id == actions[j].id && actions[i].patch.version == actions[j].patch.version
    ensures !(Updates(Run(EMPTY, actions[..i]), actions[i]) && Updates(Run(EMPTY, actions[..j]), actions[j]))
  {
    var s, id := Run(EMPTY, actions[..i]), actions[i].id;
    if Updates(s, actions[i]) {
      var next, between := actions[..i + 1], actions[i + 1..j];
      assert next[..i] == actions[..i] && next + between == actions[..j];
      assert Run(EMPTY, next).invoices[id].version == s.invoices[id].version + 1;
      hide Run, Apply;
      EmittedForever(next, between, id);
    }
  }
}
