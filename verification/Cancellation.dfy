/** When a cancelled invoice is matched by a credit note that was really issued. */
module Cancellation {
  import opened Wrappers
  import opened StateMachine
  import opened Records
  import opened InvoiceService
  import opened Tasks
  import opened Runs
  import opened Soundness
  import opened Steps
  import opened History

  /** The log names credit note `c` as the reason `id` was cancelled. */
  predicate NamedBy(logs: seq<Log>, id: Id, c: Id) {
    StatusChange(id, Validated, Cancelled, CreditNoteValidated(c)) in logs
    || StatusChange(id, Paid, Cancelled, CreditNoteValidated(c)) in logs
  }

  /** `c` is a credit note of `id`, is emitted, and carries the same gross total. */
  predicate Credits(s: State, id: Id, c: Id)
    requires id < |s.invoices|
  {
    && c < |s.invoices|
    && s.invoices[c].preceding == Some(id)
    && Settled(s.invoices[c].status)
    && s.invoices[c].total.Some? && s.invoices[c].total == s.invoices[id].total
  }

  ghost predicate Backed(s: State) {
    forall id | 0 <= id < |s.invoices| && s.invoices[id].status == Cancelled ::
      exists c :: NamedBy(s.logs, id, c) && Credits(s, id, c)
  }

  /** The generation of a credit note is interrupted right after it cancelled its original. */
  predicate TakesBack(s: State, a: Action) {
    Crashes(s, a) && Cancels(s, a.id)
  }

  lemma {:induction false} InTrail(logs: seq<Log>, l: Log)
    requires l in logs && l.StatusChange?
    ensures Link(l.from, l.to) in Trail(logs, l.id)
  {
    if logs[|logs| - 1] != l {
      InTrail(logs[..|logs| - 1], l);
    }
  }

  /** Only a cancelled invoice is named in a cancelling row. */
  lemma NamedIsCancelled(s: State, id: Id, c: Id)
    requires Sound(s) && id < |s.invoices| && NamedBy(s.logs, id, c)
    ensures s.invoices[id].status == Cancelled
  {
    var from :| from in {Validated, Paid} && StatusChange(id, from, Cancelled, CreditNoteValidated(c)) in s.logs;
    InTrail(s.logs, StatusChange(id, from, Cancelled, CreditNoteValidated(c)));
    var trail := Trail(s.logs, id);
    var k :| 0 <= k < |trail| && trail[k] == Link(from, Cancelled);
    ClosingLink(trail, s.invoices[id].status, k);
  }

  /** A credit note keeps crediting, whatever happens. */
  lemma CreditsKept(s: State, s': State, id: Id, c: Id)
    requires id < |s.invoices| && RowsKept(s, s') && s.logs <= s'.logs && s.invoices[id].status == Cancelled
    requires NamedBy(s.logs, id, c) && Credits(s, id, c)
    ensures NamedBy(s'.logs, id, c) && Credits(s', id, c)
  {
    assert RowKept(s.invoices[c], s'.invoices[c]) && RowKept(s.invoices[id], s'.invoices[id]);
    assert forall l | l in s.logs :: l in s'.logs;
  }

  lemma BackedKept(s: State, s': State)
    requires Backed(s) && RowsKept(s, s') && s.logs <= s'.logs && NoneCancelled(s, s')
    ensures Backed(s')
  {
    forall id | 0 <= id < |s'.invoices| && s'.invoices[id].status == Cancelled
      ensures exists c :: NamedBy(s'.logs, id, c) && Credits(s', id, c)
    {
      var c :| NamedBy(s.logs, id, c) && Credits(s, id, c);
      CreditsKept(s, s', id, c);
    }
  }

  /** The state after a credit note cancelled its original, before or without the crash. */
  lemma AutoCancelBacks(s: State, id: Id)
    requires Sound(s) && Backed(s) && id < |s.invoices| && s.invoices[id].status == Processing && Cancels(s, id)
    ensures Backed(GenerateAndValidate(s, id, Generated).after)
  {
    var s' := GenerateAndValidate(s, id, Generated).after;
    var o := s.invoices[id].preceding.value;
    assert RowOk(s.invoices[id], id);
    CancelsStable(s, id);
    GenerateStep(s, id, Generated);
    forall i | 0 <= i < |s'.invoices| && s'.invoices[i].status == Cancelled
      ensures exists c :: NamedBy(s'.logs, i, c) && Credits(s', i, c)
    {
      if i == o {
        assert s'.logs[|s'.logs| - 1] == StatusChange(o, s.invoices[o].status, Cancelled, CreditNoteValidated(id));
        assert NamedBy(s'.logs, o, id) && Credits(s', o, id);
      } else {
        assert s.invoices[i].status == Cancelled;
        var c :| NamedBy(s.logs, i, c) && Credits(s, i, c);
        CreditsKept(s, s', i, c);
      }
    }
  }

  /** A generation that cancels nothing. */
  lemma GenerateNoneCancelled(s: State, id: Id, g: Generation)
    requires Sound(s) && id < |s.invoices|
    requires s.invoices[id].status != Processing || g.GenerateFailed? || !Cancels(s, id)
    ensures NoneCancelled(s, GenerateAndValidate(s, id, g).after)
  {
    if s.invoices[id].status == Processing {
      CancelsStable(s, id);
    }
  }

  lemma StepBacked(s: State, a: Action)
    requires Sound(s) && Backed(s) && !TakesBack(s, a)
    ensures Backed(Apply(s, a))
  {
    StepSound(s, a);
    if a.DoGenerate? && a.id < |s.invoices| {
      hide Backed, Sound, GenerateAndValidate, RowsKept, NoneCancelled, Cancels;
      if s.invoices[a.id].status == Processing && !a.generation.GenerateFailed? && Cancels(s, a.id) {
        AutoCancelBacks(s, a.id);
      } else {
        GenerateNoneCancelled(s, a.id, a.generation);
        BackedKept(s, Apply(s, a));
      }
    } else if !a.DoGenerate? {
      hide Backed, Sound, RowsKept, NoneCancelled, Apply;
      BackedKept(s, Apply(s, a));
    }
  }

  lemma TakenBackLogs(s: State, id: Id)
    requires Sound(s) && id < |s.invoices| && s.invoices[id].status == Processing && Cancels(s, id)
    ensures var s', o := GenerateAndValidate(s, id, Interrupted).after, s.invoices[id].preceding.value;
            && o < id && s'.invoices[id].status == Draft && s'.invoices[o].status == Cancelled
            && s.invoices[o].status in {Validated, Paid}
            && s'.logs == s.logs + [StatusChange(id, Processing, Validated, CeleryTask),
                                    StatusChange(o, s.invoices[o].status, Cancelled, CreditNoteValidated(id)),
                                    StatusChange(id, Validated, Draft, Failure("timeout"))]
  {
    assert RowOk(s.invoices[id], id);
    CancelsStable(s, id);
  }

  lemma UncreditedIsNotBacked(s: State, id: Id)
    requires id < |s.invoices| && s.invoices[id].status == Cancelled
    requires forall c | NamedBy(s.logs, id, c) :: !Credits(s, id, c)
    ensures !Backed(s)
  {
  }

  lemma TakenBackUnbacked(s: State, id: Id)
    requires Sound(s) && id < |s.invoices| && s.invoices[id].status == Processing && Cancels(s, id)
    ensures !Backed(GenerateAndValidate(s, id, Interrupted).after)
  {
    var s' := GenerateAndValidate(s, id, Interrupted).after;
    var o := s.invoices[id].preceding.value;
    TakenBackLogs(s, id);
    hide Sound, GenerateAndValidate;
    forall c | NamedBy(s'.logs, o, c) ensures !Credits(s', o, c) {
      if c != id {
        assert NamedBy(s.logs, o, c);
        NamedIsCancelled(s, o, c);
      }
    }
    GenerateStep(s, id, Interrupted);
    UncreditedIsNotBacked(s', o);
  }

  lemma StepUnbacked(s: State, a: Action)
    requires Sound(s) && TakesBack(s, a)
    ensures !Backed(Apply(s, a))
  {
    hide Sound, Backed, GenerateAndValidate;
    TakenBackUnbacked(s, a.id);
  }

  /** In a run, every cancelled invoice is at every moment matched by an emitted credit note of the
      same gross total, named in its history, if and only if no credit note was interrupted after
      it had cancelled its original. */
  lemma CancelledIsCreditedIff(actions: seq<Action>)
    ensures Always(Backed, actions) <==> Never(TakesBack, actions)
  {
    forall s, a | Sound(s) ensures Sound(Apply(s, a)) {
      StepSound(s, a);
    }
    forall s, a | Sound(s) && Backed(s) ensures Backed(Apply(s, a)) <==> !TakesBack(s, a) {
      if TakesBack(s, a) {
        StepUnbacked(s, a);
      } else {
        StepBacked(s, a);
      }
    }
    AlwaysIffNever(Sound, Backed, TakesBack, actions);
  }

  // ---------- from the cancellation to its effect ----------

  /** The draft `cancel_invoice` creates: the same document, retyped, naming what it credits. */
  lemma CancelDrafts(s: State, id: Id)
    requires Sound(s) && id < |s.invoices| && CancelInvoice(s, id).out == Done
    ensures var s', n := CancelInvoice(s, id).after, |s.invoices|;
            && |s'.invoices| == n + 1 && s'.invoices[..n] == s.invoices && s'.counters == s.counters
            && var note := s'.invoices[n];
               && note.status == Draft && note.number == "" && note.preceding == Some(id) && !note.deleted
               && note.supplier == s.invoices[id].supplier
               && note.total == s.invoices[id].total
               && note.data == s.invoices[id].data.(typeCode := "381", precedingReference := s.invoices[id].number)
               && note.paymentAmount.None?
  {
    assert RowOk(s.invoices[id], id);
  }

  lemma NoteValidated(s: State, n: Id, prefix: string, padding: nat)
    requires n < |s.invoices| && s.invoices[n].status == Draft && s.invoices[n].paymentAmount.None?
    requires ValidateInvoice(s, n, true, prefix, padding).out == Done
    ensures var s' := ValidateInvoice(s, n, true, prefix, padding).after;
            && |s'.invoices| == |s.invoices|
            && (forall i | 0 <= i < |s.invoices| && i != n :: s'.invoices[i] == s.invoices[i])
            && var note := s'.invoices[n];
               && note.status == Processing && note.number != "" && note.preceding == s.invoices[n].preceding
               && note.total == s.invoices[n].data.gross
               && note.data == s.invoices[n].data.(invoiceNumber := note.number)
  {
  }

  lemma NoteGenerated(s: State, n: Id, id: Id)
    requires n < |s.invoices| && id < n && s.invoices[n].status == Processing && s.invoices[n].preceding == Some(id)
    requires s.invoices[n].total == s.invoices[n].data.gross == s.invoices[id].total
    ensures var s' := GenerateAndValidate(s, n, Generated).after;
            && |s'.invoices| == |s.invoices|
            && s'.invoices[n] == s.invoices[n].(status := Validated)
            && s'.invoices[id].status == if s.invoices[id].status in {Validated, Paid} && s.invoices[id].total.Some?
                                         then Cancelled else s.invoices[id].status
  {
  }

  /** A cancellation followed through: once its credit note is numbered and generated as drafted, the
      credit note is issued under its own number, naming the number it credits, and the original is
      cancelled if and only if it was VALIDATED or PAID and has a gross total. An invoice already
      with the platform can be credited too, but keeps its status. */
  lemma CancelledThroughIff(s: State, id: Id, prefix: string, padding: nat)
    requires Sound(s) && id < |s.invoices| && CancelInvoice(s, id).out == Done
    requires ValidateInvoice(CancelInvoice(s, id).after, |s.invoices|, true, prefix, padding).out == Done
    ensures var v := ValidateInvoice(CancelInvoice(s, id).after, |s.invoices|, true, prefix, padding).after;
            var s', n := GenerateAndValidate(v, |s.invoices|, Generated).after, |s.invoices|;
            && |s'.invoices| == n + 1
            && (s'.invoices[id].status == Cancelled
                <==> s.invoices[id].status in {Validated, Paid} && s.invoices[id].total.Some?)
            && (s'.invoices[id].status != Cancelled ==> s'.invoices[id].status == s.invoices[id].status)
            && s'.invoices[n].status == Validated && s'.invoices[n].number != ""
            && s'.invoices[n].number != s.invoices[id].number
            && s'.invoices[n].data.precedingReference == s.invoices[id].number
            && s'.invoices[n].data.gross == s.invoices[id].data.gross
  {
    var n, c := |s.invoices|, CancelInvoice(s, id).after;
    var e := ValidateInvoice(c, n, true, prefix, padding);
    CancelDrafts(s, id);
    assert c.invoices[id] == c.invoices[..n][id] == s.invoices[id];
    assert s.invoices[id].total == s.invoices[id].data.gross by { assert RowOk(s.invoices[id], id); }
    assert s.invoices[id].status in {Validated, Transmitted, Accepted, Paid};
    NoteValidated(c, n, prefix, padding);
    OwnNumber(c, n, id, prefix, padding);
    NoteGenerated(e.after, n, id);
  }

  lemma OwnNumber(c: State, n: Id, id: Id, prefix: string, padding: nat)
    requires n < |c.invoices| && id < |c.invoices| && id != n && c.invoices[n].status == Draft
    requires c.invoices[n].supplier == c.invoices[id].supplier
    requires ValidateInvoice(c, n, true, prefix, padding).out == Done
    ensures var s' := ValidateInvoice(c, n, true, prefix, padding).after;
            s'.invoices[n].number != c.invoices[id].number
  {
    var inv := c.invoices[n];
    var number := NumberFor(c, inv, prefix, padding);
    assert Compatible(Numbered(inv, number), c.invoices[id]);
  }
}
