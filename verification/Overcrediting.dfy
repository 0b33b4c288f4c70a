/** When an invoice can be credited in full more than once. */
module Overcrediting {
  import opened Wrappers
  import opened StateMachine
  import opened Records
  import opened Tasks
  import opened Runs
  import opened Soundness
  import opened Steps
  import opened Cancellation

  /** No emitted invoice has two emitted credit notes of its full gross total. */
  ghost predicate CreditedOnce(s: State) {
    forall id: Id, c: Id, d: Id |
      id < |s.invoices| && Settled(s.invoices[id].status) && Credits(s, id, c) && Credits(s, id, d) :: c == d
  }

  /** The step emits row `id`: a generation that succeeds and is not interrupted. */
  predicate Emits(s: State, a: Action) {
    a.DoGenerate? && a.generation.Generated? && a.id < |s.invoices| && s.invoices[a.id].status == Processing
  }

  /** The row is a credit note in full of an emitted invoice that another one credits already. */
  ghost predicate SecondCredit(s: State, id: Id)
    requires id < |s.invoices|
  {
    var note := s.invoices[id];
    && note.preceding.Some? && note.preceding.value < |s.invoices|
    && var o := note.preceding.value;
       && Settled(s.invoices[o].status)
       && note.total.Some? && note.total == s.invoices[o].total
       && exists c: Id :: c != id && Credits(s, o, c)
  }

  /** The row is still being processed and has two emitted credit notes in full, imported beforehand. */
  ghost predicate CreditedTwice(s: State, id: Id)
    requires id < |s.invoices|
  {
    exists c: Id, d: Id :: c != d && Credits(s, id, c) && Credits(s, id, d)
  }

  ghost predicate Overcredits(s: State, a: Action) {
    Emits(s, a) && (SecondCredit(s, a.id) || CreditedTwice(s, a.id))
  }

  lemma SameCredits(s: State, s': State, id: Id, c: Id)
    requires RowsKept(s, s') && id < |s.invoices| && c < |s.invoices|
    requires Settled(s.invoices[c].status) && s.invoices[id].status != Draft
    ensures Credits(s', id, c) <==> Credits(s, id, c)
  {
    assert RowKept(s.invoices[c], s'.invoices[c]) && RowKept(s.invoices[id], s'.invoices[id]);
  }

  lemma NoneEmittedKeeps(s: State, s': State)
    requires CreditedOnce(s) && RowsKept(s, s') && NoneEmitted(s, s')
    ensures CreditedOnce(s')
  {
    forall id: Id, c: Id, d: Id |
      id < |s'.invoices| && Settled(s'.invoices[id].status) && Credits(s', id, c) && Credits(s', id, d)
      ensures c == d
    {
      assert Settled(s.invoices[id].status) && Settled(s.invoices[c].status) && Settled(s.invoices[d].status);
      SameCredits(s, s', id, c);
      SameCredits(s, s', id, d);
    }
  }

  /** A generation that is none or is undone emits nothing. */
  lemma UnfinishedEmitsNone(s: State, id: Id, g: Generation)
    requires Sound(s) && id < |s.invoices| && (s.invoices[id].status != Processing || !g.Generated?)
    ensures NoneEmitted(s, GenerateAndValidate(s, id, g).after)
  {
    if s.invoices[id].status == Processing && g.Interrupted? {
      assert RowOk(s.invoices[id], id);
    }
  }

  /** What the rows say once row `id` counts as emitted too. */
  ghost predicate Grown(s: State, s': State, id: Id) {
    && |s'.invoices| == |s.invoices|
    && (forall i | 0 <= i < |s.invoices| ::
          Settled(s'.invoices[i].status) <==> i == id || Settled(s.invoices[i].status))
    && (forall i | 0 <= i < |s.invoices| :: s'.invoices[i].total == s.invoices[i].total
                                            && s'.invoices[i].preceding == s.invoices[i].preceding)
  }

  /** A finished one emits its row and no other. */
  lemma FinishedEmitsOne(s: State, id: Id)
    requires Sound(s) && id < |s.invoices| && s.invoices[id].status == Processing
    ensures Grown(s, GenerateAndValidate(s, id, Generated).after, id)
  {
    assert RowOk(s.invoices[id], id);
  }

  lemma CreditsGrown(s: State, s': State, id: Id, o: Id, c: Id)
    requires Grown(s, s', id) && o < |s.invoices|
    ensures Credits(s', o, c) <==> Credits(s, o, c)
                                   || (c == id && id < |s.invoices| && s.invoices[id].preceding == Some(o)
                                       && s.invoices[id].total.Some? && s.invoices[id].total == s.invoices[o].total)
  {
  }

  lemma GrownOnce(s: State, s': State, id: Id)
    requires Sound(s) && id < |s.invoices| && !Settled(s.invoices[id].status) && Grown(s, s', id) && CreditedOnce(s)
    ensures CreditedOnce(s') <==> !SecondCredit(s, id) && !CreditedTwice(s, id)
  {
    hide Credits;
    assert RowOk(s.invoices[id], id);
    forall o, c | 0 <= o < |s.invoices|
      ensures Credits(s', o, c) <==> Credits(s, o, c)
                                     || (c == id && s.invoices[id].preceding == Some(o)
                                         && s.invoices[id].total.Some? && s.invoices[id].total == s.invoices[o].total)
    {
      CreditsGrown(s, s', id, o, c);
    }
    if SecondCredit(s, id) {
      var o := s.invoices[id].preceding.value;
      var c :| c != id && Credits(s, o, c);
      assert Credits(s', o, id) && Credits(s', o, c) && Settled(s'.invoices[o].status);
    }
    if CreditedTwice(s, id) {
      var c, d :| c != d && Credits(s, id, c) && Credits(s, id, d);
      assert Credits(s', id, c) && Credits(s', id, d) && Settled(s'.invoices[id].status);
    }
  }

  lemma StepCreditsOnce(s: State, a: Action)
    requires Sound(s) && CreditedOnce(s)
    ensures CreditedOnce(Apply(s, a)) <==> !Overcredits(s, a)
  {
    StepSound(s, a);
    hide Sound, CreditedOnce, RowsKept, NoneEmitted, NoneCancelled, Appended, Grown;
    hide SecondCredit, CreditedTwice, GenerateAndValidate;
    if Emits(s, a) {
      FinishedEmitsOne(s, a.id);
      GrownOnce(s, Apply(s, a), a.id);
    } else {
      if a.DoGenerate? && a.id < |s.invoices| {
        UnfinishedEmitsNone(s, a.id, a.generation);
      }
      assert NoneEmitted(s, Apply(s, a)) by {
        if a.DoGenerate? && a.id >= |s.invoices| {
          NothingEmitted(s);
        }
      }
      NoneEmittedKeeps(s, Apply(s, a));
    }
  }

  lemma NothingEmitted(s: State)
    ensures NoneEmitted(s, s)
  {
  }

  /** In a run, no emitted invoice ever has two emitted credit notes in full if and only if no step emits
      one beside another, nor an invoice that two imported ones credit. `cancel_invoice` checks neither. */
  lemma CreditedOnceIff(actions: seq<Action>)
    ensures Always(CreditedOnce, actions) <==> Never(Overcredits, actions)
  {
    hide CreditedOnce, Overcredits;
    forall s, a | Sound(s) ensures Sound(Apply(s, a)) {
      StepSound(s, a);
    }
    forall s, a | Sound(s) && CreditedOnce(s) ensures CreditedOnce(Apply(s, a)) <==> !Overcredits(s, a) {
      StepCreditsOnce(s, a);
    }
    assert CreditedOnce(EMPTY) by { NoneYet(); }
    AlwaysIffNever(Sound, CreditedOnce, Overcredits, actions);
  }

  lemma NoneYet()
    ensures CreditedOnce(EMPTY)
  {
  }
}
