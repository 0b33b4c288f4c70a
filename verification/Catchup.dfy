/** The catch-up of Stripe documents the webhooks did not deliver. */
module Catchup {
  import opened Wrappers
  import opened Records
  import opened InvoiceService
  import opened Payments
  import opened Store

  /** A listed Stripe object; `credited` is the invoice a credit note refers to. */
  datatype Doc = Doc(id: string, created: int, status: string, payload: Payload, credited: string)

  const FINALIZED_STATUSES := {"open", "paid", "uncollectible"}

  // ---------- listing ----------

  function Matching(docs: seq<Doc>, p: Doc -> bool): (r: seq<Doc>)
    ensures forall d :: d in r <==> d in docs && p(d)
  {
    if docs == [] then []
    else (if p(docs[0]) then [docs[0]] else []) + Matching(docs[1..], p)
  }

  /** The listing up to the first object older than the threshold. */
  function Recent(docs: seq<Doc>, threshold: int): (r: seq<Doc>)
    ensures forall d | d in r :: d in docs && d.created >= threshold
  {
    if docs == [] || docs[0].created < threshold then []
    else [docs[0]] + Recent(docs[1..], threshold)
  }

  /** No recent object is listed after an older one. */
  predicate RecentFirst(docs: seq<Doc>, threshold: int) {
    forall i, j | 0 <= i < j < |docs| :: docs[i].created < threshold ==> docs[j].created < threshold
  }

  predicate NewestFirst(docs: seq<Doc>) {
    forall i, j | 0 <= i < j < |docs| :: docs[i].created >= docs[j].created
  }

  function IsRecent(threshold: int): Doc -> bool {
    (d: Doc) => d.created >= threshold
  }

  lemma RecentFirstTail(docs: seq<Doc>, threshold: int)
    requires docs != [] && docs[0].created >= threshold
    ensures RecentFirst(docs, threshold) <==> RecentFirst(docs[1..], threshold)
  {
    if RecentFirst(docs[1..], threshold) {
      forall i, j | 0 <= i < j < |docs| && docs[i].created < threshold ensures docs[j].created < threshold {
        assert docs[1..][i - 1].created < threshold && docs[1..][j - 1] == docs[j];
      }
    } else {
      var i, j :| 0 <= i < j < |docs[1..]| && docs[1..][i].created < threshold && docs[1..][j].created >= threshold;
      assert docs[i + 1].created < threshold && docs[j + 1].created >= threshold;
    }
  }

  lemma {:induction false} MatchingNone(docs: seq<Doc>, p: Doc -> bool)
    requires forall d | d in docs :: !p(d)
    ensures Matching(docs, p) == []
  {
    if docs != [] {
      assert docs[0] in docs;
      MatchingNone(docs[1..], p);
    }
  }

  /** The early stop returns what a plain filter on `created` would, if and only if the listing
      keeps recent objects before older ones. */
  lemma {:induction false} RecentIsFilterIff(docs: seq<Doc>, threshold: int)
    ensures Recent(docs, threshold) == Matching(docs, IsRecent(threshold)) <==> RecentFirst(docs, threshold)
  {
    if docs != [] {
      if docs[0].created >= threshold {
        RecentIsFilterIff(docs[1..], threshold);
        RecentFirstTail(docs, threshold);
        assert Recent(docs, threshold)[1..] == Recent(docs[1..], threshold);
        assert Matching(docs, IsRecent(threshold))[1..] == Matching(docs[1..], IsRecent(threshold));
      } else if RecentFirst(docs, threshold) {
        MatchingNone(docs, IsRecent(threshold));
      } else {
        var i, j :| 0 <= i < j < |docs| && docs[i].created < threshold && docs[j].created >= threshold;
        assert docs[j] in Matching(docs, IsRecent(threshold));
      }
    }
  }

  /** A newest-first listing does. */
  lemma NewestFirstIsEnough(docs: seq<Doc>, threshold: int)
    requires NewestFirst(docs)
    ensures Recent(docs, threshold) == Matching(docs, IsRecent(threshold))
  {
    RecentIsFilterIff(docs, threshold);
  }

  /** `_recent`, consumed to the end. */
  method ListRecent(docs: seq<Doc>, threshold: int) returns (r: seq<Doc>)
    ensures r == Recent(docs, threshold)
  {
    r := [];
    var i := 0;
    while i < |docs| && docs[i].created >= threshold
      invariant 0 <= i <= |docs|
      invariant Recent(docs, threshold) == r + Recent(docs[i..], threshold)
    {
      r := r + [docs[i]];
      i := i + 1;
    }
  }

  /** Any invoice of the organization has the id, deleted ones included. */
  predicate Known(s: State, org: nat, id: string) {
    exists i | 0 <= i < |s.invoices| :: s.invoices[i].org == org && s.invoices[i].externalId == Some(id)
  }

  /** A live one has it. */
  predicate Live(s: State, org: nat, id: string) {
    exists i | 0 <= i < |s.invoices| :: Imported(s.invoices[i], org, id)
  }

  function Reversed(docs: seq<Doc>): (r: seq<Doc>)
    ensures |r| == |docs| && forall d :: d in r <==> d in docs
  {
    if docs == [] then [] else [docs[|docs| - 1]] + Reversed(docs[..|docs| - 1])
  }

  /** `_unknown`: oldest first. */
  function Unknown(s: State, org: nat, docs: seq<Doc>): seq<Doc> {
    Matching(Reversed(docs), (d: Doc) => !Known(s, org, d.id))
  }

  // ---------- imports ----------

  /** `failed`: an import raised, and the rest of the organization was given up. */
  datatype Outcomes = Outcomes(after: State, imported: nat, failed: bool)

  function ImportDoc(s: State, org: nat, d: Doc, note: bool): Effect {
    var p := d.payload.(org := org);
    if note then ImportCreditNote(s, p, d.id, d.credited) else ImportInvoice(s, p, d.id)
  }

  function ImportAll(s: State, org: nat, docs: seq<Doc>, note: bool): Outcomes {
    if docs == [] then Outcomes(s, 0, false)
    else
      var before, last := ImportAll(s, org, docs[..|docs| - 1], note), docs[|docs| - 1];
      if before.failed then before
      else
        var e := ImportDoc(before.after, org, last, note);
        Outcomes(e.after, before.imported + if e.out == Done then 1 else 0, e.out == IntegrityError)
  }

  function Finalized(docs: seq<Doc>): seq<Doc> {
    Matching(docs, (d: Doc) => d.status in FINALIZED_STATUSES)
  }

  /** `catch_up_organization` once the settings are there: invoices first, then credit notes. */
  function CatchUp(s: State, org: nat, threshold: int, invoices: seq<Doc>, notes: seq<Doc>): Outcomes {
    var first := ImportAll(s, org, Unknown(s, org, Finalized(Recent(invoices, threshold))), false);
    if first.failed then first
    else
      var second := ImportAll(first.after, org, Unknown(first.after, org, Recent(notes, threshold)), true);
      second.(imported := first.imported + second.imported)
  }

  method ImportEach(store: BillingStore, org: nat, docs: seq<Doc>, note: bool) returns (imported: nat, failed: bool)
    modifies store
    ensures Outcomes(store.View(), imported, failed) == ImportAll(old(store.View()), org, docs, note)
  {
    imported, failed := 0, false;
    for i := 0 to |docs|
      invariant !failed && Outcomes(store.View(), imported, false) == ImportAll(old(store.View()), org, docs[..i], note)
    {
      assert docs[..i + 1][..i] == docs[..i];
      assert docs[..i + 1][..|docs[..i + 1]| - 1] == docs[..i];
      var p := docs[i].payload.(org := org);
      var out;
      if note {
        out := store.StripeNote(p, docs[i].id, docs[i].credited);
      } else {
        out := store.StripeInvoice(p, docs[i].id);
      }
      if out == Done {
        imported := imported + 1;
      }
      if out == IntegrityError {
        failed := true;
        StaysFailed(old(store.View()), org, docs, i + 1, note);
        return;
      }
    }
    assert docs[..|docs|] == docs;
  }

  lemma {:induction false} StaysFailed(s: State, org: nat, docs: seq<Doc>, i: nat, note: bool)
    requires i <= |docs| && ImportAll(s, org, docs[..i], note).failed
    ensures ImportAll(s, org, docs, note) == ImportAll(s, org, docs[..i], note)
  {
    if i == |docs| {
      assert docs[..i] == docs;
    } else {
      assert docs[..|docs| - 1][..i] == docs[..i];
      StaysFailed(s, org, docs[..|docs| - 1], i, note);
    }
  }

  method CatchUpOrganization(store: BillingStore, org: nat, threshold: int, invoices: seq<Doc>, notes: seq<Doc>)
    returns (imported: nat, failed: bool)
    modifies store
    ensures Outcomes(store.View(), imported, failed) == CatchUp(old(store.View()), org, threshold, invoices, notes)
  {
    var recent := ListRecent(invoices, threshold);
    var finalized := Matching(recent, (d: Doc) => d.status in FINALIZED_STATUSES);
    var recentNotes := ListRecent(notes, threshold);
    var unknown := Missing(store, org, finalized);
    imported, failed := ImportEach(store, org, unknown, false);
    if failed {
      return;
    }
    unknown := Missing(store, org, recentNotes);
    var more;
    more, failed := ImportEach(store, org, unknown, true);
    imported := imported + more;
  }

  method Missing(store: BillingStore, org: nat, docs: seq<Doc>) returns (r: seq<Doc>)
    ensures r == Unknown(store.View(), org, docs)
  {
    var s := State(store.invoices, store.logs, store.counters, store.events, store.txns);
    r := Matching(Reversed(docs), (d: Doc) => !Known(s, org, d.id));
  }

  // ---------- what a run achieves ----------

  /** Imports only add rows; those there keep their ids and stay live. */
  predicate Grown(s: State, s': State) {
    && |s.invoices| <= |s'.invoices|
    && forall i | 0 <= i < |s.invoices| :: s'.invoices[i] == s.invoices[i]
  }

  lemma ImportDocGrows(s: State, org: nat, d: Doc, note: bool)
    ensures var e := ImportDoc(s, org, d, note);
            && Grown(s, e.after)
            && |e.after.invoices| == |s.invoices| + (if e.out == Done then 1 else 0)
            && (e.out == Done ==> Imported(e.after.invoices[|s.invoices|], org, d.id))
            && (e.out != Done ==> e.after == s)
            && (e.out == Skipped ==> Live(s, org, d.id) || (note && (d.credited == "" || !Live(s, org, d.credited))))
            && (!note && e.out == Skipped ==> Live(s, org, d.id))
  {
    var existing := Newest(s.invoices, inv => Imported(inv, org, d.id));
    if existing.Some? {
      assert Imported(s.invoices[existing.value], org, d.id);
    }
  }

  /** The document is settled: known, or a credit note whose invoice is not there. */
  predicate SettledDoc(s: State, org: nat, d: Doc, note: bool) {
    Known(s, org, d.id) || (note && (d.credited == "" || !Live(s, org, d.credited)))
  }

  lemma KnownGrows(s: State, s': State, org: nat, id: string)
    requires Grown(s, s')
    ensures Known(s, org, id) ==> Known(s', org, id)
    ensures Live(s, org, id) ==> Live(s', org, id)
  {
    if Known(s, org, id) {
      var i :| 0 <= i < |s.invoices| && s.invoices[i].org == org && s.invoices[i].externalId == Some(id);
      assert s'.invoices[i] == s.invoices[i];
    }
    if Live(s, org, id) {
      var i :| 0 <= i < |s.invoices| && Imported(s.invoices[i], org, id);
      assert s'.invoices[i] == s.invoices[i];
    }
  }

  /** No listed credit note has the id of a document another one credits: ids of invoices and of
      credit notes are disjoint at Stripe. */
  predicate Disjoint(docs: seq<Doc>) {
    forall d, e | d in docs && e in docs :: d.credited != e.id
  }

  lemma ImportDocSettles(s: State, org: nat, d: Doc, note: bool)
    requires note ==> d.credited != d.id
    ensures var e := ImportDoc(s, org, d, note); e.out != IntegrityError ==> SettledDoc(e.after, org, d, note)
  {
    ImportDocGrows(s, org, d, note);
    var e := ImportDoc(s, org, d, note);
    if e.out == Done {
      assert Imported(e.after.invoices[|s.invoices|], org, d.id);
    } else if Live(s, org, d.id) {
      var i :| 0 <= i < |s.invoices| && Imported(s.invoices[i], org, d.id);
    }
  }

  /** An import of one document leaves the others settled. */
  lemma SettledKept(s: State, org: nat, x: Doc, d: Doc, note: bool)
    requires SettledDoc(s, org, d, note) && (note ==> d.credited != x.id)
    ensures SettledDoc(ImportDoc(s, org, x, note).after, org, d, note)
  {
    var e := ImportDoc(s, org, x, note);
    ImportDocGrows(s, org, x, note);
    KnownGrows(s, e.after, org, d.id);
  }

  lemma {:induction false} ImportAllSettles(s: State, org: nat, docs: seq<Doc>, note: bool)
    requires note ==> Disjoint(docs)
    ensures var o := ImportAll(s, org, docs, note);
            && Grown(s, o.after)
            && |o.after.invoices| == |s.invoices| + o.imported
            && (!o.failed ==> forall d | d in docs :: SettledDoc(o.after, org, d, note))
  {
    if docs != [] {
      var n := |docs| - 1;
      var before, last := ImportAll(s, org, docs[..n], note), docs[n];
      assert last in docs;
      ImportAllSettles(s, org, docs[..n], note);
      if !before.failed {
        ImportDocGrows(before.after, org, last, note);
        ImportDocSettles(before.after, org, last, note);
        hide ImportDoc, SettledDoc;
        forall d | d in docs[..n] ensures SettledDoc(ImportDoc(before.after, org, last, note).after, org, d, note) {
          SettledKept(before.after, org, last, d, note);
        }
        assert docs == docs[..n] + [last];
      }
    }
  }

  /** A run without failure leaves no recent finalized invoice unknown, and no recent credit note
      whose invoice is there, the invoices of the same run included; it adds as many rows as it counts. */
  lemma CatchUpComplete(s: State, org: nat, threshold: int, invoices: seq<Doc>, notes: seq<Doc>)
    requires Disjoint(notes)
    ensures var o := CatchUp(s, org, threshold, invoices, notes);
            && Grown(s, o.after)
            && |o.after.invoices| == |s.invoices| + o.imported
            && (!o.failed ==>
                  (forall d | d in Finalized(Recent(invoices, threshold)) :: SettledDoc(o.after, org, d, false))
                  && (forall d | d in Recent(notes, threshold) :: SettledDoc(o.after, org, d, true)))
  {
    var listed := Finalized(Recent(invoices, threshold));
    var first := ImportAll(s, org, Unknown(s, org, listed), false);
    ImportAllSettles(s, org, Unknown(s, org, listed), false);
    if !first.failed {
      var recent := Recent(notes, threshold);
      var second := ImportAll(first.after, org, Unknown(first.after, org, recent), true);
      ImportAllSettles(first.after, org, Unknown(first.after, org, recent), true);
      hide ImportAll;
      forall d | d in listed ensures SettledDoc(second.after, org, d, false) {
        KnownGrows(s, second.after, org, d.id);
        KnownGrows(first.after, second.after, org, d.id);
      }
      forall d | d in recent ensures !second.failed ==> SettledDoc(second.after, org, d, true) {
        KnownGrows(first.after, second.after, org, d.id);
      }
    }
  }

  /** Nothing is left to attempt but credit notes that cannot be imported. */
  lemma {:induction false} NothingToImport(s: State, org: nat, docs: seq<Doc>)
    requires forall d | d in docs :: !Known(s, org, d.id) && SettledDoc(s, org, d, true)
    ensures ImportAll(s, org, docs, true) == Outcomes(s, 0, false)
  {
    if docs != [] {
      var n := |docs| - 1;
      assert docs[n] in docs;
      NothingToImport(s, org, docs[..n]);
      NoOriginal(s, org, docs[n]);
    }
  }

  lemma NoOriginal(s: State, org: nat, d: Doc)
    requires !Known(s, org, d.id) && SettledDoc(s, org, d, true)
    ensures ImportDoc(s, org, d, true) == Effect(s, Skipped)
  {
    var original := Newest(s.invoices, inv => Imported(inv, org, d.credited));
    if d.credited != "" && original.Some? {
      assert Live(s, org, d.credited);
    }
  }

  /** An immediate second run on the same listings imports nothing and changes nothing. */
  lemma SecondRunIsNoop(s: State, org: nat, threshold: int, invoices: seq<Doc>, notes: seq<Doc>)
    requires Disjoint(notes) && !CatchUp(s, org, threshold, invoices, notes).failed
    ensures var t := CatchUp(s, org, threshold, invoices, notes).after;
            CatchUp(t, org, threshold, invoices, notes) == Outcomes(t, 0, false)
  {
    var t := CatchUp(s, org, threshold, invoices, notes).after;
    CatchUpComplete(s, org, threshold, invoices, notes);
    var listed := Finalized(Recent(invoices, threshold));
    forall d | d in Reversed(listed) ensures Known(t, org, d.id) {
      assert SettledDoc(t, org, d, false);
    }
    MatchingNone(Reversed(listed), (d: Doc) => !Known(t, org, d.id));
    NothingToImport(t, org, Unknown(t, org, Recent(notes, threshold)));
  }

  // ---------- in which order ----------

  predicate OldestFirst(docs: seq<Doc>) {
    forall i, j | 0 <= i < j < |docs| :: docs[i].created <= docs[j].created
  }

  lemma {:induction false} ReversedOrder(docs: seq<Doc>)
    requires NewestFirst(docs)
    ensures OldestFirst(Reversed(docs))
  {
    if docs != [] {
      var front, last := docs[..|docs| - 1], docs[|docs| - 1];
      ReversedOrder(front);
      forall d | d in Reversed(front) ensures last.created <= d.created {
        var i :| 0 <= i < |front| && front[i] == d;
      }
      AheadOf(last, Reversed(front));
    }
  }

  lemma AheadOf(d: Doc, docs: seq<Doc>)
    requires OldestFirst(docs) && forall e | e in docs :: d.created <= e.created
    ensures OldestFirst([d] + docs)
  {
  }

  lemma {:induction false} MatchingOldestFirst(docs: seq<Doc>, p: Doc -> bool)
    requires OldestFirst(docs)
    ensures OldestFirst(Matching(docs, p))
  {
    if docs != [] {
      MatchingOldestFirst(docs[1..], p);
      if p(docs[0]) {
        forall e | e in Matching(docs[1..], p) ensures docs[0].created <= e.created {
          var i :| 0 <= i < |docs[1..]| && docs[1..][i] == e;
          assert docs[i + 1] == e;
        }
        AheadOf(docs[0], Matching(docs[1..], p));
      }
    }
  }

  lemma {:induction false} MatchingNewestFirst(docs: seq<Doc>, p: Doc -> bool)
    requires NewestFirst(docs)
    ensures NewestFirst(Matching(docs, p))
  {
    if docs != [] {
      MatchingNewestFirst(docs[1..], p);
      forall e | e in Matching(docs[1..], p) ensures docs[0].created >= e.created {
        var i :| 0 <= i < |docs[1..]| && docs[1..][i] == e;
        assert docs[i + 1] == e;
      }
    }
  }

  /** On a newest-first listing the documents attempted come oldest first. */
  lemma UnknownOldestFirst(s: State, org: nat, docs: seq<Doc>)
    requires NewestFirst(docs)
    ensures OldestFirst(Unknown(s, org, docs))
  {
    ReversedOrder(docs);
    MatchingOldestFirst(Reversed(docs), (d: Doc) => !Known(s, org, d.id));
  }

  /** The documents of `docs` that were imported. */
  function DoneDocs(s: State, org: nat, docs: seq<Doc>, note: bool): (r: seq<Doc>)
    ensures forall d | d in r :: d in docs
  {
    if docs == [] then []
    else
      var front, last := docs[..|docs| - 1], docs[|docs| - 1];
      var before := ImportAll(s, org, front, note);
      DoneDocs(s, org, front, note)
      + if !before.failed && ImportDoc(before.after, org, last, note).out == Done then [last] else []
  }

  /** The rows from `first` on are these documents, in this order. */
  predicate RowsAre(rows: seq<Invoice>, first: nat, org: nat, docs: seq<Doc>) {
    && first + |docs| <= |rows|
    && forall k | 0 <= k < |docs| :: Imported(rows[first + k], org, docs[k].id)
  }

  lemma RowsAreStill(s: State, s': State, first: nat, org: nat, docs: seq<Doc>)
    requires RowsAre(s.invoices, first, org, docs) && Grown(s, s')
    ensures RowsAre(s'.invoices, first, org, docs)
  {
  }

  lemma RowAppended(s: State, m: State, org: nat, docs: seq<Doc>, last: Doc, note: bool)
    requires |m.invoices| == |s.invoices| + |docs| && RowsAre(m.invoices, |s.invoices|, org, docs)
    ensures var e := ImportDoc(m, org, last, note);
            var docs' := if e.out == Done then docs + [last] else docs;
            |e.after.invoices| == |s.invoices| + |docs'| && RowsAre(e.after.invoices, |s.invoices|, org, docs')
  {
    hide ImportDoc, Imported;
    ImportDocGrows(m, org, last, note);
  }

  lemma {:induction false} RowsInOrder(s: State, org: nat, docs: seq<Doc>, note: bool)
    ensures var o, done := ImportAll(s, org, docs, note), DoneDocs(s, org, docs, note);
            |o.after.invoices| == |s.invoices| + |done| && RowsAre(o.after.invoices, |s.invoices|, org, done)
  {
    if docs != [] {
      var front, last := docs[..|docs| - 1], docs[|docs| - 1];
      var before, done := ImportAll(s, org, front, note), DoneDocs(s, org, front, note);
      RowsInOrder(s, org, front, note);
      hide ImportDoc, RowsAre;
      RowAppended(s, before.after, org, done, last, note);
      assert done + [] == done;
    }
  }

  lemma {:induction false} DoneOldestFirst(s: State, org: nat, docs: seq<Doc>, note: bool)
    requires OldestFirst(docs)
    ensures OldestFirst(DoneDocs(s, org, docs, note))
  {
    if docs != [] {
      var front, last := docs[..|docs| - 1], docs[|docs| - 1];
      DoneOldestFirst(s, org, front, note);
      hide ImportDoc, ImportAll;
      forall d | d in DoneDocs(s, org, front, note) ensures d.created <= last.created {
        var i :| 0 <= i < |front| && front[i] == d;
      }
    }
  }

  /** One pass over the unknown documents of a newest-first listing. */
  lemma PassInOrder(s: State, org: nat, docs: seq<Doc>, note: bool)
    requires NewestFirst(docs)
    ensures var unknown := Unknown(s, org, docs);
            var o, done := ImportAll(s, org, unknown, note), DoneDocs(s, org, unknown, note);
            && Grown(s, o.after) && |o.after.invoices| == |s.invoices| + |done|
            && RowsAre(o.after.invoices, |s.invoices|, org, done) && OldestFirst(done)
            && forall d | d in done :: d in docs
  {
    hide ImportAll, DoneDocs, OldestFirst, NewestFirst, RowsAre, Grown;
    UnknownOldestFirst(s, org, docs);
    RowsInOrder(s, org, Unknown(s, org, docs), note);
    DoneOldestFirst(s, org, Unknown(s, org, docs), note);
    ImportAllGrows(s, org, Unknown(s, org, docs), note);
  }

  lemma ListedNewestFirst(docs: seq<Doc>, threshold: int)
    requires NewestFirst(docs)
    ensures NewestFirst(Recent(docs, threshold)) && NewestFirst(Finalized(Recent(docs, threshold)))
  {
    NewestFirstIsEnough(docs, threshold);
    MatchingNewestFirst(docs, IsRecent(threshold));
    MatchingNewestFirst(Recent(docs, threshold), (d: Doc) => d.status in FINALIZED_STATUSES);
  }

  /** The invoices a run imports. */
  function FirstPass(s: State, org: nat, threshold: int, invoices: seq<Doc>): seq<Doc> {
    DoneDocs(s, org, Unknown(s, org, Finalized(Recent(invoices, threshold))), false)
  }

  /** The credit notes it imports after them, none when an invoice raised. */
  function SecondPass(s: State, org: nat, threshold: int, invoices: seq<Doc>, notes: seq<Doc>): seq<Doc> {
    var first := ImportAll(s, org, Unknown(s, org, Finalized(Recent(invoices, threshold))), false);
    if first.failed then [] else DoneDocs(first.after, org, Unknown(first.after, org, Recent(notes, threshold)), true)
  }

  lemma FirstInOrder(s: State, org: nat, threshold: int, invoices: seq<Doc>)
    requires NewestFirst(invoices)
    ensures var done := FirstPass(s, org, threshold, invoices);
            var t := ImportAll(s, org, Unknown(s, org, Finalized(Recent(invoices, threshold))), false).after;
            && |t.invoices| == |s.invoices| + |done| && RowsAre(t.invoices, |s.invoices|, org, done)
            && OldestFirst(done) && forall d | d in done :: d in invoices
  {
    ListedNewestFirst(invoices, threshold);
    hide ImportAll, DoneDocs, OldestFirst, NewestFirst, RowsAre, Unknown, Grown;
    PassInOrder(s, org, Finalized(Recent(invoices, threshold)), false);
  }

  lemma SecondInOrder(s: State, org: nat, threshold: int, invoices: seq<Doc>, notes: seq<Doc>)
    requires NewestFirst(notes)
    ensures var done := SecondPass(s, org, threshold, invoices, notes);
            var t := ImportAll(s, org, Unknown(s, org, Finalized(Recent(invoices, threshold))), false).after;
            var s' := CatchUp(s, org, threshold, invoices, notes).after;
            && Grown(t, s') && |s'.invoices| == |t.invoices| + |done| && RowsAre(s'.invoices, |t.invoices|, org, done)
            && OldestFirst(done) && forall d | d in done :: d in notes
  {
    ListedNewestFirst(notes, threshold);
    hide ImportAll, DoneDocs, NewestFirst, Unknown, Finalized;
    var t := ImportAll(s, org, Unknown(s, org, Finalized(Recent(invoices, threshold))), false);
    if !t.failed {
      hide OldestFirst, RowsAre, Grown;
      PassInOrder(t.after, org, Recent(notes, threshold), true);
    }
  }

  /** On newest-first listings a run appends the invoices it imports oldest first, then the credit notes
      it imports oldest first. */
  lemma ImportedInOrder(s: State, org: nat, threshold: int, invoices: seq<Doc>, notes: seq<Doc>)
    requires NewestFirst(invoices) && NewestFirst(notes)
    ensures var first, second := FirstPass(s, org, threshold, invoices), SecondPass(s, org, threshold, invoices, notes);
            var rows, n := CatchUp(s, org, threshold, invoices, notes).after.invoices, |s.invoices|;
            && |rows| == n + |first| + |second|
            && RowsAre(rows, n, org, first) && RowsAre(rows, n + |first|, org, second)
            && OldestFirst(first) && OldestFirst(second)
            && (forall d | d in first :: d in invoices) && (forall d | d in second :: d in notes)
  {
    hide *;
    FirstInOrder(s, org, threshold, invoices);
    SecondInOrder(s, org, threshold, invoices, notes);
    var t := ImportAll(s, org, Unknown(s, org, Finalized(Recent(invoices, threshold))), false).after;
    var s' := CatchUp(s, org, threshold, invoices, notes).after;
    RowsAreStill(t, s', |s.invoices|, org, FirstPass(s, org, threshold, invoices));
  }

  lemma {:induction false} ImportAllGrows(s: State, org: nat, docs: seq<Doc>, note: bool)
    ensures Grown(s, ImportAll(s, org, docs, note).after)
  {
    if docs != [] {
      var front, last := docs[..|docs| - 1], docs[|docs| - 1];
      ImportAllGrows(s, org, front, note);
      var before := ImportAll(s, org, front, note);
      ImportDocGrows(before.after, org, last, note);
      hide ImportDoc;
    }
  }

  /** What a run attempts: the listed documents whose id no invoice of the organization has, deleted or not. */
  lemma UnknownPromise(s: State, org: nat, docs: seq<Doc>, d: Doc)
    ensures d in Unknown(s, org, docs)
       <==> d in docs
            && forall i | 0 <= i < |s.invoices| :: s.invoices[i].org == org ==> s.invoices[i].externalId != Some(d.id)
  {
  }

  /** Only finalized invoices are attempted. */
  lemma FinalizedPromise(docs: seq<Doc>, d: Doc)
    ensures d in Finalized(docs) <==> d in docs && d.status in {"open", "paid", "uncollectible"}
  {
  }
}
