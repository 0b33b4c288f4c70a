/** What every absent field of a payload is completed with. */
module EnrichmentPromises {
  import opened Wrappers
  import opened Sums
  import opened Rates
  import opened Totals
  import opened Calendar
  import opened Enrichment

  predicate Text(s: Option<string>) {
    s.Some? && s.value != ""
  }

  predicate HasExemption(s: Option<Settings>) {
    s.Some? && !(s.value.exemptionReason == "" && s.value.exemptionCode == "")
  }

  /** The rate a line is taxed at: its own, else the rate of the product, else 20 %. */
  predicate TaxedAt(a: RawLine, b: RawLine) {
    && b.manualVatRate.Some?
    && (a.manualVatRate.Some? ==> b.manualVatRate == a.manualVatRate)
    && (a.manualVatRate.None? && a.vatRate.Some? ==> b.manualVatRate == a.vatRate)
    && (a.manualVatRate.None? && a.vatRate.None? ==> b.manualVatRate.value == "20")
  }

  /** How many pieces the line is for, one unless it says otherwise. */
  function Pieces(a: RawLine): real {
    if a.quantity.Some? then a.quantity.value else 1.0
  }

  /** What a piece costs: the net price, else the price, else nothing. */
  function PieceAt(a: RawLine): real {
    if a.unitNetPrice.Some? then a.unitNetPrice.value else if a.unitPrice.Some? then a.unitPrice.value else 0.0
  }

  /** To the cent, an exact half away from zero. */
  function Amount(pieces: real, price: real): real {
    Cents(pieces * price)
  }

  /** Position, unit, price and net amount. */
  predicate Measured(a: RawLine, b: RawLine, i: nat) {
    && b.lineNumber == (if a.lineNumber.Some? then a.lineNumber else Some(i + 1))
    && b.unit == (if a.unit.Some? then a.unit else Some("PIECE"))
    && b.quantity == a.quantity && b.unitPrice == a.unitPrice && b.vatRate == a.vatRate && b.rest == a.rest
    && b.unitNetPrice == (if a.unitNetPrice.Some? then a.unitNetPrice else a.unitPrice)
    && b.lineNetAmount
       == if a.lineNetAmount.Some? then a.lineNetAmount else Some(Amount(Pieces(a), PieceAt(a)))
  }

  /** The exemption of the supplier goes to a 0 % line that gives none itself, with category E; any other
      line keeps its texts, and its category or gets S or E by its rate. */
  predicate Categorized(a: RawLine, b: RawLine, s: Option<Settings>)
    requires b.manualVatRate.Some?
  {
    if HasExemption(s) && Percent(b.manualVatRate.value) == 0.0 && !Text(a.exemptionReason) && !Text(a.vatexCode) then
      && b.vatCategory == Some("E")
      && b.exemptionReason
         == (if s.value.exemptionReason != "" then Some(s.value.exemptionReason) else a.exemptionReason)
      && b.vatexCode == (if s.value.exemptionCode != "" then Some(s.value.exemptionCode) else a.vatexCode)
    else
      && b.exemptionReason == a.exemptionReason && b.vatexCode == a.vatexCode
      && b.vatCategory == if a.vatCategory.Some? then a.vatCategory
                          else if Percent(b.manualVatRate.value) > 0.0 then Some("S") else Some("E")
  }

  lemma RatePromise(a: RawLine, i: nat, s: Option<Settings>)
    ensures TaxedAt(a, Stamped(Completed(a, i), s))
  {
    hide Percent, Cents;
    DefaultRates();
  }

  lemma NetPromise(a: RawLine)
    ensures DefaultNet(a.quantity.GetOr(1.0), PriceOf(a)) == Amount(Pieces(a), PieceAt(a))
  {
    hide Cents;
    assert a.quantity.GetOr(1.0) == Pieces(a) && PriceOf(a) == PieceAt(a);
  }

  lemma MeasuresPromise(a: RawLine, i: nat, s: Option<Settings>)
    ensures Measured(a, Stamped(Completed(a, i), s), i)
  {
    NetPromise(a);
    StampKeeps(Completed(a, i), s);
    hide Percent, Cents, DefaultNet, PriceOf, RateOf, DefaultCategory, Stamped, Amount, Pieces, PieceAt;
    var net := DefaultNet(a.quantity.GetOr(1.0), PriceOf(a));
    assert Completed(a, i).lineNetAmount == if a.lineNetAmount.Some? then a.lineNetAmount else Some(net);
  }

  /** The exemption touches the category and the two texts only. */
  lemma StampKeeps(l: RawLine, s: Option<Settings>)
    ensures var b := Stamped(l, s);
            b == l.(vatCategory := b.vatCategory, exemptionReason := b.exemptionReason, vatexCode := b.vatexCode)
  {
    hide Stampable;
  }

  lemma CategoryPromise(a: RawLine, i: nat, s: Option<Settings>)
    ensures var b := Stamped(Completed(a, i), s); b.manualVatRate.Some? && Categorized(a, b, s)
  {
    hide Percent, Cents, DefaultNet, PriceOf;
  }

  /** Every line: its rate, its measures, its category and exemption. */
  lemma LinePromise(d: Document, s: Option<Settings>, today: Day, i: nat)
    requires i < |d.lines|
    ensures var e := Enriched(d, s, today);
            && |e.lines| == |d.lines|
            && TaxedAt(d.lines[i], e.lines[i])
            && Measured(d.lines[i], e.lines[i], i)
            && Categorized(d.lines[i], e.lines[i], s)
  {
    LinesOf(d, s, today);
    RatePromise(d.lines[i], i, s);
    MeasuresPromise(d.lines[i], i, s);
    CategoryPromise(d.lines[i], i, s);
    hide Enriched, Stamped, Completed, TaxedAt, Measured, Categorized;
  }

  lemma LinesOf(d: Document, s: Option<Settings>, today: Day)
    ensures Enriched(d, s, today).lines == EnrichedLines(d.lines, s)
  {
    hide EnrichedLines, TotalsOf, VatLines, NotesOf, DueDate;
  }

  /** The lines the totals are computed from are the enriched ones as they stand. */
  lemma SummedLines(d: Document, s: Option<Settings>, today: Day, i: nat)
    requires i < |d.lines|
    ensures var e := Enriched(d, s, today);
            && |e.lines| == |d.lines| == |ToLines(e.lines)|
            && var b := e.lines[i];
               && b.lineNetAmount.Some? && b.manualVatRate.Some? && b.vatCategory.Some?
               && ToLines(e.lines)[i]
                  == Line(b.lineNetAmount.value, b.manualVatRate.value, b.vatCategory.value,
                          if b.exemptionReason.Some? then b.exemptionReason.value else "",
                          if b.vatexCode.Some? then b.vatexCode.value else "")
  {
    LinesOf(d, s, today);
    hide Percent, Cents;
  }

  /** Absent blocks are computed from those lines, each for itself. */
  lemma BlocksPromise(d: Document, s: Option<Settings>, today: Day)
    ensures var e := Enriched(d, s, today);
            && e.totals == (if d.totals.Some? then d.totals else Some(Computed(TotalsOf(ToLines(e.lines)))))
            && e.vatLines == (if d.vatLines.Some? then d.vatLines else Some(Computed(VatLines(ToLines(e.lines)))))
  {
    hide EnrichedLines, TotalsOf, VatLines, NotesOf, DueDate;
  }

  /** The invoice is dated today and due by the supplier's term, 30 days without one. */
  lemma DatesPromise(d: Document, s: Option<Settings>, today: Day)
    ensures var e := Enriched(d, s, today);
            && e.invoiceDate.Some? && e.paymentDueDate.Some?
            && e.invoiceDate.value == (if d.invoiceDate.Some? then d.invoiceDate.value else today)
            && (d.paymentDueDate.Some? ==> e.paymentDueDate == d.paymentDueDate)
            && (d.paymentDueDate.None? && s.Some? ==>
                  e.paymentDueDate == Some(DueDate(e.invoiceDate.value, s.value.term)))
            && (d.paymentDueDate.None? && s.None? ==>
                  Ordinal(e.paymentDueDate.value) == Ordinal(e.invoiceDate.value) + 30)
  {
    hide EnrichedLines, TotalsOf, VatLines, NotesOf, Ordinal, DueDate;
    if s.None? && d.paymentDueDate.None? {
      DueDateIs(if d.invoiceDate.Some? then d.invoiceDate.value else today, NO_TERM);
    }
  }

  /** Absent references: an invoice, VAT on debits, in euro, paid by transfer, with the dates above. */
  lemma ReferencesPromise(d: Document, s: Option<Settings>, today: Day)
    ensures var e := Enriched(d, s, today);
            var a, b := d.references, e.references;
            && b.invoiceType == (if a.invoiceType.Some? then a.invoiceType else Some("380"))
            && b.vatAccountingCode == (if a.vatAccountingCode.Some? then a.vatAccountingCode else Some("TVA_SUR_DEBIT"))
            && b.invoiceCurrency == (if a.invoiceCurrency.Some? then a.invoiceCurrency else Some("EUR"))
            && b.paymentMeans == (if a.paymentMeans.Some? then a.paymentMeans else Some("VIREMENT"))
            && b.issueDate == (if a.issueDate.Some? then a.issueDate else e.invoiceDate)
            && b.dueDate == (if a.dueDate.Some? then a.dueDate else e.paymentDueDate)
  {
    hide EnrichedLines, TotalsOf, VatLines, NotesOf, DueDate;
  }

  /** The notes a supplier has: recovery fee, late penalties, discount, in this order, none of them empty. */
  predicate NotesAre(notes: seq<Note>, pmt: string, pmd: string, aab: string) {
    && (forall n | n in notes :: n.content != "" && n in {Note("PMT", pmt), Note("PMD", pmd), Note("AAB", aab)})
    && (pmt != "" ==> Note("PMT", pmt) in notes)
    && (pmd != "" ==> Note("PMD", pmd) in notes)
    && (aab != "" ==> Note("AAB", aab) in notes)
    && (forall i, j | 0 <= i < j < |notes| :: NoteRank(notes[i]) < NoteRank(notes[j]))
  }

  function NoteRank(n: Note): nat {
    if n.subjectCode == "PMT" then 0 else if n.subjectCode == "PMD" then 1 else 2
  }

  lemma NotesOfAre(s: Settings)
    ensures NotesAre(NotesOf(s), s.pmt, s.pmd, s.aab)
  {
    assert "PMT"[2] != "PMD"[2] && "PMT"[0] != "AAB"[0] && "PMD"[0] != "AAB"[0];
    var a := if s.pmt != "" then [Note("PMT", s.pmt)] else [];
    var b := if s.pmd != "" then [Note("PMD", s.pmd)] else [];
    var c := if s.aab != "" then [Note("AAB", s.aab)] else [];
    assert NotesOf(s) == a + b + c;
  }

  /** Absent notes are those of the supplier; without any the document stays without. */
  lemma NotesPromise(d: Document, s: Option<Settings>, today: Day)
    ensures var e := Enriched(d, s, today);
            && (d.notes.Some? || s.None? ==> e.notes == d.notes)
            && (d.notes.None? && s.Some? ==>
                  && (e.notes.Some? ==> e.notes.value != [])
                  && NotesAre(if e.notes.Some? then e.notes.value else [], s.value.pmt, s.value.pmd, s.value.aab))
  {
    if s.Some? {
      NotesOfAre(s.value);
    }
    hide EnrichedLines, TotalsOf, VatLines, DueDate, NotesOf, NotesAre;
  }
}
