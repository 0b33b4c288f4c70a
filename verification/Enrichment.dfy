/** `enrich_en16931_data`: missing fields filled in place, supplied ones kept. */
module Enrichment {
  import opened Wrappers
  import opened Sums
  import opened Rates
  import opened Totals
  import opened Calendar

  /** An invoice line as received; `None` is an absent key. */
  datatype RawLine = RawLine(
    lineNumber: Option<int>,
    unit: Option<string>,
    quantity: Option<real>,
    unitPrice: Option<real>,
    unitNetPrice: Option<real>,
    vatRate: Option<Rate>,
    manualVatRate: Option<Rate>,
    vatCategory: Option<string>,
    lineNetAmount: Option<real>,
    exemptionReason: Option<string>,
    vatexCode: Option<string>,
    rest: string)

  datatype Note = Note(subjectCode: string, content: string)

  datatype References = References(
    invoiceType: Option<string>,
    vatAccountingCode: Option<string>,
    invoiceCurrency: Option<string>,
    paymentMeans: Option<string>,
    issueDate: Option<Day>,
    dueDate: Option<Day>)

  /** A block of the payload, or the one the enrichment computed. */
  datatype Block<+T> = Supplied(json: string) | Computed(value: T)

  datatype Document = Document(
    lines: seq<RawLine>,
    totals: Option<Block<DocumentTotals>>,
    vatLines: Option<Block<seq<VatLine>>>,
    invoiceDate: Option<Day>,
    paymentDueDate: Option<Day>,
    references: References,
    notes: Option<seq<Note>>)

  /** The supplier settings the enrichment reads; texts are stripped. */
  datatype Settings = Settings(
    exemptionReason: string,
    exemptionCode: string,
    pmt: string,
    pmd: string,
    aab: string,
    term: Term)

  predicate Given(s: Option<string>) {
    s.Some? && s.value != ""
  }

  function Or<T>(field: Option<T>, default: T): Option<T> {
    Some(field.GetOr(default))
  }

  // ---------- lines ----------

  function RateOf(l: RawLine): Rate {
    DefaultRates();
    l.manualVatRate.GetOr(l.vatRate.GetOr("20"))
  }

  function PriceOf(l: RawLine): real {
    l.unitNetPrice.GetOr(l.unitPrice.GetOr(0.0))
  }

  function DefaultCategory(rate: Rate): string {
    if Percent(rate) > 0.0 then "S" else "E"
  }

  function DefaultNet(quantity: real, price: real): real {
    Cents(quantity * price)
  }

  /** The `i`-th line completed. */
  function Completed(l: RawLine, i: nat): RawLine {
    l.(lineNumber := Or(l.lineNumber, i + 1),
       unit := Or(l.unit, "PIECE"),
       unitNetPrice := if l.unitNetPrice.Some? then l.unitNetPrice else l.unitPrice,
       manualVatRate := Some(RateOf(l)),
       vatCategory := Or(l.vatCategory, DefaultCategory(RateOf(l))),
       lineNetAmount := Or(l.lineNetAmount, DefaultNet(l.quantity.GetOr(1.0), PriceOf(l))))
  }

  predicate HasDefaultExemption(s: Option<Settings>) {
    s.Some? && (s.value.exemptionReason != "" || s.value.exemptionCode != "")
  }

  /** The line gets the default exemption: it is at 0 % and says nothing of its own. */
  predicate Stampable(l: RawLine) {
    DefaultRates();
    Percent(l.manualVatRate.GetOr("0")) == 0.0 && !Given(l.exemptionReason) && !Given(l.vatexCode)
  }

  function Stamped(l: RawLine, s: Option<Settings>): RawLine {
    if !HasDefaultExemption(s) || !Stampable(l) then l
    else l.(vatCategory := Some("E"),
            exemptionReason :=
              if s.value.exemptionReason != "" then Some(s.value.exemptionReason) else l.exemptionReason,
            vatexCode :=
              if s.value.exemptionCode != "" then Some(s.value.exemptionCode) else l.vatexCode)
  }

  function EnrichedLines(lines: seq<RawLine>, s: Option<Settings>): (r: seq<RawLine>)
    ensures |r| == |lines| && forall i | 0 <= i < |r| :: r[i] == Stamped(Completed(lines[i], i), s)
  {
    seq(|lines|, i requires 0 <= i < |lines| => Stamped(Completed(lines[i], i), s))
  }

  // ---------- the rest of the document ----------

  /** The line as `_enrich_totals` reads it. */
  function ToLine(l: RawLine): Line {
    DefaultRates();
    Line(l.lineNetAmount.GetOr(0.0), l.manualVatRate.GetOr("20"), l.vatCategory.GetOr("S"),
         l.exemptionReason.GetOr(""), l.vatexCode.GetOr(""))
  }

  function ToLines(lines: seq<RawLine>): (r: seq<Line>)
    ensures |r| == |lines| && forall i | 0 <= i < |r| :: r[i] == ToLine(lines[i])
  {
    seq(|lines|, i requires 0 <= i < |lines| => ToLine(lines[i]))
  }

  function WithTotals(d: Document): Document {
    d.(totals := if d.totals.Some? then d.totals else Some(Computed(TotalsOf(ToLines(d.lines)))),
       vatLines := if d.vatLines.Some? then d.vatLines else Some(Computed(VatLines(ToLines(d.lines)))))
  }

  function TermOf(s: Option<Settings>): Term {
    if s.Some? then s.value.term else NO_TERM
  }

  function WithDates(d: Document, s: Option<Settings>, today: Day): Document {
    var issued := d.invoiceDate.GetOr(today);
    d.(invoiceDate := Some(issued), paymentDueDate := Or(d.paymentDueDate, DueDate(issued, TermOf(s))))
  }

  function WithReferences(d: Document): Document {
    var r := d.references;
    d.(references := References(
         Or(r.invoiceType, "380"),
         Or(r.vatAccountingCode, "TVA_SUR_DEBIT"),
         Or(r.invoiceCurrency, "EUR"),
         Or(r.paymentMeans, "VIREMENT"),
         if r.issueDate.Some? then r.issueDate else d.invoiceDate,
         if r.dueDate.Some? then r.dueDate else d.paymentDueDate))
  }

  function NotesOf(s: Settings): seq<Note> {
    (if s.pmt != "" then [Note("PMT", s.pmt)] else [])
    + (if s.pmd != "" then [Note("PMD", s.pmd)] else [])
    + (if s.aab != "" then [Note("AAB", s.aab)] else [])
  }

  function WithNotes(d: Document, s: Option<Settings>): Document {
    if d.notes.Some? || s.None? || NotesOf(s.value) == [] then d
    else d.(notes := Some(NotesOf(s.value)))
  }

  /** The enriched document. */
  function Enriched(d: Document, s: Option<Settings>, today: Day): Document {
    WithNotes(WithReferences(WithDates(WithTotals(d.(lines := EnrichedLines(d.lines, s))), s, today)), s)
  }

  // ---------- in place ----------

  class Payload {
    var lines: seq<RawLine>
    var totals: Option<Block<DocumentTotals>>
    var vatLines: Option<Block<seq<VatLine>>>
    var invoiceDate: Option<Day>
    var paymentDueDate: Option<Day>
    var references: References
    var notes: Option<seq<Note>>

    ghost function View(): Document
      reads this
    {
      Document(lines, totals, vatLines, invoiceDate, paymentDueDate, references, notes)
    }

    constructor (d: Document)
      ensures View() == d
    {
      lines, totals, vatLines := d.lines, d.totals, d.vatLines;
      invoiceDate, paymentDueDate, references, notes := d.invoiceDate, d.paymentDueDate, d.references, d.notes;
    }

    method EnrichLine(i: nat)
      requires i < |lines|
      modifies this`lines
      ensures lines == old(lines)[i := Completed(old(lines)[i], i)]
    {
      var line := lines[i];
      if line.lineNumber.None? {
        line := line.(lineNumber := Some(i + 1));
      }
      if line.unit.None? {
        line := line.(unit := Some("PIECE"));
      }
      if line.unitNetPrice.None? && line.unitPrice.Some? {
        line := line.(unitNetPrice := line.unitPrice);
      }
      DefaultRates();
      if line.manualVatRate.None? {
        line := line.(manualVatRate := Some(line.vatRate.GetOr("20")));
      }
      if line.vatCategory.None? {
        line := line.(vatCategory := Some(DefaultCategory(line.manualVatRate.value)));
      }
      if line.lineNetAmount.None? {
        line := line.(lineNetAmount := Some(DefaultNet(line.quantity.GetOr(1.0), PriceOf(line))));
      }
      lines := lines[i := line];
    }

    method ApplyDefaultVatExemption(s: Option<Settings>)
      modifies this`lines
      ensures |lines| == |old(lines)| && forall i | 0 <= i < |lines| :: lines[i] == Stamped(old(lines)[i], s)
    {
      if s.None? || (s.value.exemptionReason == "" && s.value.exemptionCode == "") {
        return;
      }
      for i := 0 to |lines|
        invariant |lines| == |old(lines)|
        invariant forall j | 0 <= j < |lines| :: lines[j] == if j < i then Stamped(old(lines)[j], s) else old(lines)[j]
      {
        var line := lines[i];
        if Stampable(line) {
          line := line.(vatCategory := Some("E"));
          if s.value.exemptionReason != "" {
            line := line.(exemptionReason := Some(s.value.exemptionReason));
          }
          if s.value.exemptionCode != "" {
            line := line.(vatexCode := Some(s.value.exemptionCode));
          }
          lines := lines[i := line];
        }
      }
    }

    method EnrichLines(s: Option<Settings>)
      modifies this`lines
      ensures lines == EnrichedLines(old(lines), s)
    {
      for i := 0 to |lines|
        invariant |lines| == |old(lines)|
        invariant forall j | 0 <= j < |lines| ::
                    lines[j] == if j < i then Completed(old(lines)[j], j) else old(lines)[j]
      {
        EnrichLine(i);
      }
      ApplyDefaultVatExemption(s);
    }

    method EnrichTotals()
      modifies this`totals, this`vatLines
      ensures View() == WithTotals(old(View()))
    {
      if totals.Some? && vatLines.Some? {
        return;
      }
      var t, v := ComputeTotals(ToLines(lines));
      if totals.None? {
        totals := Some(Computed(t));
      }
      if vatLines.None? {
        vatLines := Some(Computed(v));
      }
    }

    method EnrichDates(s: Option<Settings>, today: Day)
      modifies this`invoiceDate, this`paymentDueDate
      ensures View() == WithDates(old(View()), s, today)
    {
      if invoiceDate.None? {
        invoiceDate := Some(today);
      }
      if paymentDueDate.None? {
        var due := ComputeDueDate(invoiceDate.value, TermOf(s));
        paymentDueDate := Some(due);
      }
    }

    method EnrichReferences()
      modifies this`references
      ensures View() == WithReferences(old(View()))
    {
      var refs := references;
      refs := refs.(invoiceType := Or(refs.invoiceType, "380"));
      refs := refs.(vatAccountingCode := Or(refs.vatAccountingCode, "TVA_SUR_DEBIT"));
      refs := refs.(invoiceCurrency := Or(refs.invoiceCurrency, "EUR"));
      refs := refs.(paymentMeans := Or(refs.paymentMeans, "VIREMENT"));
      if refs.issueDate.None? && invoiceDate.Some? {
        refs := refs.(issueDate := invoiceDate);
      }
      if refs.dueDate.None? && paymentDueDate.Some? {
        refs := refs.(dueDate := paymentDueDate);
      }
      references := refs;
    }

    method EnrichNotes(s: Option<Settings>)
      modifies this`notes
      ensures View() == WithNotes(old(View()), s)
    {
      if notes.Some? || s.None? {
        return;
      }
      var added := [];
      if s.value.pmt != "" {
        added := added + [Note("PMT", s.value.pmt)];
      }
      if s.value.pmd != "" {
        added := added + [Note("PMD", s.value.pmd)];
      }
      if s.value.aab != "" {
        added := added + [Note("AAB", s.value.aab)];
      }
      assert added == NotesOf(s.value);
      if added != [] {
        notes := Some(added);
      }
    }

    /** `enrich_en16931_data`. */
    method Enrich(s: Option<Settings>, today: Day)
      modifies this
      ensures View() == Enriched(old(View()), s, today)
    {
      EnrichLines(s);
      EnrichTotals();
      EnrichDates(s, today);
      EnrichReferences();
      EnrichNotes(s);
    }
  }

  // ---------- what enrichment promises ----------

  /** A second enrichment, on any later day, changes nothing. */
  lemma EnrichTwice(d: Document, s: Option<Settings>, today: Day, later: Day)
    ensures Enriched(Enriched(d, s, today), s, later) == Enriched(d, s, today)
  {
    var once := EnrichedLines(d.lines, s);
    forall i | 0 <= i < |once| ensures EnrichedLines(once, s)[i] == once[i] {
      CompletedTwice(d.lines[i], i, s);
    }
    assert EnrichedLines(once, s) == once;
    hide EnrichedLines, TotalsOf, VatLines, NotesOf;
    var e := Enriched(d, s, today);
    assert e.lines == once;
    assert e.totals.Some? && e.vatLines.Some? && e.invoiceDate.Some? && e.paymentDueDate.Some?;
  }

  lemma CompletedTwice(l: RawLine, i: nat, s: Option<Settings>)
    ensures var once := Stamped(Completed(l, i), s); Stamped(Completed(once, i), s) == once
  {
    hide Percent, Cents;
  }

  /** A supplied field keeps its value. */
  predicate FieldKept<T(==)>(old': Option<T>, new': Option<T>) {
    old'.Some? ==> new' == old'
  }

  /** Every supplied field of a line is kept; only on a 0 % line without exemption details do the
      default exemption of the supplier replace the category, and fill empty details. */
  predicate LineKept(a: RawLine, b: RawLine, s: Option<Settings>) {
    && FieldKept(a.lineNumber, b.lineNumber) && FieldKept(a.unit, b.unit) && FieldKept(a.quantity, b.quantity)
    && FieldKept(a.unitPrice, b.unitPrice) && FieldKept(a.unitNetPrice, b.unitNetPrice)
    && FieldKept(a.vatRate, b.vatRate) && FieldKept(a.manualVatRate, b.manualVatRate)
    && FieldKept(a.lineNetAmount, b.lineNetAmount) && b.rest == a.rest
    && (Given(a.exemptionReason) ==> b.exemptionReason == a.exemptionReason)
    && (Given(a.vatexCode) ==> b.vatexCode == a.vatexCode)
    && (FieldKept(a.vatCategory, b.vatCategory)
        || (HasDefaultExemption(s) && Percent(RateOf(a)) == 0.0 && !Given(a.exemptionReason) && !Given(a.vatexCode)
            && b.vatCategory == Some("E")))
    && (!HasDefaultExemption(s) ==> b.exemptionReason == a.exemptionReason && b.vatexCode == a.vatexCode)
  }

  /** Enrichment is a conservative extension of the payload. */
  lemma SuppliedIsKept(d: Document, s: Option<Settings>, today: Day)
    ensures var e := Enriched(d, s, today);
            && |e.lines| == |d.lines| && (forall i | 0 <= i < |d.lines| :: LineKept(d.lines[i], e.lines[i], s))
            && FieldKept(d.totals, e.totals) && FieldKept(d.vatLines, e.vatLines)
            && FieldKept(d.invoiceDate, e.invoiceDate) && FieldKept(d.paymentDueDate, e.paymentDueDate)
            && FieldKept(d.notes, e.notes)
            && FieldKept(d.references.invoiceType, e.references.invoiceType)
            && FieldKept(d.references.vatAccountingCode, e.references.vatAccountingCode)
            && FieldKept(d.references.invoiceCurrency, e.references.invoiceCurrency)
            && FieldKept(d.references.paymentMeans, e.references.paymentMeans)
            && FieldKept(d.references.issueDate, e.references.issueDate)
            && FieldKept(d.references.dueDate, e.references.dueDate)
  {
    hide TotalsOf, VatLines, NotesOf;
    var e := Enriched(d, s, today);
    assert e.lines == EnrichedLines(d.lines, s);
    forall i | 0 <= i < |d.lines| ensures LineKept(d.lines[i], e.lines[i], s) {
      StampedIsKept(d.lines[i], i, s);
    }
  }

  lemma StampedIsKept(l: RawLine, i: nat, s: Option<Settings>)
    ensures LineKept(l, Stamped(Completed(l, i), s), s)
  {
    hide Percent, Cents;
  }

  /** BR-E-10: with a default exemption, every computed VAT line at 0 % states a reason or a code. */
  lemma ZeroRateIsJustified(d: Document, s: Option<Settings>, today: Day)
    requires HasDefaultExemption(s) && d.vatLines.None?
    ensures var vatLines := Enriched(d, s, today).vatLines;
            && vatLines.Some? && vatLines.value.Computed?
            && forall v | v in vatLines.value.value :: Percent(v.key.rate) == 0.0 ==> v.reason != "" || v.code != ""
  {
    hide Keys, VatLineOf, TotalsOf, Percent, NotesOf, Completed, Stamped;
    var lines := ToLines(EnrichedLines(d.lines, s));
    assert Enriched(d, s, today).vatLines == Some(Computed(VatLines(lines)));
    forall v | v in VatLines(lines) && Percent(v.key.rate) == 0.0 ensures v.reason != "" || v.code != "" {
      var j :| 0 <= j < |VatLines(lines)| && VatLines(lines)[j] == v;
      VatLineKey(lines, Keys(lines)[j]);
      ZeroRateKey(d.lines, s, Keys(lines)[j]);
    }
  }

  lemma ZeroRateKey(raw: seq<RawLine>, s: Option<Settings>, key: Key)
    requires HasDefaultExemption(s) && key in Keys(ToLines(EnrichedLines(raw, s))) && Percent(key.rate) == 0.0
    ensures var v := VatLineOf(ToLines(EnrichedLines(raw, s)), key);
            v.key == key && (v.reason != "" || v.code != "")
  {
    var lines := ToLines(EnrichedLines(raw, s));
    KeysOfLines(lines, key);
    hide Keys, VatLineOf, Percent, Completed, Stamped;
    var l :| l in lines && KeyOf(l) == key;
    var i :| 0 <= i < |lines| && lines[i] == l;
    StampedIsJustified(raw[i], i, s);
    VatLineKey(lines, key);
    JustifiedBucket(lines, i);
  }

  lemma VatLineKey(lines: seq<Line>, key: Key)
    ensures VatLineOf(lines, key).key == key
  {
  }

  lemma JustifiedBucket(lines: seq<Line>, i: nat)
    requires i < |lines| && (lines[i].reason != "" || lines[i].code != "")
    ensures var v := VatLineOf(lines, KeyOf(lines[i])); v.reason != "" || v.code != ""
  {
    if Reason(lines[i]) != "" {
      FirstGivenFound(lines, i, Reason);
    } else {
      FirstGivenFound(lines, i, Code);
    }
  }

  lemma StampedIsJustified(l: RawLine, i: nat, s: Option<Settings>)
    requires HasDefaultExemption(s)
    ensures var l' := ToLine(Stamped(Completed(l, i), s));
            Percent(l'.rate) == 0.0 ==> l'.reason != "" || l'.code != ""
  {
    hide Percent, Cents;
  }

  lemma {:induction false} FirstGivenFound(lines: seq<Line>, i: nat, pick: Line -> string)
    requires i < |lines| && pick(lines[i]) != ""
    ensures FirstGiven(lines, KeyOf(lines[i]), pick) != ""
  {
    var n := |lines| - 1;
    if i < n {
      FirstGivenFound(lines[..n], i, pick);
    }
  }
}
