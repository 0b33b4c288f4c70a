/** The totals of the browser against those the server computes for the same fields. */
module Engines {
  import opened Wrappers
  import opened Sums
  import opened Rates
  import opened Totals
  import JsTotals
  import Enrichment

  /** An API payload line with the fields of a form line: what the script takes for missing is absent. */
  function Raw(l: JsTotals.JsLine): Enrichment.RawLine {
    Enrichment.RawLine(None, None, Some(l.quantity), None, Some(l.unitNetPrice), None,
                       if l.rate == "" then None else Some(l.rate),
                       if l.category == "" then None else Some(l.category),
                       None, Some(l.reason), None, "")
  }

  function Raws(ls: seq<JsTotals.JsLine>): (r: seq<Enrichment.RawLine>)
    ensures |r| == |ls| && forall i | 0 <= i < |r| :: r[i] == Raw(ls[i])
  {
    seq(|ls|, i requires 0 <= i < |ls| => Raw(ls[i]))
  }

  /** The lines `_enrich_totals` sums for this payload. */
  function ServerLines(ls: seq<JsTotals.JsLine>, s: Option<Enrichment.Settings>): (r: seq<Line>)
    ensures |r| == |ls|
    ensures forall i | 0 <= i < |r| ::
              r[i] == Enrichment.ToLine(Enrichment.Stamped(Enrichment.Completed(Raw(ls[i]), i), s))
  {
    Enrichment.ToLines(Enrichment.EnrichedLines(Raws(ls), s))
  }

  /** The engines read the line alike, its exemption reason included: the rate is given, the category too
      unless the rate is positive, and the supplier has no exemption to add to the line. */
  predicate ReadAlike(l: JsTotals.JsLine, s: Option<Enrichment.Settings>) {
    && l.rate != ""
    && (l.category != "" || Percent(l.rate) > 0.0)
    && !(Enrichment.HasDefaultExemption(s) && Percent(l.rate) == 0.0 && l.reason == "")
  }

  lemma SameNet(l: JsTotals.JsLine, i: nat, s: Option<Enrichment.Settings>)
    ensures JsTotals.ToLine(l).net == Enrichment.ToLine(Enrichment.Stamped(Enrichment.Completed(Raw(l), i), s)).net
  {
    hide Percent;
    var raw := Raw(l);
    assert raw.quantity.GetOr(1.0) == l.quantity && Enrichment.PriceOf(raw) == l.unitNetPrice;
    assert Enrichment.DefaultNet(l.quantity, l.unitNetPrice) == JsTotals.LineNetAmount(l.quantity, l.unitNetPrice);
  }

  lemma LineReadAlikeIff(l: JsTotals.JsLine, i: nat, s: Option<Enrichment.Settings>)
    ensures Enrichment.ToLine(Enrichment.Stamped(Enrichment.Completed(Raw(l), i), s)) == JsTotals.ToLine(l)
       <==> ReadAlike(l, s)
  {
    hide Percent, Cents;
    DefaultRates();
    SameNet(l, i, s);
    assert "20" != "20.00" by { assert |"20"| != |"20.00"|; }
  }

  /** Both engines sum the same lines if and only if every line is read alike. */
  lemma LinesReadAlikeIff(ls: seq<JsTotals.JsLine>, s: Option<Enrichment.Settings>)
    ensures ServerLines(ls, s) == JsTotals.ToLines(ls) <==> forall l | l in ls :: ReadAlike(l, s)
  {
    hide ReadAlike;
    forall i | 0 <= i < |ls| ensures ServerLines(ls, s)[i] == JsTotals.ToLines(ls)[i] <==> ReadAlike(ls[i], s) {
      LineReadAlikeIff(ls[i], i, s);
    }
    assert forall i | 0 <= i < |ls| :: ls[i] in ls;
  }

  // ---------- the same figures ----------

  /** No default moves the line to another bucket: as `ReadAlike`, but a line of category E may be given
      the supplier's exemption. */
  predicate KeyAlike(l: JsTotals.JsLine, s: Option<Enrichment.Settings>) {
    && l.rate != ""
    && (l.category != "" || Percent(l.rate) > 0.0)
    && !(Enrichment.HasDefaultExemption(s) && Percent(l.rate) == 0.0 && l.reason == "" && l.category != "E")
  }

  lemma LineKeyAlikeIff(l: JsTotals.JsLine, i: nat, s: Option<Enrichment.Settings>)
    ensures var server := Enrichment.ToLine(Enrichment.Stamped(Enrichment.Completed(Raw(l), i), s));
            KeyOf(server) == KeyOf(JsTotals.ToLine(l)) <==> KeyAlike(l, s)
  {
    hide Percent, Cents;
    DefaultRates();
    assert "20" != "20.00" by { assert |"20"| != |"20.00"|; }
  }

  /** The two engines print the same net total, and the same buckets in the same order with the same
      taxable and VAT amounts. */
  ghost predicate Agree(ls: seq<JsTotals.JsLine>, s: Option<Enrichment.Settings>) {
    var js, server := JsTotals.ToLines(ls), ServerLines(ls, s);
    && JsTotals.JsTotalsOf(js).net == TotalsOf(server).net
    && Keys(js) == Keys(server)
    && forall k :: JsTotals.JsVatLineOf(js, k).taxable == VatLineOf(server, k).base
                   && JsTotals.JsVatLineOf(js, k).vat == VatLineOf(server, k).vat
  }

  predicate SameFigures(a: seq<Line>, b: seq<Line>) {
    |a| == |b| && forall i | 0 <= i < |a| :: KeyOf(a[i]) == KeyOf(b[i]) && a[i].net == b[i].net
  }

  lemma {:induction false} SameKeySequence(a: seq<Line>, b: seq<Line>)
    requires SameFigures(a, b)
    ensures Keys(a) == Keys(b)
  {
    if a != [] {
      SameKeySequence(a[..|a| - 1], b[..|b| - 1]);
    }
  }

  /** The totals read nothing but keys and net amounts. */
  lemma SameTotals(a: seq<Line>, b: seq<Line>)
    requires SameFigures(a, b)
    ensures Keys(a) == Keys(b) && TotalsOf(a) == TotalsOf(b)
    ensures forall k :: VatLineOf(a, k).base == VatLineOf(b, k).base && VatLineOf(a, k).vat == VatLineOf(b, k).vat
  {
    hide SumOver, Keys, VatAmount, FirstGiven;
    SameKeySequence(a, b);
    TotalsAddUp(a);
    TotalsAddUp(b);
    SumMapped(a, b, Net, Net);
    forall k ensures Base(a, k) == Base(b, k) {
      SumMapped(a, b, InBucket(k), InBucket(k));
    }
    SumSame(Keys(b), VatAt(a), VatAt(b));
  }

  lemma KeysAlike(ls: seq<JsTotals.JsLine>, s: Option<Enrichment.Settings>)
    requires forall l | l in ls :: KeyAlike(l, s)
    ensures SameFigures(JsTotals.ToLines(ls), ServerLines(ls, s))
  {
    var js, server := JsTotals.ToLines(ls), ServerLines(ls, s);
    forall i | 0 <= i < |ls| ensures KeyOf(js[i]) == KeyOf(server[i]) && js[i].net == server[i].net {
      assert ls[i] in ls;
      LineKeyAlikeIff(ls[i], i, s);
      SameNet(ls[i], i, s);
    }
  }

  /** The engines agree on lines that no default moves. */
  lemma EnginesAgreeOnLines(ls: seq<JsTotals.JsLine>, s: Option<Enrichment.Settings>)
    requires forall l | l in ls :: KeyAlike(l, s)
    ensures Agree(ls, s)
  {
    hide KeyAlike, Keys, VatLineOf;
    KeysAlike(ls, s);
    SameTotals(JsTotals.ToLines(ls), ServerLines(ls, s));
    JsTotals.FiguresAgree(ls);
  }

  /** Their VAT and gross totals differ by at most half a cent a bucket and half a cent more; with one
      bucket (or none) the VAT totals are equal, and so are the gross totals short of a sign tie. */
  lemma EnginesClose(ls: seq<JsTotals.JsLine>, s: Option<Enrichment.Settings>)
    requires forall l | l in ls :: KeyAlike(l, s)
    ensures var js, server := JsTotals.ToLines(ls), ServerLines(ls, s);
            var e := 0.005 * (|Keys(server)| as real + 1.0);
            && -e <= JsTotals.JsTotalsOf(js).vat - TotalsOf(server).vat <= e
            && -e <= JsTotals.JsTotalsOf(js).gross - TotalsOf(server).gross <= e
            && (|Keys(server)| <= 1 ==>
                  && JsTotals.JsTotalsOf(js).vat == TotalsOf(server).vat
                  && (!JsTotals.SignTie(js) ==> JsTotals.JsTotalsOf(js).gross == TotalsOf(server).gross))
  {
    hide KeyAlike, Keys, VatLineOf, TotalsOf, JsTotals.JsTotalsOf;
    KeysAlike(ls, s);
    SameTotals(JsTotals.ToLines(ls), ServerLines(ls, s));
    JsTotals.FiguresClose(ls);
  }

  // ---------- and only then ----------

  /** The two payloads differ in quantities and prices only. */
  predicate SameForm(ls: seq<JsTotals.JsLine>, ls': seq<JsTotals.JsLine>) {
    && |ls| == |ls'|
    && forall i | 0 <= i < |ls| ::
         ls'[i] == ls[i].(quantity := ls'[i].quantity, unitNetPrice := ls'[i].unitNetPrice)
  }

  /** One piece at one euro on line `i`, nothing on the others. */
  function OnePiece(ls: seq<JsTotals.JsLine>, i: nat): (r: seq<JsTotals.JsLine>)
    ensures SameForm(ls, r)
  {
    seq(|ls|, j requires 0 <= j < |ls| => ls[j].(quantity := if j == i then 1.0 else 0.0, unitNetPrice := 1.0))
  }

  lemma OneNet(l: JsTotals.JsLine)
    requires l.unitNetPrice == 1.0 && l.quantity in {0.0, 1.0}
    ensures JsTotals.ToLine(l).net == l.quantity
  {
    assert 0.0 == Cent(0) && 1.0 == Cent(100);
    CentsExact(l.quantity);
    assert l.quantity * l.unitNetPrice == l.quantity;
  }

  lemma {:induction false} ZeroSum(lines: seq<Line>, f: Line -> real)
    requires forall l | l in lines :: f(l) == 0.0
    ensures SumOver(lines, f) == 0.0
  {
    if lines != [] {
      assert lines[|lines| - 1] in lines;
      ZeroSum(lines[..|lines| - 1], f);
    }
  }

  lemma BaseOfOne(lines: seq<Line>, i: nat, k: Key)
    requires i < |lines| && forall j | 0 <= j < |lines| && j != i :: lines[j].net == 0.0
    ensures Base(lines, k) == if KeyOf(lines[i]) == k then lines[i].net else 0.0
  {
    SumWithout(lines, i, InBucket(k));
    var rest := Drop(lines, i);
    forall l | l in rest ensures InBucket(k)(l) == 0.0 {
      var j :| 0 <= j < |rest| && rest[j] == l;
      assert rest[j] == if j < i then lines[j] else lines[j + 1];
    }
    ZeroSum(rest, InBucket(k));
  }

  /** A line moved to another bucket shows as soon as it has an amount. */
  lemma MovedLineShows(ls: seq<JsTotals.JsLine>, i: nat, s: Option<Enrichment.Settings>)
    requires i < |ls| && !KeyAlike(ls[i], s)
    ensures !Agree(OnePiece(ls, i), s)
  {
    var ls' := OnePiece(ls, i);
    var js, server := JsTotals.ToLines(ls'), ServerLines(ls', s);
    forall j | 0 <= j < |ls| ensures js[j].net == server[j].net == if j == i then 1.0 else 0.0 {
      OneNet(ls'[j]);
      SameNet(ls'[j], j, s);
    }
    var k := KeyOf(js[i]);
    LineKeyAlikeIff(ls'[i], i, s);
    BaseOfOne(js, i, k);
    BaseOfOne(server, i, k);
    assert 1.0 == Cent(100);
    CentsExact(1.0);
    assert JsTotals.JsVatLineOf(js, k).taxable == 1.0 && VatLineOf(server, k).base == 0.0;
  }

  /** The engines agree whatever the quantities and prices if and only if no default moves a line. */
  lemma EnginesAgreeIff(ls: seq<JsTotals.JsLine>, s: Option<Enrichment.Settings>)
    ensures (forall ls' | SameForm(ls, ls') :: Agree(ls', s)) <==> forall l | l in ls :: KeyAlike(l, s)
  {
    if forall l | l in ls :: KeyAlike(l, s) {
      forall ls' | SameForm(ls, ls') ensures Agree(ls', s) {
        forall l | l in ls' ensures KeyAlike(l, s) {
          var i :| 0 <= i < |ls'| && ls'[i] == l;
          assert ls[i] in ls;
        }
        EnginesAgreeOnLines(ls', s);
      }
    } else {
      var l :| l in ls && !KeyAlike(l, s);
      var i :| 0 <= i < |ls| && ls[i] == l;
      MovedLineShows(ls, i, s);
    }
  }

  /** Whatever the defaults, the net totals agree. */
  lemma {:induction false} NetTotalsAgree(ls: seq<JsTotals.JsLine>, s: Option<Enrichment.Settings>)
    ensures JsTotals.JsTotalsOf(JsTotals.ToLines(ls)).net == TotalsOf(ServerLines(ls, s)).net
  {
    var js, server := JsTotals.ToLines(ls), ServerLines(ls, s);
    forall i | 0 <= i < |ls| ensures Net(js[i]) == Net(server[i]) {
      SameNet(ls[i], i, s);
    }
    hide ServerLines, VatTotal;
    SumMapped(js, server, Net, Net);
    JsTotals.WholeLines(ls);
    CentsExact(NetTotal(js));
  }

  /** A line without rate beside one at `20`: two buckets in the browser, one on the server. */
  lemma MissingRateSplits(quantity: real, price: real, quantity': real, price': real)
    ensures IsDecimal("20")
    ensures var ls := [JsTotals.JsLine(quantity, price, "", "S", ""),
                       JsTotals.JsLine(quantity', price', "20", "S", "")];
            |Keys(JsTotals.ToLines(ls))| == 2 && |Keys(ServerLines(ls, None))| == 1
  {
    DefaultRates();
    hide Percent, Cents;
    var ls := [JsTotals.JsLine(quantity, price, "", "S", ""), JsTotals.JsLine(quantity', price', "20", "S", "")];
    TwoKeys(JsTotals.ToLines(ls));
    TwoKeys(ServerLines(ls, None));
    assert "20" != "20.00" by { assert |"20"| != |"20.00"|; }
  }

  lemma TwoKeys(lines: seq<Line>)
    requires |lines| == 2
    ensures |Keys(lines)| == if KeyOf(lines[0]) == KeyOf(lines[1]) then 1 else 2
  {
    assert lines[..1] == [lines[0]] && [lines[0]][..0] == [];
    assert Keys([lines[0]]) == [KeyOf(lines[0])];
  }
}
