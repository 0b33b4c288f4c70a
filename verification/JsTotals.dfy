/** `calculateTotals` of invoice-calculator.js, in exact arithmetic, against `_enrich_totals`. */
module JsTotals {
  import opened Sums
  import opened Rates
  import opened Totals

  /** Empty rate and category are the falsy values the script replaces. */
  type RateField = s: string | s == "" || IsDecimal(s)

  datatype JsLine = JsLine(quantity: real, unitNetPrice: real, rate: RateField, category: string, reason: string)

  datatype JsVatLine = JsVatLine(category: string, rate: Rate, taxable: real, vat: real, reason: string)

  datatype JsTotals = JsTotals(net: real, vat: real, gross: real)

  datatype Entry = Entry(category: string, rate: Rate, taxable: real, reason: string)

  /** `lineNetAmount`, read back with `parseFloat`. */
  function LineNetAmount(quantity: real, price: real): (r: real)
    ensures Whole(r)
  {
    CentsWhole(quantity * price);
    Cents(quantity * price)
  }

  function RateOf(l: JsLine): Rate {
    DefaultRates();
    if l.rate == "" then "20.00" else l.rate
  }

  function CategoryOf(l: JsLine): string {
    if l.category == "" then "S" else l.category
  }

  /** The line as the script reads it. */
  function ToLine(l: JsLine): Line {
    Line(LineNetAmount(l.quantity, l.unitNetPrice), RateOf(l), CategoryOf(l), l.reason, "")
  }

  function ToLines(ls: seq<JsLine>): (r: seq<Line>)
    ensures |r| == |ls| && forall i | 0 <= i < |r| :: r[i] == ToLine(ls[i])
  {
    seq(|ls|, i requires 0 <= i < |ls| => ToLine(ls[i]))
  }

  /** The property name under which a bucket is kept. */
  function KeyText(k: Key): string {
    k.category + "_" + k.rate
  }

  /** Concatenation confuses no two buckets, as a rate holds no underscore. */
  lemma KeyTextInjective(a: Key, b: Key)
    requires KeyText(a) == KeyText(b)
    ensures a == b
  {
    CategoryNotShorter(a, b);
    CategoryNotShorter(b, a);
    var s, n := KeyText(a), |a.category|;
    assert s[..n] == a.category && s[..n] == b.category;
    assert s[n + 1..] == a.rate && s[n + 1..] == b.rate;
  }

  lemma CategoryNotShorter(a: Key, b: Key)
    requires KeyText(a) == KeyText(b)
    ensures |a.category| >= |b.category|
  {
    NoUnderscore(a.rate);
    var s := KeyText(b);
    assert s[|b.category|] == '_';
    assert forall i | |a.category| < i < |s| :: s[i] == KeyText(a)[i] == a.rate[i - |a.category| - 1];
  }

  /** The exemption reason of the line that opened the bucket; later lines do not supply one. */
  function OpeningReason(lines: seq<Line>, key: Key): string {
    if lines == [] then ""
    else
      var n := |lines| - 1;
      if key in Keys(lines[..n]) then OpeningReason(lines[..n], key)
      else if KeyOf(lines[n]) == key then lines[n].reason else ""
  }

  function EntryOf(lines: seq<Line>, key: Key): Entry {
    Entry(key.category, key.rate, Base(lines, key), OpeningReason(lines, key))
  }

  /** The script divides the rate by a hundred first. */
  function JsTax(base: real, key: Key): real {
    base * (Percent(key.rate) / 100.0)
  }

  lemma JsTaxSame(base: real, key: Key)
    ensures JsTax(base, key) == Tax(base, key)
  {
  }

  /** Tax on a bucket before rounding. */
  function ExactVat(lines: seq<Line>): Key -> real {
    (k: Key) => JsTax(Base(lines, k), k)
  }

  function ExactVatTotal(lines: seq<Line>): real {
    SumOver(Keys(lines), ExactVat(lines))
  }

  function JsVatLineOf(lines: seq<Line>, k: Key): JsVatLine {
    var e := EntryOf(lines, k);
    JsVatLine(e.category, e.rate, Cents(e.taxable), Cents(ExactVat(lines)(k)), e.reason)
  }

  function JsTotalsOf(lines: seq<Line>): JsTotals {
    var net, vat := NetTotal(lines), ExactVatTotal(lines);
    JsTotals(Cents(net), Cents(vat), Cents(net + vat))
  }

  // ---------- the computation ----------

  lemma EntryStep(lines: seq<Line>, l: Line, k: Key)
    requires k in Keys(lines) || k == KeyOf(l)
    ensures Base(lines + [l], k) == Base(lines, k) + if KeyOf(l) == k then l.net else 0.0
    ensures OpeningReason(lines + [l], k) == if k in Keys(lines) then OpeningReason(lines, k) else l.reason
    ensures k !in Keys(lines) ==> Base(lines, k) == 0.0
  {
    assert (lines + [l])[..|lines|] == lines;
    SumOneMore(lines, l, InBucket(k));
    if k !in Keys(lines) {
      AbsentBucket(lines, k);
    }
  }

  /** The property list `order` names the keys in their order. */
  predicate Named(order: seq<string>, keys: seq<Key>) {
    |order| == |keys| && forall i | 0 <= i < |keys| :: order[i] == KeyText(keys[i])
  }

  lemma NamedIn(order: seq<string>, keys: seq<Key>, k: Key)
    requires Named(order, keys)
    ensures KeyText(k) in order <==> k in keys
  {
    if KeyText(k) in order {
      var i :| 0 <= i < |order| && order[i] == KeyText(k);
      KeyTextInjective(keys[i], k);
    }
    if k in keys {
      var i :| 0 <= i < |keys| && keys[i] == k;
      assert order[i] == KeyText(k);
    }
  }

  /** The dictionary holds exactly the buckets of the lines. */
  ghost predicate Holds(vatMap: map<string, Entry>, order: seq<string>, lines: seq<Line>) {
    && Named(order, Keys(lines))
    && (forall t :: t in vatMap <==> t in order)
    && (forall k | k in Keys(lines) :: KeyText(k) in vatMap && vatMap[KeyText(k)] == EntryOf(lines, k))
  }

  /** One turn of the first loop. */
  function WithLine(vatMap: map<string, Entry>, l: Line): map<string, Entry> {
    var key := KeyText(KeyOf(l));
    var e := if key in vatMap then vatMap[key] else Entry(l.category, l.rate, 0.0, l.reason);
    vatMap[key := e.(taxable := e.taxable + l.net)]
  }

  lemma NamedMore(order: seq<string>, keys: seq<Key>, k: Key)
    requires Named(order, keys)
    ensures Named(order + [KeyText(k)], keys + [k])
  {
  }

  lemma HoldsNames(vatMap: map<string, Entry>, order: seq<string>, lines: seq<Line>, l: Line)
    requires Holds(vatMap, order, lines)
    ensures var key := KeyText(KeyOf(l));
            var order' := if key in vatMap then order else order + [key];
            Named(order', Keys(lines + [l])) && forall t :: t in WithLine(vatMap, l) <==> t in order'
  {
    BucketStep(lines, l, KeyOf(l));
    NamedIn(order, Keys(lines), KeyOf(l));
    NamedMore(order, Keys(lines), KeyOf(l));
    hide Keys, EntryOf, KeyText, Named, BucketOf, Added, NetTotal;
  }

  lemma HoldsEntry(vatMap: map<string, Entry>, order: seq<string>, lines: seq<Line>, l: Line, k: Key)
    requires Holds(vatMap, order, lines) && k in Keys(lines + [l])
    ensures KeyText(k) in WithLine(vatMap, l) && WithLine(vatMap, l)[KeyText(k)] == EntryOf(lines + [l], k)
  {
    hide Keys, KeyText, Base, OpeningReason, Named;
    BucketStep(lines, l, KeyOf(l));
    NamedIn(order, Keys(lines), KeyOf(l));
    EntryStep(lines, l, k);
    if k != KeyOf(l) {
      assert k in Keys(lines);
      if KeyText(k) == KeyText(KeyOf(l)) {
        KeyTextInjective(k, KeyOf(l));
      }
      assert WithLine(vatMap, l)[KeyText(k)] == vatMap[KeyText(k)];
    }
  }

  lemma HoldsStep(vatMap: map<string, Entry>, order: seq<string>, lines: seq<Line>, l: Line)
    requires Holds(vatMap, order, lines)
    ensures var key := KeyText(KeyOf(l));
            Holds(WithLine(vatMap, l), if key in vatMap then order else order + [key], lines + [l])
  {
    HoldsNames(vatMap, order, lines, l);
    forall k | k in Keys(lines + [l])
      ensures KeyText(k) in WithLine(vatMap, l) && WithLine(vatMap, l)[KeyText(k)] == EntryOf(lines + [l], k)
    {
      HoldsEntry(vatMap, order, lines, l, k);
    }
    hide Keys, KeyText, EntryOf, WithLine, Named;
  }

  lemma HoldsAt(vatMap: map<string, Entry>, order: seq<string>, lines: seq<Line>, i: nat)
    requires Holds(vatMap, order, lines) && i < |order|
    ensures |order| == |Keys(lines)| && order[i] in vatMap && vatMap[order[i]] == EntryOf(lines, Keys(lines)[i])
  {
    assert Keys(lines)[i] in Keys(lines);
  }

  /** The body of the first loop. */
  method AddLine(l: JsLine, order: seq<string>, vatMap: map<string, Entry>)
    returns (amount: real, order': seq<string>, vatMap': map<string, Entry>)
    ensures amount == ToLine(l).net && vatMap' == WithLine(vatMap, ToLine(l))
    ensures var key := KeyText(KeyOf(ToLine(l))); order' == if key in vatMap then order else order + [key]
  {
    amount, order', vatMap' := LineNetAmount(l.quantity, l.unitNetPrice), order, vatMap;
    var rate, category := RateOf(l), CategoryOf(l);
    var key := category + "_" + rate;
    if key !in vatMap' {
      vatMap' := vatMap'[key := Entry(category, rate, 0.0, l.reason)];
      order' := order' + [key];
    }
    vatMap' := vatMap'[key := vatMap'[key].(taxable := vatMap'[key].taxable + amount)];
  }

  /** The first loop: `vatMap` and `totalNetAmount`. */
  method FillVatMap(ls: seq<JsLine>) returns (net: real, order: seq<string>, vatMap: map<string, Entry>)
    ensures net == NetTotal(ToLines(ls)) && Holds(vatMap, order, ToLines(ls))
  {
    ghost var lines := ToLines(ls);
    net, order, vatMap := 0.0, [], map[];
    for i := 0 to |ls|
      invariant net == NetTotal(lines[..i]) && Holds(vatMap, order, lines[..i])
    {
      hide Holds, NetTotal, ToLine, WithLine, KeyText, Keys;
      ghost var l := lines[i];
      assert lines[..i + 1] == lines[..i] + [l];
      BucketStep(lines[..i], l, KeyOf(l));
      HoldsStep(vatMap, order, lines[..i], l);
      var amount;
      amount, order, vatMap := AddLine(ls[i], order, vatMap);
      net := net + amount;
    }
    assert lines[..|ls|] == lines;
  }

  lemma PrintedLine(lines: seq<Line>, k: Key, e: Entry)
    requires e == EntryOf(lines, k)
    ensures JsTax(e.taxable, Key(e.rate, e.category)) == ExactVat(lines)(k)
    ensures JsVatLineOf(lines, k)
         == JsVatLine(e.category, e.rate, Cents(e.taxable), Cents(ExactVat(lines)(k)), e.reason)
  {
  }

  lemma HoldsSize(vatMap: map<string, Entry>, order: seq<string>, lines: seq<Line>)
    requires Holds(vatMap, order, lines)
    ensures |order| == |Keys(lines)|
    ensures SumOver(Keys(lines)[..0], ExactVat(lines)) == 0.0
  {
  }

  /** The second loop: the VAT lines, and the sum of their unrounded amounts. */
  method PrintVatLines(ghost lines: seq<Line>, order: seq<string>, vatMap: map<string, Entry>)
    returns (vatTotal: real, vatLines: seq<JsVatLine>)
    requires Holds(vatMap, order, lines)
    ensures vatTotal == ExactVatTotal(lines) && |vatLines| == |Keys(lines)|
    ensures forall i | 0 <= i < |vatLines| :: vatLines[i] == JsVatLineOf(lines, Keys(lines)[i])
  {
    ghost var keys := Keys(lines);
    vatTotal, vatLines := 0.0, [];
    hide SumOver, Keys, EntryOf, Cents, JsTax, Holds, ExactVat, JsVatLineOf;
    HoldsSize(vatMap, order, lines);
    for i := 0 to |order|
      invariant |order| == |keys| && |vatLines| == i
      invariant forall j | 0 <= j < i :: vatLines[j] == JsVatLineOf(lines, keys[j])
      invariant vatTotal == SumOver(keys[..i], ExactVat(lines))
    {
      HoldsAt(vatMap, order, lines, i);
      var e := vatMap[order[i]];
      PrintedLine(lines, keys[i], e);
      var vatAmount := JsTax(e.taxable, Key(e.rate, e.category));
      assert keys[..i + 1] == keys[..i] + [keys[i]];
      SumOneMore(keys[..i], keys[i], ExactVat(lines));
      vatTotal := vatTotal + vatAmount;
      var v := JsVatLine(e.category, e.rate, Cents(e.taxable), Cents(vatAmount), e.reason);
      assert v == JsVatLineOf(lines, keys[i]);
      vatLines := vatLines + [v];
    }
    assert keys[..|order|] == keys;
  }

  /** `calculateTotals`. */
  method CalculateTotals(ls: seq<JsLine>) returns (totals: JsTotals, vatLines: seq<JsVatLine>)
    ensures totals == JsTotalsOf(ToLines(ls))
    ensures |vatLines| == |Keys(ToLines(ls))|
    ensures forall i | 0 <= i < |vatLines| :: vatLines[i] == JsVatLineOf(ToLines(ls), Keys(ToLines(ls))[i])
  {
    hide Holds, NetTotal, ExactVatTotal, Keys, JsVatLineOf, Cents;
    var net, order, vatMap := FillVatMap(ls);
    var vatTotal;
    vatTotal, vatLines := PrintVatLines(ToLines(ls), order, vatMap);
    totals := JsTotals(Cents(net), Cents(vatTotal), Cents(net + vatTotal));
  }

  // ---------- the two ways of rounding, on the same lines ----------

  lemma WholeLines(ls: seq<JsLine>)
    ensures Whole(NetTotal(ToLines(ls)))
    ensures forall k :: Whole(Base(ToLines(ls), k))
  {
    var lines := ToLines(ls);
    hide SumOver, LineNetAmount, RateOf, CategoryOf;
    forall l | l in lines ensures Whole(Net(l)) {
    }
    WholeSums(lines, Net);
    forall k ensures Whole(Base(lines, k)) {
      forall l | l in lines ensures Whole(InBucket(k)(l)) {
        assert 0.0 == Cent(0);
        assert Whole(Net(l));
      }
      WholeSums(lines, InBucket(k));
    }
  }

  /** Same net total, and bucket by bucket the same taxable amount and the same VAT amount. */
  lemma FiguresAgree(ls: seq<JsLine>)
    ensures var lines := ToLines(ls);
            && JsTotalsOf(lines).net == TotalsOf(lines).net
            && forall k :: JsVatLineOf(lines, k).taxable == VatLineOf(lines, k).base
                           && JsVatLineOf(lines, k).vat == VatLineOf(lines, k).vat
  {
    var lines := ToLines(ls);
    WholeLines(ls);
    CentsExact(NetTotal(lines));
    forall k
      ensures JsVatLineOf(lines, k).taxable == VatLineOf(lines, k).base
      ensures JsVatLineOf(lines, k).vat == VatLineOf(lines, k).vat
    {
      CentsExact(Base(lines, k));
      SameTax(lines, k);
    }
  }

  lemma SameTax(lines: seq<Line>, k: Key)
    ensures Cents(ExactVat(lines)(k)) == VatAt(lines)(k)
  {
    hide Tax, JsTax, Base;
    JsTaxSame(Base(lines, k), k);
  }

  /** The totals differ by at most half a cent per bucket and half a cent more; with one bucket (or
      none) the VAT totals are equal, and so are the gross totals short of a sign tie. */
  lemma FiguresClose(ls: seq<JsLine>)
    ensures var lines := ToLines(ls);
            var e := 0.005 * (|Keys(lines)| as real + 1.0);
            && -e <= JsTotalsOf(lines).vat - TotalsOf(lines).vat <= e
            && -e <= JsTotalsOf(lines).gross - TotalsOf(lines).gross <= e
            && (|Keys(lines)| <= 1 ==> JsTotalsOf(lines).vat == TotalsOf(lines).vat)
            && (|Keys(lines)| <= 1 && !SignTie(lines) ==> JsTotalsOf(lines).gross == TotalsOf(lines).gross)
  {
    var lines := ToLines(ls);
    JsGrossAddsUpIff(ls);
    var keys := Keys(lines);
    var f, g := VatAt(lines), ExactVat(lines);
    TotalsAddUp(lines);
    FiguresAgree(ls);
    forall k ensures f(k) == Cents(g(k)) {
      SameTax(lines, k);
    }
    CloseSums(keys, f, g);
  }

  lemma CloseSums(keys: seq<Key>, f: Key -> real, g: Key -> real)
    requires forall k :: f(k) == Cents(g(k))
    ensures var e := 0.005 * (|keys| as real);
            -e <= SumOver(keys, f) - SumOver(keys, g) <= e
    ensures |keys| <= 1 ==> SumOver(keys, f) == Cents(SumOver(keys, g))
  {
    forall k ensures -0.005 <= f(k) - g(k) <= 0.005 {
    }
    SumClose(keys, f, g, 0.005);
    if |keys| == 1 {
      assert keys[..0] == [];
    } else if |keys| == 0 {
      assert 0.0 == Cent(0);
      CentsExact(0.0);
    }
  }

  /** The printed gross total is the printed net plus the printed VAT unless the VAT falls exactly
      between two cents and the net amount reverses its sign. */
  lemma JsGrossAddsUpIff(ls: seq<JsLine>)
    ensures var lines := ToLines(ls);
            JsTotalsOf(lines).gross == JsTotalsOf(lines).net + JsTotalsOf(lines).vat <==> !SignTie(lines)
  {
    var lines := ToLines(ls);
    WholeLines(ls);
    CentsExact(NetTotal(lines));
    var n: int :| NetTotal(lines) == Cent(n);
    hide NetTotal, ExactVatTotal, Cents, Tie;
    CentsShiftIff(n, ExactVatTotal(lines));
  }

  predicate SignTie(lines: seq<Line>) {
    var net, vat := NetTotal(lines), ExactVatTotal(lines);
    Tie(vat) && (vat < 0.0) != (net + vat < 0.0)
  }

  /** In particular it always adds up on non-negative lines. */
  lemma JsGrossAddsUp(ls: seq<JsLine>)
    requires forall l | l in ls :: l.quantity >= 0.0 && l.unitNetPrice >= 0.0
    ensures var t := JsTotalsOf(ToLines(ls)); t.gross == t.net + t.vat
  {
    var lines := ToLines(ls);
    hide SumOver, Keys, Percent, JsTax;
    forall l | l in lines ensures Net(l) >= 0.0 {
      var i :| 0 <= i < |lines| && lines[i] == l;
      assert ls[i] in ls;
      NonNegativeLine(ls[i]);
    }
    SumNonNegative(lines, Net);
    forall k ensures ExactVat(lines)(k) >= 0.0 {
      forall l | l in lines ensures InBucket(k)(l) >= 0.0 {
        assert Net(l) >= 0.0;
      }
      SumNonNegative(lines, InBucket(k));
      NonNegativeTax(Base(lines, k), k);
    }
    SumNonNegative(Keys(lines), ExactVat(lines));
    JsGrossAddsUpIff(ls);
  }

  lemma NonNegativeLine(l: JsLine)
    requires l.quantity >= 0.0 && l.unitNetPrice >= 0.0
    ensures ToLine(l).net >= 0.0
  {
    assert l.quantity * l.unitNetPrice >= 0.0;
  }

  lemma NonNegativeTax(base: real, k: Key)
    requires base >= 0.0
    ensures JsTax(base, k) >= 0.0
  {
    assert Percent(k.rate) / 100.0 >= 0.0;
  }

  /** A credit line can break it: 1.05 without tax less 0.05 at 10 % print 1.00, -0.01 and 1.00. */
  lemma JsGrossCanFail()
    ensures IsDecimal("0") && IsDecimal("10")
    ensures var lines := ToLines([JsLine(1.0, 1.05, "0", "S", ""), JsLine(1.0, -0.05, "10", "S", "")]);
            SignTie(lines) && JsTotalsOf(lines).gross != JsTotalsOf(lines).net + JsTotalsOf(lines).vat
  {
    TenPercent();
    ZeroPercent();
    var ls := [JsLine(1.0, 1.05, "0", "S", ""), JsLine(1.0, -0.05, "10", "S", "")];
    var a, b := Line(1.05, "0", "S", "", ""), Line(-0.05, "10", "S", "", "");
    assert Cent(105) == 1.05 && Cent(-5) == -0.05;
    assert ToLines(ls) == [a] + [b];
    assert "0" != "10" by { assert |"0"| != |"10"|; }
    hide Keys, NetTotal, ExactVat, Tie, SumOver, ToLine;
    TwoBuckets(a, b);
    TieAt();
    JsGrossAddsUpIff(ls);
  }

  lemma TwoBuckets(a: Line, b: Line)
    requires KeyOf(a) != KeyOf(b)
    ensures NetTotal([a] + [b]) == a.net + b.net
    ensures ExactVatTotal([a] + [b]) == JsTax(a.net, KeyOf(a)) + JsTax(b.net, KeyOf(b))
  {
    var k, k', lines := KeyOf(a), KeyOf(b), [a] + [b];
    OneLine(a);
    BucketStep([a], b, k');
    BucketStep([a], b, k);
    AbsentBucket([a], k');
    assert Keys(lines) == [k] + [k'];
    var f := ExactVat(lines);
    assert f(k) == JsTax(a.net, k) && f(k') == JsTax(b.net, k');
    hide ExactVat, Keys, JsTax;
    TwoTerms(k, k', f);
  }

  lemma TieAt()
    ensures Tie(-0.005)
  {
  }

  lemma TwoTerms(k: Key, k': Key, f: Key -> real)
    ensures SumOver([k] + [k'], f) == f(k) + f(k')
  {
    SumOneMore([k], k', f);
    SumOneMore([], k, f);
    assert [] + [k] == [k];
  }

  lemma OneLine(l: Line)
    ensures Keys([l]) == [KeyOf(l)] && NetTotal([l]) == l.net && Base([l], KeyOf(l)) == l.net
  {
    BucketStep([], l, KeyOf(l));
    SumOneMore([], l, InBucket(KeyOf(l)));
    assert [] + [l] == [l];
  }

  /** The reason of a bucket is that of the line that opens it, given or not. */
  lemma {:induction false} OpeningReasonIs(lines: seq<Line>, key: Key)
    requires key in Keys(lines)
    ensures exists i | 0 <= i < |lines| ::
              && KeyOf(lines[i]) == key && OpeningReason(lines, key) == lines[i].reason
              && forall j | 0 <= j < i :: KeyOf(lines[j]) != key
  {
    var n := |lines| - 1;
    if key in Keys(lines[..n]) {
      OpeningReasonIs(lines[..n], key);
      var i :| 0 <= i < n && KeyOf(lines[..n][i]) == key && OpeningReason(lines[..n], key) == lines[..n][i].reason
               && forall j | 0 <= j < i :: KeyOf(lines[..n][j]) != key;
      assert lines[i] == lines[..n][i];
      assert forall j | 0 <= j < i :: lines[j] == lines[..n][j];
    } else {
      forall j | 0 <= j < n ensures KeyOf(lines[j]) != key {
        KeysOfLines(lines[..n], key);
        assert lines[..n][j] in lines[..n];
      }
      assert KeyOf(lines[n]) == key;
    }
  }
}
