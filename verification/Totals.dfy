/** `_enrich_totals`: VAT buckets, VAT lines and document totals, in exact arithmetic. */
module Totals {
  import opened Sums
  import opened Rates

  /** An enriched invoice line, as the totals read it. */
  datatype Line = Line(net: real, rate: Rate, category: string, reason: string, code: string)

  datatype Key = Key(rate: Rate, category: string)

  datatype Bucket = Bucket(base: real, reason: string, code: string)

  datatype VatLine = VatLine(key: Key, base: real, vat: real, reason: string, code: string)

  datatype DocumentTotals = DocumentTotals(net: real, vat: real, gross: real, due: real)

  // ---------- what the figures mean ----------

  function KeyOf(l: Line): Key {
    Key(l.rate, l.category)
  }

  function Net(l: Line): real {
    l.net
  }

  function NetTotal(lines: seq<Line>): real {
    SumOver(lines, Net)
  }

  function InBucket(key: Key): Line -> real {
    (l: Line) => if KeyOf(l) == key then l.net else 0.0
  }

  /** The taxable amount of a bucket: the net amounts of the lines under its key. */
  function Base(lines: seq<Line>, key: Key): real {
    SumOver(lines, InBucket(key))
  }

  /** The tax on an amount under a key, before rounding. */
  function Tax(base: real, key: Key): real {
    base * Percent(key.rate) / 100.0
  }

  function VatAmount(base: real, key: Key): real {
    Cents(Tax(base, key))
  }

  function Reason(l: Line): string {
    l.reason
  }

  function Code(l: Line): string {
    l.code
  }

  /** The first exemption reason (or code) given by a line of the bucket. */
  function FirstGiven(lines: seq<Line>, key: Key, pick: Line -> string): string {
    if lines == [] then ""
    else
      var before, l := FirstGiven(lines[..|lines| - 1], key, pick), lines[|lines| - 1];
      if before != "" then before else if KeyOf(l) == key then pick(l) else ""
  }

  function BucketOf(lines: seq<Line>, key: Key): Bucket {
    Bucket(Base(lines, key), FirstGiven(lines, key, Reason), FirstGiven(lines, key, Code))
  }

  /** The keys in the order the lines first use them. */
  function Keys(lines: seq<Line>): (r: seq<Key>)
    ensures forall i, j | 0 <= i < j < |r| :: r[i] != r[j]
  {
    if lines == [] then []
    else
      var n := |lines| - 1;
      var before := Keys(lines[..n]);
      if KeyOf(lines[n]) in before then before else before + [KeyOf(lines[n])]
  }

  /** A key has a bucket when some line uses it. */
  lemma {:induction false} KeysOfLines(lines: seq<Line>, k: Key)
    ensures k in Keys(lines) <==> exists l | l in lines :: KeyOf(l) == k
  {
    if lines != [] {
      var n := |lines| - 1;
      assert lines == lines[..n] + [lines[n]];
      KeysOfLines(lines[..n], k);
    }
  }

  function VatLineOf(lines: seq<Line>, key: Key): VatLine {
    var b := BucketOf(lines, key);
    VatLine(key, b.base, VatAmount(b.base, key), b.reason, b.code)
  }

  function VatLines(lines: seq<Line>): (r: seq<VatLine>)
    ensures |r| == |Keys(lines)| && forall i | 0 <= i < |r| :: r[i] == VatLineOf(lines, Keys(lines)[i])
  {
    seq(|Keys(lines)|, i requires 0 <= i < |Keys(lines)| => VatLineOf(lines, Keys(lines)[i]))
  }

  function Vat(v: VatLine): real {
    v.vat
  }

  function VatTotal(lines: seq<Line>): real {
    SumOver(VatLines(lines), Vat)
  }

  function TotalsOf(lines: seq<Line>): DocumentTotals {
    var net, vat := NetTotal(lines), VatTotal(lines);
    DocumentTotals(net, vat, net + vat, net + vat)
  }

  // ---------- the computation ----------

  /** One turn of the first loop. */
  function Added(b: Bucket, l: Line): Bucket {
    Bucket(b.base + l.net, if b.reason != "" then b.reason else l.reason, if b.code != "" then b.code else l.code)
  }

  lemma BucketStep(lines: seq<Line>, l: Line, k: Key)
    ensures BucketOf(lines + [l], k) == if KeyOf(l) == k then Added(BucketOf(lines, k), l) else BucketOf(lines, k)
    ensures NetTotal(lines + [l]) == NetTotal(lines) + l.net
    ensures Keys(lines + [l]) == if KeyOf(l) in Keys(lines) then Keys(lines) else Keys(lines) + [KeyOf(l)]
  {
    assert (lines + [l])[..|lines|] == lines;
  }

  lemma {:induction false} AbsentBucket(lines: seq<Line>, key: Key)
    requires key !in Keys(lines)
    ensures BucketOf(lines, key) == Bucket(0.0, "", "")
  {
    if lines != [] {
      var n := |lines| - 1;
      assert lines == lines[..n] + [lines[n]];
      AbsentBucket(lines[..n], key);
    }
  }

  /** The dictionary `vat_buckets` after the lines. */
  ghost predicate Filled(buckets: map<Key, Bucket>, order: seq<Key>, lines: seq<Line>) {
    && order == Keys(lines)
    && (forall k :: k in buckets <==> k in order)
    && (forall k | k in order :: buckets[k] == BucketOf(lines, k))
  }

  function WithLine(buckets: map<Key, Bucket>, l: Line): map<Key, Bucket> {
    var key := KeyOf(l);
    buckets[key := Added(if key in buckets then buckets[key] else Bucket(0.0, "", ""), l)]
  }

  lemma FilledEntry(buckets: map<Key, Bucket>, order: seq<Key>, lines: seq<Line>, l: Line, k: Key)
    requires Filled(buckets, order, lines) && k in Keys(lines + [l])
    ensures k in WithLine(buckets, l) && WithLine(buckets, l)[k] == BucketOf(lines + [l], k)
  {
    BucketStep(lines, l, k);
    if k !in order {
      BucketStep(lines, l, KeyOf(l));
      AbsentBucket(lines, k);
    }
    hide Keys, BucketOf, Added;
  }

  lemma FilledKeys(buckets: map<Key, Bucket>, order: seq<Key>, lines: seq<Line>, l: Line)
    requires Filled(buckets, order, lines)
    ensures var order' := if KeyOf(l) in buckets then order else order + [KeyOf(l)];
            order' == Keys(lines + [l]) && forall k :: k in WithLine(buckets, l) <==> k in order'
  {
    BucketStep(lines, l, KeyOf(l));
    hide Keys, BucketOf, Added;
  }

  lemma FilledStep(buckets: map<Key, Bucket>, order: seq<Key>, lines: seq<Line>, l: Line)
    requires Filled(buckets, order, lines)
    ensures Filled(WithLine(buckets, l), if KeyOf(l) in buckets then order else order + [KeyOf(l)], lines + [l])
  {
    FilledKeys(buckets, order, lines, l);
    forall k | k in Keys(lines + [l])
      ensures k in WithLine(buckets, l) && WithLine(buckets, l)[k] == BucketOf(lines + [l], k)
    {
      FilledEntry(buckets, order, lines, l, k);
    }
    hide Keys, BucketOf, WithLine;
  }

  lemma FilledEmpty()
    ensures Filled(map[], [], []) && NetTotal([]) == 0.0
  {
  }

  /** The body of the first loop of `_enrich_totals`. */
  method AddLine(l: Line, order: seq<Key>, buckets: map<Key, Bucket>)
    returns (order': seq<Key>, buckets': map<Key, Bucket>)
    ensures buckets' == WithLine(buckets, l) && order' == if KeyOf(l) in buckets then order else order + [KeyOf(l)]
  {
    var key := Key(l.rate, l.category);
    order', buckets' := order, buckets;
    if key !in buckets' {
      order' := order' + [key];
      buckets' := buckets'[key := Bucket(0.0, "", "")];
    }
    var b := buckets'[key];
    b := b.(base := b.base + l.net);
    if l.reason != "" && b.reason == "" {
      b := b.(reason := l.reason);
    }
    if l.code != "" && b.code == "" {
      b := b.(code := l.code);
    }
    buckets' := buckets'[key := b];
  }

  /** The first loop: the net total, and the buckets in an insertion-ordered dictionary. */
  method FillBuckets(lines: seq<Line>) returns (totalNet: real, order: seq<Key>, buckets: map<Key, Bucket>)
    ensures totalNet == NetTotal(lines) && Filled(buckets, order, lines)
  {
    hide Filled, NetTotal, Keys, BucketOf, WithLine;
    totalNet, order, buckets := 0.0, [], map[];
    FilledEmpty();
    assert lines[..0] == [];
    for i := 0 to |lines|
      invariant totalNet == NetTotal(lines[..i]) && Filled(buckets, order, lines[..i])
    {
      var l := lines[i];
      assert lines[..i + 1] == lines[..i] + [l];
      BucketStep(lines[..i], l, KeyOf(l));
      FilledStep(buckets, order, lines[..i], l);
      totalNet := totalNet + l.net;
      order, buckets := AddLine(l, order, buckets);
    }
    assert lines[..|lines|] == lines;
  }

  lemma VatLinesStep(lines: seq<Line>, i: nat)
    requires i < |Keys(lines)|
    ensures VatLines(lines)[..i + 1] == VatLines(lines)[..i] + [VatLineOf(lines, Keys(lines)[i])]
    ensures SumOver(VatLines(lines)[..i + 1], Vat)
         == SumOver(VatLines(lines)[..i], Vat) + VatLineOf(lines, Keys(lines)[i]).vat
  {
    hide SumOver, VatLineOf, Keys;
    assert VatLines(lines)[..i + 1] == VatLines(lines)[..i] + [VatLineOf(lines, Keys(lines)[i])];
    SumOneMore(VatLines(lines)[..i], VatLineOf(lines, Keys(lines)[i]), Vat);
  }

  lemma NoVatYet(lines: seq<Line>)
    ensures SumOver(VatLines(lines)[..0], Vat) == 0.0
  {
  }

  lemma FilledAt(buckets: map<Key, Bucket>, order: seq<Key>, lines: seq<Line>)
    requires Filled(buckets, order, lines)
    ensures order == Keys(lines) && forall k | k in order :: k in buckets && buckets[k] == BucketOf(lines, k)
  {
  }

  /** The second loop of `_enrich_totals`: one VAT line for each bucket. */
  method PrintVatLines(ghost lines: seq<Line>, order: seq<Key>, buckets: map<Key, Bucket>)
    returns (totalVat: real, vatLines: seq<VatLine>)
    requires Filled(buckets, order, lines)
    ensures totalVat == VatTotal(lines) && vatLines == VatLines(lines)
  {
    hide VatAmount, BucketOf, SumOver, VatLines, Keys, Filled;
    totalVat, vatLines := 0.0, [];
    NoVatYet(lines);
    assert order == Keys(lines) by { FilledAt(buckets, order, lines); }
    for i := 0 to |order|
      invariant vatLines == VatLines(lines)[..i]
      invariant totalVat == SumOver(VatLines(lines)[..i], Vat)
    {
      VatLinesStep(lines, i);
      FilledAt(buckets, order, lines);
      var key := order[i];
      var b := buckets[key];
      var vatAmount := VatAmount(b.base, key);
      totalVat := totalVat + vatAmount;
      vatLines := vatLines + [VatLine(key, b.base, vatAmount, b.reason, b.code)];
    }
    assert VatLines(lines)[..|order|] == VatLines(lines);
  }

  /** `_enrich_totals`: the buckets, then the VAT lines, then the totals. */
  method ComputeTotals(lines: seq<Line>) returns (totals: DocumentTotals, vatLines: seq<VatLine>)
    ensures totals == TotalsOf(lines) && vatLines == VatLines(lines)
  {
    hide NetTotal, VatTotal, VatLines, Filled;
    var totalNet, order, buckets := FillBuckets(lines);
    var totalVat;
    totalVat, vatLines := PrintVatLines(lines, order, buckets);
    var totalGross := totalNet + totalVat;
    totals := DocumentTotals(totalNet, totalVat, totalGross, totalGross);
  }

  // ---------- EN 16931 ----------

  function WeightedBase(lines: seq<Line>, w: Key -> real): Key -> real {
    (k: Key) => w(k) * Base(lines, k)
  }

  function WeightedNet(w: Key -> real): Line -> real {
    (l: Line) => w(KeyOf(l)) * l.net
  }

  lemma BaseStep(lines: seq<Line>, l: Line, w: Key -> real, k: Key)
    ensures WeightedBase(lines + [l], w)(k)
         == WeightedBase(lines, w)(k) + if KeyOf(l) == k then WeightedNet(w)(l) else 0.0
  {
    SumOneMore(lines, l, InBucket(k));
    var d := InBucket(k)(l);
    assert w(k) * (Base(lines, k) + d) == w(k) * Base(lines, k) + w(k) * d;
  }

  /** Summing by bucket is summing by line, whatever weight goes with the key. */
  lemma {:induction false} ByBucket(lines: seq<Line>, w: Key -> real)
    ensures SumOver(Keys(lines), WeightedBase(lines, w)) == SumOver(lines, WeightedNet(w))
  {
    if lines != [] {
      var n := |lines| - 1;
      var before, last := lines[..n], lines[n];
      assert lines == before + [last];
      ByBucket(before, w);
      var f, g, key := WeightedBase(before, w), WeightedBase(lines, w), KeyOf(last);
      forall k ensures g(k) == f(k) + if key == k then WeightedNet(w)(last) else 0.0 {
        BaseStep(before, last, w, k);
      }
      BucketStep(before, last, key);
      hide SumOver, WeightedBase, WeightedNet, Keys;
      SumOneMore(before, last, WeightedNet(w));
      if key in Keys(before) {
        SumBumped(Keys(before), f, g, key, WeightedNet(w)(last));
      } else {
        AbsentIsZero(before, key, w);
        SumSame(Keys(before), f, g);
        SumOneMore(Keys(before), key, g);
      }
    }
  }

  lemma AbsentIsZero(lines: seq<Line>, key: Key, w: Key -> real)
    requires key !in Keys(lines)
    ensures WeightedBase(lines, w)(key) == 0.0
  {
    AbsentBucket(lines, key);
  }

  function BaseAt(lines: seq<Line>): Key -> real {
    (k: Key) => Base(lines, k)
  }

  function VatAt(lines: seq<Line>): Key -> real {
    (k: Key) => VatAmount(Base(lines, k), k)
  }

  /** BR-CO-10, BR-CO-14, BR-CO-15: the taxable amounts sum to the net total, the VAT amounts to the
      VAT total, and gross is net plus VAT. */
  lemma TotalsAddUp(lines: seq<Line>)
    ensures SumOver(Keys(lines), BaseAt(lines)) == TotalsOf(lines).net
    ensures SumOver(Keys(lines), VatAt(lines)) == TotalsOf(lines).vat
    ensures TotalsOf(lines).gross == TotalsOf(lines).net + TotalsOf(lines).vat == TotalsOf(lines).due
  {
    var one := (k: Key) => 1.0;
    ByBucket(lines, one);
    SumSame(Keys(lines), WeightedBase(lines, one), BaseAt(lines));
    SumSame(lines, WeightedNet(one), Net);
    forall i | 0 <= i < |Keys(lines)| ensures Vat(VatLines(lines)[i]) == VatAt(lines)(Keys(lines)[i]) {
      VatOfKey(lines, i);
    }
    hide VatLines, Keys;
    SumMapped(VatLines(lines), Keys(lines), Vat, VatAt(lines));
  }

  lemma VatOfKey(lines: seq<Line>, i: nat)
    requires i < |Keys(lines)|
    ensures Vat(VatLines(lines)[i]) == VatAt(lines)(Keys(lines)[i])
  {
  }

  /** The unrounded tax on a line. */
  function TaxOn(l: Line): real {
    Tax(l.net, KeyOf(l))
  }

  function Rated(k: Key): real {
    Percent(k.rate) / 100.0
  }

  /** BR-CO-17: the VAT total is within half a cent per bucket of the unrounded tax on the lines. */
  lemma VatRoundingBound(lines: seq<Line>)
    ensures var k, exact := |Keys(lines)| as real, SumOver(lines, TaxOn);
            -0.005 * k <= TotalsOf(lines).vat - exact <= 0.005 * k
  {
    hide SumOver, Keys, TotalsOf, Rated, TaxOn;
    TotalsAddUp(lines);
    ExactTax(lines);
    var f, g := VatAt(lines), WeightedBase(lines, Rated);
    forall k ensures -0.005 <= f(k) - g(k) <= 0.005 {
      RoundedClose(lines, k);
    }
    SumClose(Keys(lines), f, g, 0.005);
  }

  lemma PercentOf(x: real, y: real)
    ensures x * y / 100.0 == y / 100.0 * x
  {
    assert x * y == y * x;
  }

  lemma VatAmountClose(base: real, key: Key)
    ensures -0.005 <= VatAmount(base, key) - Rated(key) * base <= 0.005
  {
    hide Percent;
    PercentOf(base, Percent(key.rate));
  }

  lemma RoundedClose(lines: seq<Line>, k: Key)
    ensures -0.005 <= VatAt(lines)(k) - WeightedBase(lines, Rated)(k) <= 0.005
  {
    hide VatAmount, Rated, Base;
    VatAmountClose(Base(lines, k), k);
  }

  lemma TaxedNet(l: Line)
    ensures WeightedNet(Rated)(l) == TaxOn(l)
  {
    hide Percent;
    var k := KeyOf(l);
    assert Rated(k) == Percent(l.rate) / 100.0;
    PercentOf(l.net, Percent(l.rate));
    assert Rated(k) * l.net == TaxOn(l);
  }

  lemma ExactTax(lines: seq<Line>)
    ensures SumOver(Keys(lines), WeightedBase(lines, Rated)) == SumOver(lines, TaxOn)
  {
    hide SumOver, Keys, WeightedBase, WeightedNet, TaxOn, Rated;
    ByBucket(lines, Rated);
    forall l: Line ensures WeightedNet(Rated)(l) == TaxOn(l) {
      TaxedNet(l);
    }
    SumSame(lines, WeightedNet(Rated), TaxOn);
  }

  /** The order of the lines changes no amount: not the totals, nor the amounts of any VAT line. */
  lemma OrderIrrelevant(a: seq<Line>, b: seq<Line>)
    requires multiset(a) == multiset(b)
    ensures TotalsOf(a) == TotalsOf(b)
    ensures multiset(Keys(a)) == multiset(Keys(b))
    ensures forall k :: Base(a, k) == Base(b, k) && VatLineOf(a, k).vat == VatLineOf(b, k).vat
  {
    hide SumOver, Keys, VatAmount, FirstGiven;
    TotalsAddUp(a);
    TotalsAddUp(b);
    SameKeys(a, b);
    SumPermuted(a, b, Net);
    forall k ensures Base(a, k) == Base(b, k) {
      SumPermuted(a, b, InBucket(k));
    }
    SumPermuted(Keys(a), Keys(b), VatAt(a));
    SumSame(Keys(b), VatAt(a), VatAt(b));
  }

  lemma SameKeys(a: seq<Line>, b: seq<Line>)
    requires multiset(a) == multiset(b)
    ensures multiset(Keys(a)) == multiset(Keys(b))
  {
    assert forall l :: l in a <==> l in multiset(a);
    assert forall l :: l in b <==> l in multiset(b);
    forall k ensures multiset(Keys(a))[k] == multiset(Keys(b))[k] {
      OnceEach(Keys(a), k);
      OnceEach(Keys(b), k);
      KeysOfLines(a, k);
      KeysOfLines(b, k);
    }
  }

  lemma {:induction false} OnceEach(keys: seq<Key>, k: Key)
    requires forall i, j | 0 <= i < j < |keys| :: keys[i] != keys[j]
    ensures multiset(keys)[k] == if k in keys then 1 else 0
  {
    if keys != [] {
      var n := |keys| - 1;
      assert keys == keys[..n] + [keys[n]];
      OnceEach(keys[..n], k);
    }
  }

  /** The text of a bucket is that of its first line that gives one; none only if no line does. */
  lemma {:induction false} FirstGivenIs(lines: seq<Line>, key: Key, pick: Line -> string)
    ensures var text := FirstGiven(lines, key, pick);
            if text == "" then forall i | 0 <= i < |lines| && KeyOf(lines[i]) == key :: pick(lines[i]) == ""
            else exists i | 0 <= i < |lines| ::
                   && KeyOf(lines[i]) == key && pick(lines[i]) == text
                   && forall j | 0 <= j < i && KeyOf(lines[j]) == key :: pick(lines[j]) == ""
  {
    if lines != [] {
      var n := |lines| - 1;
      FirstGivenIs(lines[..n], key, pick);
      if FirstGiven(lines[..n], key, pick) != "" {
        var i :| 0 <= i < n && KeyOf(lines[..n][i]) == key && pick(lines[..n][i]) == FirstGiven(lines[..n], key, pick)
                 && forall j | 0 <= j < i && KeyOf(lines[..n][j]) == key :: pick(lines[..n][j]) == "";
        assert lines[i] == lines[..n][i];
        assert forall j | 0 <= j < i :: lines[j] == lines[..n][j];
      } else {
        assert forall j | 0 <= j < n :: lines[j] == lines[..n][j];
      }
    }
  }

  /** Tax on an amount at a rate in percent, to the nearest cent. */
  function VatAt100(base: real, percent: real): real {
    Cents(TaxAt100(base, percent))
  }

  function TaxAt100(base: real, percent: real): real {
    base * percent / 100.0
  }

  lemma VatAmountIs(base: real, key: Key)
    ensures VatAmount(base, key) == VatAt100(base, Percent(key.rate))
  {
    hide Percent, Cents;
    SameCents(Tax(base, key), TaxAt100(base, Percent(key.rate)));
  }

  lemma SameCents(x: real, y: real)
    requires x == y
    ensures Cents(x) == Cents(y)
  {
  }

  /** A VAT line: its base the net amounts of the lines of its key, its VAT that base at the rate, to the
      nearest cent, its reason and code the first its lines give. */
  lemma VatLinePromise(lines: seq<Line>, i: nat)
    requires i < |VatLines(lines)|
    ensures var key := VatLines(lines)[i].key; exists l | l in lines :: l.rate == key.rate && l.category == key.category
    ensures var v := VatLines(lines)[i];
            && v.base == Base(lines, v.key)
            && v.vat == VatAt100(v.base, Percent(v.key.rate))
            && v.reason == FirstGiven(lines, v.key, Reason) && v.code == FirstGiven(lines, v.key, Code)
  {
    var k := Keys(lines)[i];
    assert k in Keys(lines);
    KeysOfLines(lines, k);
    var l :| l in lines && KeyOf(l) == k;
    assert l.rate == k.rate && l.category == k.category;
    VatAmountIs(Base(lines, k), k);
    hide Keys, Cents, Base, FirstGiven, Percent, VatAmount, VatAt100;
    assert VatLines(lines)[i] == VatLineOf(lines, k);
  }
}
