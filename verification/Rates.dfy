/** VAT rates as the payload writes them: text that `Decimal` accepts. */
module Rates {
  import opened Numbers

  /** The position of the decimal point, or the length of the text without one. */
  function PointAt(s: string): (k: nat)
    ensures k <= |s| && (k < |s| ==> s[k] == '.')
    ensures forall i | 0 <= i < k :: s[i] != '.'
  {
    if s == "" || s[0] == '.' then 0 else 1 + PointAt(s[1..])
  }

  /** Digits, optionally a point and digits: `20`, `5.5`, `20.00`. */
  predicate IsDecimal(s: string) {
    var k := PointAt(s);
    0 < k && AllDigits(s[..k]) && (k == |s| || (k + 1 < |s| && AllDigits(s[k + 1..])))
  }

  type Rate = s: string | IsDecimal(s) witness "0"

  function Pow10(n: nat): (p: int)
    ensures p > 0
  {
    if n == 0 then 1 else 10 * Pow10(n - 1)
  }

  /** The value of the rate, in percent. */
  function Percent(r: Rate): (v: real)
    ensures v >= 0.0
  {
    var k := PointAt(r);
    var fraction := if k == |r| then "" else r[k + 1..];
    assert AllDigits(fraction);
    Value(r[..k]) as real + Value(fraction) as real / Pow10(|fraction|) as real
  }

  lemma NoUnderscore(r: Rate)
    ensures '_' !in r
  {
    var k := PointAt(r);
    forall i | 0 <= i < |r| ensures r[i] != '_' {
      if i < k {
        assert r[i] == r[..k][i];
      } else if i > k {
        assert r[i] == r[k + 1..][i - k - 1];
      }
    }
  }

  lemma DefaultRates()
    ensures IsDecimal("20") && IsDecimal("20.00") && IsDecimal("0")
  {
    assert PointAt("20.00") == 2 by {
      assert "20.00"[1..] == "0.00" && "0.00"[1..] == ".00";
    }
    assert PointAt("20") == 2 by {
      assert "20"[1..] == "0" && "0"[1..] == "";
    }
    assert PointAt("0") == 1 by {
      assert "0"[1..] == "";
    }
    assert "20.00"[..2] == "20" && "20.00"[3..] == "00" && "20"[..2] == "20" && "0"[..1] == "0";
  }

  lemma ZeroPercent()
    ensures IsDecimal("0") && Percent("0") == 0.0
  {
    assert PointAt("0") == 1 by {
      assert "0"[1..] == "";
    }
    assert "0"[..1] == "0" && "0"[..0] == "";
    assert Value("0") == 0;
  }

  lemma TenPercent()
    ensures IsDecimal("10") && Percent("10") == 10.0
  {
    assert PointAt("10") == 2 by {
      assert "10"[1..] == "0" && "0"[1..] == "";
    }
    assert "10"[..2] == "10" && "10"[..1] == "1" && "1"[..0] == "";
    assert Value("1") == 1 && Value("10") == 10;
  }

  function Over(n: int, p: int): real
    requires p != 0
  {
    n as real / p as real
  }

  function Mixed(whole: int, n: int, p: int): real
    requires p != 0
  {
    whole as real + Over(n, p)
  }

  /** A rate reads as its digits without the point, over ten for each digit after it. */
  lemma PercentReads(r: string, whole: string, fraction: string)
    requires whole != "" && AllDigits(whole) && AllDigits(fraction)
    requires r == (if fraction == "" then whole else whole + "." + fraction)
    ensures IsDecimal(r) && Percent(r) == Over(Value(whole + fraction), Pow10(|fraction|))
  {
    if fraction == "" {
      WholePercent(whole);
      assert whole + fraction == whole;
    } else {
      FractionParts(r, whole, fraction);
      FractionPercent(r, whole, fraction);
      ValueConcat(whole, fraction);
      hide Percent, Value, Pow10, IsDecimal, Over, Mixed;
      MixedOver(Value(whole), Value(fraction), Pow10(|fraction|));
    }
  }

  lemma WholePercent(whole: string)
    requires whole != "" && AllDigits(whole)
    ensures IsDecimal(whole) && Percent(whole) == Over(Value(whole), Pow10(0))
  {
    PointAfter(whole, "");
    assert whole + "" == whole && whole[..|whole|] == whole;
  }

  lemma FractionParts(r: string, whole: string, fraction: string)
    requires whole != "" && fraction != "" && AllDigits(whole) && AllDigits(fraction) && r == whole + "." + fraction
    ensures PointAt(r) == |whole| < |r| && r[..|whole|] == whole && r[|whole| + 1..] == fraction && IsDecimal(r)
  {
    PointAfter(whole, "." + fraction);
    hide PointAt;
    assert r == whole + ("." + fraction);
  }

  lemma FractionPercent(r: string, whole: string, fraction: string)
    requires IsDecimal(r) && AllDigits(whole) && AllDigits(fraction)
    requires PointAt(r) == |whole| < |r| && r[..|whole|] == whole && r[|whole| + 1..] == fraction
    ensures Percent(r) == Mixed(Value(whole), Value(fraction), Pow10(|fraction|))
  {
    hide PointAt, Value, Pow10;
  }

  lemma MixedOver(w: int, f: int, p: int)
    requires p > 0
    ensures Mixed(w, f, p) == Over(w * p + f, p)
  {
    CastProduct(w, p);
    var x, y, z := w as real, f as real, p as real;
    assert x * z / z == x;
    assert (x * z + y) / z == x * z / z + y / z;
  }

  lemma CastProduct(a: int, b: int)
    ensures (a * b) as real == a as real * b as real
  {
  }

  lemma {:induction false} PointAfter(whole: string, rest: string)
    requires AllDigits(whole) && (rest == "" || rest[0] == '.')
    ensures PointAt(whole + rest) == |whole|
  {
    if whole == "" {
      assert whole + rest == rest;
    } else {
      PointAfter(whole[1..], rest);
      assert (whole + rest)[1..] == whole[1..] + rest;
    }
  }

  lemma {:induction false} ValueConcat(a: string, b: string)
    requires AllDigits(a) && AllDigits(b)
    ensures AllDigits(a + b) && Value(a + b) == Value(a) * Pow10(|b|) + Value(b)
  {
    if b == "" {
      assert a + b == a;
    } else {
      var n := |b| - 1;
      ValueConcat(a, b[..n]);
      assert (a + b)[..|a + b| - 1] == a + b[..n];
      assert Value(a) * Pow10(|b|) == 10 * (Value(a) * Pow10(n));
    }
  }
}
