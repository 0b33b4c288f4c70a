/** Decimal text: how counters are printed and zero padded, and why printed numbers never collide. */
module Numbers {

  const DIGITS := "0123456789"

  predicate IsDigit(c: char) {
    '0' <= c <= '9'
  }

  predicate AllDigits(s: string) {
    forall i | 0 <= i < |s| :: IsDigit(s[i])
  }

  function Digit(d: nat): (c: char)
    requires d < 10
    ensures IsDigit(c) && DigitValue(c) == d
  {
    DIGITS[d]
  }

  function DigitValue(c: char): nat
    requires IsDigit(c)
  {
    c as int - '0' as int
  }

  /** `str(n)`. */
  function Text(n: nat): (s: string)
    ensures s != "" && AllDigits(s)
  {
    if n < 10 then [Digit(n)] else Text(n / 10) + [Digit(n % 10)]
  }

  /** `s.zfill(width)` on a text of digits. */
  function Zfill(s: string, width: nat): (r: string)
    ensures |r| == if |s| < width then width else |s|
    ensures AllDigits(s) ==> AllDigits(r)
    decreases width - |s|
  {
    if |s| >= width then s else Zfill("0" + s, width)
  }

  function Value(s: string): nat
    requires AllDigits(s)
  {
    if s == "" then 0 else 10 * Value(s[..|s| - 1]) + DigitValue(s[|s| - 1])
  }

  lemma {:induction false} TextValue(n: nat)
    ensures Value(Text(n)) == n
  {
    if n >= 10 {
      TextValue(n / 10);
      assert Text(n)[..|Text(n)| - 1] == Text(n / 10);
    }
  }

  lemma {:induction false} LeadingZero(s: string)
    requires AllDigits(s)
    ensures AllDigits("0" + s) && Value("0" + s) == Value(s)
  {
    if s != "" {
      LeadingZero(s[..|s| - 1]);
      assert ("0" + s)[..|s|] == "0" + s[..|s| - 1];
    }
  }

  lemma {:induction false} ZfillValue(s: string, width: nat)
    requires AllDigits(s)
    ensures Value(Zfill(s, width)) == Value(s)
    decreases width - |s|
  {
    LeadingZero(s);
    if |s| < width {
      ZfillValue("0" + s, width);
    }
  }

  /** The number `assign_number` returns for counter value `n`. */
  function Print(prefix: string, n: nat, padding: nat): (s: string)
    ensures |prefix| < |s|
  {
    prefix + Zfill(Text(n), padding)
  }

  /** Under one prefix the printed number determines the counter, whatever the paddings. */
  lemma SamePrefixInjective(prefix: string, n: nat, padding: nat, n': nat, padding': nat)
    requires Print(prefix, n, padding) == Print(prefix, n', padding')
    ensures n == n'
  {
    assert Print(prefix, n, padding)[|prefix|..] == Zfill(Text(n), padding);
    assert Print(prefix, n', padding')[|prefix|..] == Zfill(Text(n'), padding');
    ZfillValue(Text(n), padding);
    ZfillValue(Text(n'), padding');
    TextValue(n);
    TextValue(n');
  }

  /** A prefix that cannot be read on into the counter, as `FACT-2026-`. */
  predicate EndsInNonDigit(prefix: string) {
    prefix == "" || !IsDigit(prefix[|prefix| - 1])
  }

  /** With such prefixes the printed number determines the prefix as well. */
  lemma PrintInjective(prefix: string, n: nat, padding: nat, prefix': string, n': nat, padding': nat)
    requires EndsInNonDigit(prefix) && EndsInNonDigit(prefix')
    requires Print(prefix, n, padding) == Print(prefix', n', padding')
    ensures prefix == prefix' && n == n'
  {
    var s := Print(prefix, n, padding);
    PrefixFromText(prefix, n, padding, prefix', n', padding');
    PrefixFromText(prefix', n', padding', prefix, n, padding);
    assert s[..|prefix|] == prefix && s[..|prefix'|] == prefix';
    SamePrefixInjective(prefix, n, padding, n', padding');
  }

  /** A prefix longer than the one the same text was printed under ends in a digit of that counter. */
  lemma PrefixFromText(prefix: string, n: nat, padding: nat, prefix': string, n': nat, padding': nat)
    requires Print(prefix, n, padding) == Print(prefix', n', padding')
    ensures |prefix| < |prefix'| ==> IsDigit(prefix'[|prefix'| - 1])
  {
    if |prefix| < |prefix'| {
      var s, k := Print(prefix, n, padding), |prefix'| - 1;
      assert s[k] == Print(prefix', n', padding')[k] == prefix'[k];
      assert s[k] == Zfill(Text(n), padding)[k - |prefix|];
    }
  }

  /** A prefix ending in a digit can print the number of another series. */
  lemma DigitPrefixCollides()
    ensures Print("F1", 1, 3) == Print("F", 1001, 3)
  {
    assert Text(1) == "1" && Text(10) == "10" && Text(100) == "100" && Text(1001) == "1001";
    assert Zfill("1", 3) == Zfill("01", 3) == Zfill("001", 3) == "001";
  }

  // ---------- when two prefixes collide ----------

  lemma {:induction false} NoLeadingZero(n: nat)
    requires n >= 1
    ensures Text(n)[0] != '0'
  {
    if n >= 10 {
      NoLeadingZero(n / 10);
    }
  }

  /** `str(int(s))` is `s` when `s` has no leading zero. */
  lemma {:induction false} TextOfValue(s: string)
    requires AllDigits(s) && s != "" && s[0] != '0'
    ensures Value(s) >= 1 && Text(Value(s)) == s
  {
    var front, last := s[..|s| - 1], s[|s| - 1];
    assert s == front + [last];
    assert Digit(DigitValue(last)) == last;
    if front == "" {
      assert Value(front) == 0;
    } else {
      TextOfValue(front);
    }
  }

  lemma {:induction false} ZfillOneMore(s: string, width: nat)
    requires |s| <= width
    ensures Zfill(s, width + 1) == "0" + Zfill(s, width)
    decreases width - |s|
  {
    if |s| < width {
      ZfillOneMore("0" + s, width);
    } else {
      assert Zfill(s, width + 1) == Zfill("0" + s, width + 1);
    }
  }

  /** Every text the padding can produce is produced, by the number it reads as. */
  lemma {:induction false} ZfillOfValue(s: string, width: nat)
    requires AllDigits(s) && s != "" && Value(s) >= 1
    requires |s| == width || (|s| > width && s[0] != '0')
    ensures Zfill(Text(Value(s)), width) == s
  {
    if s[0] != '0' {
      TextOfValue(s);
    } else {
      var rest := s[1..];
      assert s == "0" + rest;
      LeadingZero(rest);
      assert rest != "" by {
        assert Value("") == 0;
      }
      ZfillOfValue(rest, width - 1);
      ZfillOneMore(Text(Value(rest)), width - 1);
    }
  }

  lemma {:induction false} ValueOfTail(a: string, b: string)
    requires AllDigits(a) && AllDigits(b)
    ensures AllDigits(a + b) && Value(a + b) >= Value(b)
  {
    if b != "" {
      ValueOfTail(a, b[..|b| - 1]);
      assert (a + b)[..|a + b| - 1] == a + b[..|b| - 1];
    }
  }

  /** `prefix'` is `prefix` read on into its counter: digits follow, the first no zero unless the
      padding of `prefix` leaves room for a counter of `prefix'` after them. */
  predicate Continues(prefix: string, padding: nat, prefix': string, padding': nat) {
    && |prefix| < |prefix'|
    && prefix'[..|prefix|] == prefix
    && AllDigits(prefix'[|prefix|..])
    && (prefix'[|prefix|] != '0' || |prefix'| - |prefix| + (if padding' > 1 then padding' else 1) <= padding)
  }

  /** Two counters, started, print the same number. */
  ghost predicate Collide(prefix: string, padding: nat, prefix': string, padding': nat) {
    exists n: nat, n': nat :: n >= 1 && n' >= 1 && Print(prefix, n, padding) == Print(prefix', n', padding')
  }

  lemma CollisionContinues(prefix: string, n: nat, padding: nat, prefix': string, n': nat, padding': nat)
    requires n >= 1 && n' >= 1 && |prefix| < |prefix'|
    requires Print(prefix, n, padding) == Print(prefix', n', padding')
    ensures Continues(prefix, padding, prefix', padding')
  {
    var s, z, z' := Print(prefix, n, padding), Zfill(Text(n), padding), Zfill(Text(n'), padding');
    assert s[..|prefix|] == prefix && s[..|prefix'|] == prefix';
    assert s[|prefix|..] == z && s[|prefix'|..] == z';
    var d := prefix'[|prefix|..];
    assert z == d + z';
    assert forall i | 0 <= i < |d| :: d[i] == z[i];
    NoLeadingZero(n);
  }

  function Ones(n: nat): (s: string)
    ensures |s| == n && AllDigits(s) && forall i | 0 <= i < n :: s[i] == '1'
  {
    seq(n, _ => '1')
  }

  lemma ContinuedCollides(prefix: string, padding: nat, prefix': string, padding': nat)
    requires Continues(prefix, padding, prefix', padding')
    ensures Collide(prefix, padding, prefix', padding')
  {
    var d := prefix'[|prefix|..];
    assert prefix' == prefix + d && d[0] == prefix'[|prefix|];
    var t := Ones(if d[0] != '0' then padding + padding' + 1 else padding - |d|);
    TextOfValue(t);
    ZfillOfValue(t, padding');
    ValueOfTail(d, t);
    ZfillOfValue(d + t, padding);
    assert Print(prefix, Value(d + t), padding) == prefix + (d + t);
    assert Print(prefix', Value(t), padding') == (prefix + d) + t;
  }

  /** Two different prefixes can print the same number if and only if one continues the other. */
  lemma CollideIff(prefix: string, padding: nat, prefix': string, padding': nat)
    requires prefix != prefix'
    ensures Collide(prefix, padding, prefix', padding')
       <==> Continues(prefix, padding, prefix', padding') || Continues(prefix', padding', prefix, padding)
  {
    if Collide(prefix, padding, prefix', padding') {
      var n: nat, n': nat :| n >= 1 && n' >= 1 && Print(prefix, n, padding) == Print(prefix', n', padding');
      var s := Print(prefix, n, padding);
      assert s[..|prefix|] == prefix && s[..|prefix'|] == prefix';
      if |prefix| < |prefix'| {
        CollisionContinues(prefix, n, padding, prefix', n', padding');
      } else if |prefix'| < |prefix| {
        CollisionContinues(prefix', n', padding', prefix, n, padding);
      }
    }
    if Continues(prefix, padding, prefix', padding') {
      ContinuedCollides(prefix, padding, prefix', padding');
    }
    if Continues(prefix', padding', prefix, padding) {
      ContinuedCollides(prefix', padding', prefix, padding);
      var n': nat, n: nat :| n' >= 1 && n >= 1 && Print(prefix', n', padding') == Print(prefix, n, padding);
      assert Print(prefix, n, padding) == Print(prefix', n', padding');
    }
  }

  /** A prefix that continues another ends in a digit. */
  lemma ContinuationEndsInDigit(prefix: string, padding: nat, prefix': string, padding': nat)
    requires Continues(prefix, padding, prefix', padding')
    ensures !EndsInNonDigit(prefix')
  {
    assert IsDigit(prefix'[|prefix|..][|prefix'| - |prefix| - 1]);
  }

  /** The prefix, then the counter in digits, padded with zeros to the width and no further. */
  lemma PrintIs(prefix: string, n: nat, padding: nat)
    requires n >= 1
    ensures var s := Print(prefix, n, padding);
            var digits := s[|prefix|..];
            && s[..|prefix|] == prefix
            && AllDigits(digits) && Value(digits) == n
            && |digits| >= padding && (|digits| > padding ==> digits[0] != '0')
  {
    var s := Print(prefix, n, padding);
    assert s[|prefix|..] == Zfill(Text(n), padding);
    ZfillValue(Text(n), padding);
    TextValue(n);
    NoLeadingZero(n);
  }
}
