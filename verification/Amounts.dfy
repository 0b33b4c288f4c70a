/** `eur`: an amount printed the French way. */
module Amounts {
  import opened Wrappers
  import opened Numbers

  const NARROW_NBSP: char := '\U{202F}'
  const NBSP: char := '\U{A0}'
  const DASH: string := "\U{2014}"

  /** The digits cut from the right in threes. */
  function Groups(digits: string): (r: seq<string>)
    ensures digits != "" ==> r != []
  {
    if digits == "" then []
    else if |digits| <= 3 then [digits]
    else Groups(digits[..|digits| - 3]) + [digits[|digits| - 3..]]
  }

  function Concat(groups: seq<string>): string {
    if groups == [] then "" else groups[0] + Concat(groups[1..])
  }

  function Join(groups: seq<string>): string {
    if groups == [] then ""
    else if |groups| == 1 then groups[0]
    else groups[0] + [NARROW_NBSP] + Join(groups[1..])
  }

  /** `f"{cents / 100:.2f}"`, integer part and cents apart. */
  function CentsText(cents: nat): (s: string)
    requires cents < 100
    ensures |s| == 2 && AllDigits(s)
  {
    [Digit(cents / 10), Digit(cents % 10)]
  }

  function EurCents(cents: int): string {
    var amount := if cents < 0 then -cents else cents;
    (if cents < 0 then "-" else "") + Join(Groups(Text(amount / 100))) + "," + CentsText(amount % 100)
  }

  /** `quantize`: the nearest integer, an exact half going to the even one. */
  function HalfEven(x: real): (n: int)
    ensures -0.5 <= n as real - x <= 0.5
    ensures n as real - x == 0.5 || n as real - x == -0.5 ==> n % 2 == 0
  {
    var f := x.Floor;
    var t := x - f as real;
    if t < 0.5 then f else if t > 0.5 then f + 1 else if f % 2 == 0 then f else f + 1
  }

  function Suffix(currency: string): string {
    if currency == "" then "" else [NBSP] + currency
  }

  /** What is printed; `None` is an empty value, or text that is no number. */
  function Eur(value: Option<real>, currency: string): string {
    match value
    case None => DASH
    case Some(v) => EurCents(HalfEven(100.0 * v)) + Suffix(currency)
  }

  /** The loop of `eur`: groups peeled off the right of `integer`. */
  method PeelGroups(digits: string) returns (groups: seq<string>)
    ensures groups == Groups(digits)
  {
    var integer := digits;
    groups := [];
    while integer != ""
      invariant Groups(digits) == Groups(integer) + groups
      decreases |integer|
    {
      var cut := if |integer| <= 3 then 0 else |integer| - 3;
      assert Groups(integer) == Groups(integer[..cut]) + [integer[cut..]];
      groups := [integer[cut..]] + groups;
      integer := integer[..cut];
    }
  }

  /** `eur`. */
  method FormatEur(value: Option<real>, currency: string) returns (formatted: string)
    ensures formatted == Eur(value, currency)
  {
    hide HalfEven, Join, Groups, Text, CentsText;
    if value.None? {
      return DASH;
    }
    var cents := HalfEven(100.0 * value.value);
    var amount := if cents < 0 then -cents else cents;
    var groups := PeelGroups(Text(amount / 100));
    formatted := (if cents < 0 then "-" else "") + Join(groups) + "," + CentsText(amount % 100);
    if currency != "" {
      formatted := formatted + ([NBSP] + currency);
    }
  }

  lemma {:induction false} ConcatLast(groups: seq<string>, g: string)
    ensures Concat(groups + [g]) == Concat(groups) + g
  {
    if groups == [] {
      assert [g][1..] == [];
    } else {
      ConcatLast(groups[1..], g);
      assert (groups + [g])[1..] == groups[1..] + [g];
    }
  }

  /** The groups put together are the digits; all but the first have three, the first one to three. */
  lemma {:induction false} GroupsOfDigits(digits: string)
    ensures Concat(Groups(digits)) == digits
    ensures forall i | 0 < i < |Groups(digits)| :: |Groups(digits)[i]| == 3
    ensures digits != "" ==> 1 <= |Groups(digits)[0]| <= 3
  {
    if 0 < |digits| <= 3 {
      assert [digits][1..] == [];
    } else if |digits| > 3 {
      var cut := |digits| - 3;
      GroupsOfDigits(digits[..cut]);
      ConcatLast(Groups(digits[..cut]), digits[cut..]);
    }
  }

  function DropSeparators(s: string): string {
    if s == "" then ""
    else if s[0] == NARROW_NBSP then DropSeparators(s[1..])
    else [s[0]] + DropSeparators(s[1..])
  }

  /** Reading an amount: grouped digits, a comma, two digits. */
  function ReadUnsigned(s: string): Option<nat> {
    if |s| < 3 || s[|s| - 3] != ',' then None
    else
      var integer, fraction := DropSeparators(s[..|s| - 3]), s[|s| - 2..];
      if integer != "" && AllDigits(integer) && AllDigits(fraction) then Some(100 * Value(integer) + Value(fraction))
      else None
  }

  function ReadCents(s: string): Option<int> {
    if s != "" && s[0] == '-' then
      match ReadUnsigned(s[1..])
      case Some(n) => Some(0 - n)
      case None => None
    else
      match ReadUnsigned(s)
      case Some(n) => Some(n)
      case None => None
  }

  lemma {:induction false} DropInDigits(s: string, rest: string)
    requires AllDigits(s)
    ensures DropSeparators(s + rest) == s + DropSeparators(rest)
  {
    if s == "" {
      assert s + rest == rest;
    } else {
      DropInDigits(s[1..], rest);
      assert (s + rest)[1..] == s[1..] + rest;
    }
  }

  lemma {:induction false} DropInJoin(groups: seq<string>)
    requires forall i | 0 <= i < |groups| :: AllDigits(groups[i])
    ensures DropSeparators(Join(groups)) == Concat(groups)
  {
    if groups != [] {
      var rest := groups[1..];
      DropInJoin(rest);
      if rest == [] {
        DropInDigits(groups[0], "");
        assert groups[0] + "" == groups[0];
      } else {
        var tail := [NARROW_NBSP] + Join(rest);
        assert tail[1..] == Join(rest);
        DropInDigits(groups[0], tail);
        assert Join(groups) == groups[0] + tail;
      }
    }
  }

  lemma {:induction false} GroupsAreDigits(digits: string)
    requires AllDigits(digits)
    ensures forall i | 0 <= i < |Groups(digits)| :: AllDigits(Groups(digits)[i])
  {
    if |digits| > 3 {
      GroupsAreDigits(digits[..|digits| - 3]);
    }
  }

  lemma TwoDigits(n: nat)
    requires n < 100
    ensures Value(CentsText(n)) == n
  {
    var s := CentsText(n);
    assert s[..1][..0] == "" && s[..1][0] == s[0];
    assert Value(s[..1]) == n / 10;
  }

  lemma ReadParts(body: string, fraction: string)
    requires |fraction| == 2 && AllDigits(fraction)
    requires DropSeparators(body) != "" && AllDigits(DropSeparators(body))
    ensures ReadUnsigned(body + "," + fraction) == Some(100 * Value(DropSeparators(body)) + Value(fraction))
  {
    hide DropSeparators, Value;
    var s := body + "," + fraction;
    assert s[..|s| - 3] == body && s[|s| - 3] == ',' && s[|s| - 2..] == fraction;
  }

  lemma ReadGrouped(amount: nat)
    ensures ReadUnsigned(Join(Groups(Text(amount / 100))) + "," + CentsText(amount % 100)) == Some(amount)
  {
    hide DropSeparators, Value, Text, CentsText, Join, Groups, Concat, ReadUnsigned;
    var integer := Text(amount / 100);
    GroupsAreDigits(integer);
    DropInJoin(Groups(integer));
    GroupsOfDigits(integer);
    TextValue(amount / 100);
    TwoDigits(amount % 100);
    ReadParts(Join(Groups(integer)), CentsText(amount % 100));
  }

  lemma JoinStarts(groups: seq<string>)
    requires groups != [] && groups[0] != ""
    ensures Join(groups) != "" && Join(groups)[0] == groups[0][0]
  {
  }

  /** For every number of cents, reading back the printed amount gives the amount. */
  lemma CentsRoundTrip(cents: int)
    ensures ReadCents(EurCents(cents)) == Some(cents)
  {
    hide Text, Groups, CentsText, Join, ReadUnsigned;
    var amount := if cents < 0 then -cents else cents;
    var groups := Groups(Text(amount / 100));
    var s := Join(groups) + "," + CentsText(amount % 100);
    ReadGrouped(amount);
    if cents < 0 {
      assert EurCents(cents)[1..] == s;
    } else {
      GroupsOfDigits(Text(amount / 100));
      GroupsAreDigits(Text(amount / 100));
      JoinStarts(groups);
      assert EurCents(cents) == s && s[0] == groups[0][0];
    }
  }

  lemma WholeCentsExact(cents: int)
    ensures HalfEven(100.0 * (cents as real / 100.0)) == cents
  {
    assert 100.0 * (cents as real / 100.0) == cents as real;
  }

  /** Reading back a printed amount gives the value to the nearest cent, exact halves to the even one;
      a whole number of cents thus comes back as it was (`WholeCentsExact`). */
  lemma EurRoundTrip(v: real, currency: string)
    ensures var s, n := Eur(Some(v), currency), HalfEven(100.0 * v);
            && |s| >= |Suffix(currency)| && s[|s| - |Suffix(currency)|..] == Suffix(currency)
            && ReadCents(s[..|s| - |Suffix(currency)|]) == Some(n)
  {
    var n := HalfEven(100.0 * v);
    var s := EurCents(n) + Suffix(currency);
    hide HalfEven, EurCents, Suffix, ReadCents;
    CentsRoundTrip(n);
    assert s[..|s| - |Suffix(currency)|] == EurCents(n);
  }
}
