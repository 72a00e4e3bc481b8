/** Amounts in cents as printed on a receipt: two decimals after a comma, a leading minus, optional grouping dots. */
module PrintedAmounts {
  import opened Options
  import opened Decimals

  function FormatCents(cents: int): string {
    var absolute := if cents < 0 then -cents else cents;
    (if cents < 0 then "-" else "") + Digits(absolute / 100) + "," + Format(absolute % 100, 2)
  }

  /** White space of the byte-to-codepoint text. */
  predicate IsSpace(c: char) {
    c == ' ' || '\t' <= c <= '\r' || 28 <= c as int <= 31 || c as int == 0x85 || c as int == 0xA0
  }

  function StripLeft(s: string): string {
    if s != [] && IsSpace(s[0]) then StripLeft(s[1..]) else s
  }

  function StripRight(s: string): string {
    if s != [] && IsSpace(s[|s| - 1]) then StripRight(s[..|s| - 1]) else s
  }

  function WithoutDots(s: string): string {
    if s == [] then [] else WithoutDots(s[..|s| - 1]) + if s[|s| - 1] == '.' then [] else [s[|s| - 1]]
  }

  predicate IsSign(c: char) {
    c == '+' || c == '-'
  }

  predicate AllDigits(s: string) {
    forall i | 0 <= i < |s| :: IsDigit(s[i])
  }

  function Unsigned(s: string): string {
    if s != [] && IsSign(s[0]) then s[1..] else s
  }

  /** Digits, a comma and exactly two more digits. */
  predicate IsPlainAmount(s: string) {
    |s| >= 4 && AllDigits(s[..|s| - 3]) && s[|s| - 3] == ',' && AllDigits(s[|s| - 2..])
  }

  function ParsePrintedAmount(value: string): Option<int> {
    ReadAmount(WithoutDots(StripRight(StripLeft(value))))
  }

  function ReadAmount(candidate: string): Option<int> {
    var unsigned := Unsigned(candidate);
    if !IsPlainAmount(unsigned) then None
    else
      var sign := if candidate[0] == '-' then -1 else 1;
      Some(sign * (Value(unsigned[..|unsigned| - 3]) * 100 + Value(unsigned[|unsigned| - 2..])))
  }

  lemma {:induction false} NoDotsToRemove(s: string)
    requires forall i | 0 <= i < |s| :: s[i] != '.'
    ensures WithoutDots(s) == s
  {
    if s != [] {
      NoDotsToRemove(s[..|s| - 1]);
    }
  }

  /** The shape of a formatted amount. */
  lemma FormattedShape(cents: int)
    ensures var s, absolute := FormatCents(cents), if cents < 0 then -cents else cents;
            && |s| >= 4
            && (forall i | 0 <= i < |s| :: IsDigit(s[i]) || s[i] == ',' || s[i] == '-')
            && (s[0] == '-' <==> cents < 0)
            && Unsigned(s) == Digits(absolute / 100) + "," + Format(absolute % 100, 2)
            && |Format(absolute % 100, 2)| == 2
  {
    var absolute := if cents < 0 then -cents else cents;
    TwoDigits(absolute % 100);
    var rest := Digits(absolute / 100) + "," + Format(absolute % 100, 2);
    assert FormatCents(cents) == (if cents < 0 then "-" else "") + rest;
    assert IsDigit(rest[0]);
  }

  lemma TwoDigits(n: nat)
    requires n < 100
    ensures |Format(n, 2)| == 2
  {
    if n >= 10 {
      assert Digits(n / 10) == [Digit(n / 10)];
    }
  }

  lemma NothingToStrip(s: string)
    requires s != [] && !IsSpace(s[0]) && !IsSpace(s[|s| - 1])
    ensures StripRight(StripLeft(s)) == s
  {
  }

  /** An amount splits at its comma into the whole part and the two decimals. */
  lemma PlainAmountParts(whole: string, fraction: string)
    requires whole != [] && AllDigits(whole) && |fraction| == 2 && AllDigits(fraction)
    ensures var u := whole + "," + fraction;
            IsPlainAmount(u) && u[..|u| - 3] == whole && u[|u| - 2..] == fraction
  {
    var u := whole + "," + fraction;
    assert u[..|u| - 3] == whole && u[|u| - 2..] == fraction;
  }

  /** Reading a printed amount gives back the cents, for every sign and size. */
  lemma AmountRoundTrip(cents: int)
    ensures ParsePrintedAmount(FormatCents(cents)) == Some(cents)
  {
    hide FormatCents, Format, Digits, Value, StripLeft, StripRight, WithoutDots, Unsigned, IsPlainAmount;
    var s, absolute := FormatCents(cents), if cents < 0 then -cents else cents;
    var whole, fraction := Digits(absolute / 100), Format(absolute % 100, 2);
    FormattedShape(cents);
    NoDotsToRemove(s);
    NothingToStrip(s);
    PlainAmountParts(whole, fraction);
    ValueOfDigits(absolute / 100);
    FormatRoundTrip(absolute % 100, 2);
  }

  predicate AllSpace(s: string) {
    forall i | 0 <= i < |s| :: IsSpace(s[i])
  }

  lemma {:induction false} StripBefore(space: string, s: string)
    requires AllSpace(space) && s != [] && !IsSpace(s[0])
    ensures StripLeft(space + s) == s
    decreases |space|
  {
    if space == [] {
      assert space + s == s;
    } else {
      assert (space + s)[1..] == space[1..] + s;
      StripBefore(space[1..], s);
    }
  }

  lemma {:induction false} StripBehind(s: string, space: string)
    requires AllSpace(space) && s != [] && !IsSpace(s[|s| - 1])
    ensures StripRight(s + space) == s
    decreases |space|
  {
    if space == [] {
      assert s + space == s;
    } else {
      assert (s + space)[..|s + space| - 1] == s + space[..|space| - 1];
      StripBehind(s, space[..|space| - 1]);
    }
  }

  /** An explicit plus is read like no sign. */
  lemma PlusIsRead(cents: nat)
    ensures ReadAmount("+" + FormatCents(cents)) == Some(cents)
  {
    hide FormatCents, Format, Digits, Value, IsPlainAmount;
    var s := "+" + FormatCents(cents);
    var whole, fraction := Digits(cents / 100), Format(cents % 100, 2);
    FormattedShape(cents);
    assert s[1..] == FormatCents(cents);
    assert FormatCents(cents) == whole + "," + fraction;
    PlainAmountParts(whole, fraction);
    ValueOfDigits(cents / 100);
    FormatRoundTrip(cents % 100, 2);
  }

  lemma FormattedIsRead(cents: int)
    ensures ReadAmount(FormatCents(cents)) == Some(cents)
  {
    hide ReadAmount, FormatCents, StripLeft, StripRight, WithoutDots;
    AmountRoundTrip(cents);
    FormattedShape(cents);
    NoDotsToRemove(FormatCents(cents));
    NothingToStrip(FormatCents(cents));
  }

  lemma SpacesStripped(before: string, s: string, behind: string)
    requires AllSpace(before) && AllSpace(behind)
    requires s != [] && !IsSpace(s[0]) && !IsSpace(s[|s| - 1])
    ensures StripRight(StripLeft(before + s + behind)) == s
  {
    hide StripLeft, StripRight, IsSpace;
    assert before + s + behind == before + (s + behind);
    StripBefore(before, s + behind);
    StripBehind(s, behind);
  }

  /** Printed amounts are read whatever white space stands around them and wherever grouping dots stand inside, and with
      an explicit plus too. */
  lemma AmountAsPrinted(before: string, s: string, behind: string, cents: int)
    requires AllSpace(before) && AllSpace(behind)
    requires s != [] && !IsSpace(s[0]) && !IsSpace(s[|s| - 1])
    requires WithoutDots(s) == FormatCents(cents) || (0 <= cents && WithoutDots(s) == "+" + FormatCents(cents))
    ensures ParsePrintedAmount(before + s + behind) == Some(cents)
  {
    hide ReadAmount, FormatCents, StripLeft, StripRight, WithoutDots, IsSpace;
    SpacesStripped(before, s, behind);
    FormattedIsRead(cents);
    if 0 <= cents {
      PlusIsRead(cents);
    }
  }
}
