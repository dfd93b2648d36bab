/**
 * Money as integer cents, and its display form "$<dollars>.<two digits>",
 * which is what the form produces with String.format("$%.2f", amount) for
 * the amounts it handles (all of them whole cents, never negative).
 */
module Money {
  import opened Wrappers

  /** An amount of money in cents. */
  type Cents = nat

  predicate IsDigit(c: char) {
    '0' <= c <= '9'
  }

  predicate AllDigits(s: string) {
    forall i :: 0 <= i < |s| ==> IsDigit(s[i])
  }

  /** A decimal numeral without leading zeros: "0", "7", "19", but not "019". */
  predicate Canonical(s: string) {
    |s| >= 1 && AllDigits(s) && (s[0] == '0' ==> |s| == 1)
  }

  function DigitValue(c: char): (d: nat)
    requires IsDigit(c)
    ensures d < 10
  {
    c as int - '0' as int
  }

  function DigitChar(d: nat): (c: char)
    requires d < 10
    ensures IsDigit(c) && DigitValue(c) == d
  {
    ('0' as int + d) as char
  }

  /** The value of a string of decimal digits, most significant first. */
  function DigitsValue(s: string): nat
    requires AllDigits(s)
  {
    if s == [] then 0 else DigitsValue(s[..|s| - 1]) * 10 + DigitValue(s[|s| - 1])
  }

  /** The decimal numeral of n, as Java prints the integral part of an amount. */
  function Decimal(n: nat): (s: string)
    ensures Canonical(s)
    decreases n
  {
    if n < 10 then [DigitChar(n)] else Decimal(n / 10) + [DigitChar(n % 10)]
  }

  /** Reading back a numeral gives the number it was printed from. */
  lemma {:induction false} DecimalRoundTrip(n: nat)
    ensures DigitsValue(Decimal(n)) == n
    decreases n
  {
    if n >= 10 {
      var s := Decimal(n);
      assert s[..|s| - 1] == Decimal(n / 10);
      DecimalRoundTrip(n / 10);
    }
  }

  /** Every canonical numeral is the one Decimal prints for its value. */
  lemma {:induction false} DecimalOfValue(s: string)
    requires Canonical(s)
    ensures Decimal(DigitsValue(s)) == s
    decreases |s|
  {
    if |s| > 1 {
      var p := s[..|s| - 1];
      assert Canonical(p);
      DecimalOfValue(p);
      var v := DigitsValue(p);
      assert v != 0;
      var n := DigitsValue(s);
      assert n / 10 == v && n % 10 == DigitValue(s[|s| - 1]);
      assert s == p + [s[|s| - 1]];
    }
  }

  /** No space and no line break: the amount is one word of a summary line. */
  predicate IsWord(s: string) {
    forall i :: 0 <= i < |s| ==> s[i] != ' ' && s[i] != '\n'
  }

  /** The amount as "$%.2f" shows it: a dollar sign, the dollars, a point and exactly two digits of cents. */
  function Dollars(c: Cents): (s: string)
    ensures |s| >= 5 && s[0] == '$' && s[|s| - 3] == '.'
    ensures Canonical(s[1..|s| - 3]) && AllDigits(s[|s| - 2..])
    ensures IsWord(s)
  {
    var whole := Decimal(c / 100);
    var s := "$" + whole + "." + [DigitChar(c % 100 / 10), DigitChar(c % 10)];
    assert s[1..|s| - 3] == whole;
    s
  }

  /** Reads an amount written as Dollars writes it; None for any other text. */
  function ParseDollars(s: string): (r: Option<Cents>)
  {
    if |s| >= 5 && s[0] == '$' && s[|s| - 3] == '.'
       && Canonical(s[1..|s| - 3]) && AllDigits(s[|s| - 2..])
    then Some(DigitsValue(s[1..|s| - 3]) * 100 + DigitsValue(s[|s| - 2..]))
    else None
  }

  /** The value of a two-digit cents field. */
  lemma TwoDigitsValue(t: string)
    requires |t| == 2 && AllDigits(t)
    ensures DigitsValue(t) == DigitValue(t[0]) * 10 + DigitValue(t[1])
  {
    var first := t[..1];
    assert first[..0] == [];
    assert DigitsValue(first) == DigitValue(t[0]);
    assert t[..|t| - 1] == first;
  }

  /** Cents split into dollars and the two digits after the point. */
  lemma SplitCents(w: nat, cv: nat)
    requires cv < 100
    ensures (w * 100 + cv) / 100 == w && (w * 100 + cv) % 100 == cv
    ensures cv / 10 < 10 && cv / 10 * 10 + cv % 10 == cv
  {
  }

  /** The displayed amount determines the amount: Dollars loses nothing. */
  lemma DollarsRoundTrip(c: Cents)
    ensures ParseDollars(Dollars(c)) == Some(c)
  {
    var s := Dollars(c);
    var w, cv := c / 100, c % 100;
    SplitCents(w, cv);
    DecimalRoundTrip(w);
    assert s[1..|s| - 3] == Decimal(w);
    var cents := s[|s| - 2..];
    assert cents == [DigitChar(cv / 10), DigitChar(c % 10)];
    TwoDigitsValue(cents);
    assert DigitsValue(cents) == cv;
  }

  /** The digits of w dollars and d0 d1 cents, as Dollars takes them apart. */
  lemma CentsDigits(w: nat, d0: nat, d1: nat)
    requires d0 < 10 && d1 < 10
    ensures (w * 100 + d0 * 10 + d1) / 100 == w
    ensures (w * 100 + d0 * 10 + d1) % 100 / 10 == d0
    ensures (w * 100 + d0 * 10 + d1) % 10 == d1
  {
    SplitCents(w, d0 * 10 + d1);
  }

  /** Every well-formed amount text is the one Dollars prints for its value. */
  lemma DollarsOfParse(s: string)
    requires ParseDollars(s).Some?
    ensures Dollars(ParseDollars(s).value) == s
  {
    var whole := s[1..|s| - 3];
    var cents := s[|s| - 2..];
    assert s == "$" + whole + "." + [cents[0], cents[1]];
    TwoDigitsValue(cents);
    var w, d0, d1 := DigitsValue(whole), DigitValue(cents[0]), DigitValue(cents[1]);
    var c := w * 100 + d0 * 10 + d1;
    assert ParseDollars(s).value == c;
    CentsDigits(w, d0, d1);
    assert DigitChar(d0) == cents[0] && DigitChar(d1) == cents[1];
    DecimalOfValue(whole);
    assert Decimal(c / 100) == whole;
  }
}
