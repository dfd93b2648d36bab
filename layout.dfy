/**
 * The fixed-width text of the order summary: priced lines written as
 * String.format("%-20s %s\n", label, amount), rule lines of 36 characters,
 * and the inverse operations that read such text back.
 */
module Layout {
  import opened Wrappers
  import opened Money

  /** The width of the "%-20s" label field. */
  const LabelWidth: nat := 20
  /** The number of '=' or '-' characters in a rule line. */
  const RuleWidth: nat := 36

  function Max(a: nat, b: nat): nat {
    if a < b then b else a
  }

  function Spaces(n: nat): (s: string)
    ensures |s| == n && forall i :: 0 <= i < n ==> s[i] == ' '
  {
    seq(n, _ => ' ')
  }

  /** "%-<w>s": s left-justified in a field of w characters, padded with spaces and never truncated. */
  function PadRight(s: string, w: nat): (r: string)
    ensures |r| == Max(|s|, w)
    ensures r[..|s|] == s
    ensures forall i :: |s| <= i < |r| ==> r[i] == ' '
  {
    if |s| < w then s + Spaces(w - |s|) else s
  }

  /** A priced line of the summary. */
  datatype Line = Line(caption: string, amount: Cents)

  /** A label the summary can carry unambiguously: one line, not ending in a space. */
  predicate IsLabel(s: string) {
    '\n' !in s && (s == [] || s[|s| - 1] != ' ')
  }

  /** A line of text: it ends with its only line break. */
  predicate IsTextLine(s: string) {
    |s| >= 1 && s[|s| - 1] == '\n' && '\n' !in s[..|s| - 1]
  }

  /** One priced line: String.format("%-20s %s\n", label, String.format("$%.2f", amount)). */
  function FormatLine(l: Line): (r: string)
    ensures IsLabel(l.caption) ==> IsTextLine(r)
  {
    var r := PadRight(l.caption, LabelWidth) + " " + Dollars(l.amount) + "\n";
    assert IsLabel(l.caption) ==> r[..|r| - 1] == PadRight(l.caption, LabelWidth) + " " + Dollars(l.amount);
    r
  }

  /** The layout of a priced line: the label left-justified in at least 20 characters, never truncated,
      then one space, the amount with two fractional digits, and the line break. */
  lemma FormatLineLayout(l: Line)
    ensures var r := FormatLine(l);
      var w := Max(|l.caption|, LabelWidth);
      && |r| == w + |Dollars(l.amount)| + 2
      && r[..|l.caption|] == l.caption
      && (forall i :: |l.caption| <= i <= w ==> r[i] == ' ')
      && r[w + 1..|r| - 1] == Dollars(l.amount)
      && r[|r| - 1] == '\n'
  {
  }

  /** A rule line: 36 copies of c and a line break. */
  function RuleLine(c: char): (r: string)
    ensures |r| == RuleWidth + 1 && r[RuleWidth] == '\n'
    ensures forall i :: 0 <= i < RuleWidth ==> r[i] == c
    ensures c != '\n' ==> IsTextLine(r)
  {
    var r := seq(RuleWidth, _ => c) + "\n";
    assert r[..|r| - 1] == seq(RuleWidth, _ => c);
    r
  }

  /** The position of the last space of s, if it has one. */
  function LastSpace(s: string): (r: Option<nat>)
    ensures r.Some? ==> r.value < |s| && s[r.value] == ' ' && ' ' !in s[r.value + 1..]
    ensures r.None? ==> ' ' !in s
  {
    if s == [] then None
    else if s[|s| - 1] == ' ' then Some(|s| - 1)
    else
      var r := LastSpace(s[..|s| - 1]);
      assert r.Some? ==> s[r.value + 1..] == s[..|s| - 1][r.value + 1..] + [s[|s| - 1]];
      assert r.None? ==> s == s[..|s| - 1] + [s[|s| - 1]];
      r
  }

  /** s without its trailing spaces. */
  function TrimRight(s: string): (r: string)
    ensures r <= s
    ensures r == [] || r[|r| - 1] != ' '
    ensures forall i :: |r| <= i < |s| ==> s[i] == ' '
  {
    if s != [] && s[|s| - 1] == ' ' then TrimRight(s[..|s| - 1]) else s
  }

  /** Reads a priced line: the amount is the word after the last space, the label what precedes the padding. */
  function ParseLine(s: string): (r: Option<Line>)
    ensures r.Some? ==> IsLabel(r.value.caption)
  {
    if |s| == 0 || s[|s| - 1] != '\n' then None else ParseLineBody(s[..|s| - 1])
  }

  /** Reads a priced line without its line break. */
  function ParseLineBody(body: string): (r: Option<Line>)
    ensures r.Some? ==> IsLabel(r.value.caption)
  {
    if '\n' in body then None
    else match LastSpace(body)
      case None => None
      case Some(k) =>
        match ParseDollars(body[k + 1..])
        case None => None
        case Some(c) =>
          var caption := TrimRight(body[..k]);
          assert '\n' !in caption by {
            forall i | 0 <= i < |caption| ensures caption[i] != '\n' {
              assert caption[i] == body[i];
            }
          }
          Some(Line(caption, c))
  }

  lemma {:induction false} LastSpaceOfWord(a: string, b: string)
    requires ' ' !in b
    ensures LastSpace(a + " " + b) == Some(|a|)
    decreases |b|
  {
    var s := a + " " + b;
    if b != [] {
      assert s[..|s| - 1] == a + " " + b[..|b| - 1];
      LastSpaceOfWord(a, b[..|b| - 1]);
    }
  }

  lemma {:induction false} TrimPadding(s: string, n: nat)
    requires s == [] || s[|s| - 1] != ' '
    ensures TrimRight(s + Spaces(n)) == s
    decreases n
  {
    if n > 0 {
      assert (s + Spaces(n))[..|s| + n - 1] == s + Spaces(n - 1);
      TrimPadding(s, n - 1);
    } else {
      assert s + Spaces(0) == s;
    }
  }

  lemma TrimPadRight(s: string, w: nat)
    requires s == [] || s[|s| - 1] != ' '
    ensures TrimRight(PadRight(s, w)) == s
  {
  }

  /** The body of a priced line, without its line break. */
  function LineBody(l: Line): string {
    PadRight(l.caption, LabelWidth) + " " + Dollars(l.amount)
  }

  lemma LineBodyHasNoBreak(l: Line)
    requires IsLabel(l.caption)
    ensures '\n' !in LineBody(l)
  {
  }

  lemma ParseBodyOfLine(l: Line)
    requires IsLabel(l.caption)
    ensures ParseLineBody(LineBody(l)) == Some(l)
  {
    var padded := PadRight(l.caption, LabelWidth);
    var d := Dollars(l.amount);
    var body := LineBody(l);
    LineBodyHasNoBreak(l);
    assert ' ' !in d;
    LastSpaceOfWord(padded, d);
    assert body[|padded| + 1..] == d;
    DollarsRoundTrip(l.amount);
    assert body[..|padded|] == padded;
    TrimPadRight(l.caption, LabelWidth);
  }

  /** A priced line can be read back: its text determines label and amount. */
  lemma LineRoundTrip(l: Line)
    requires IsLabel(l.caption)
    ensures ParseLine(FormatLine(l)) == Some(l)
  {
    var body := LineBody(l);
    var s := FormatLine(l);
    assert s == body + "\n";
    assert s[..|s| - 1] == body;
    ParseBodyOfLine(l);
  }

  /** The position of the first line break of s, if it has one. */
  function FirstNewline(s: string): (r: Option<nat>)
    ensures r.Some? ==> r.value < |s| && s[r.value] == '\n' && '\n' !in s[..r.value]
    ensures r.None? ==> '\n' !in s
  {
    if s == [] then None
    else if s[0] == '\n' then Some(0)
    else match FirstNewline(s[1..])
      case None => None
      case Some(k) =>
        assert s[..k + 1] == [s[0]] + s[1..][..k];
        Some(k + 1)
  }

  /** The lines of a text, each with its line break; a last line without one is kept as it is. */
  function SplitLines(s: string): seq<string>
    decreases |s|
  {
    if s == [] then []
    else match FirstNewline(s)
      case None => [s]
      case Some(k) => [s[..k + 1]] + SplitLines(s[k + 1..])
  }

  /** The lines joined back into one text. */
  function Concat(ls: seq<string>): string {
    if ls == [] then [] else ls[0] + Concat(ls[1..])
  }

  lemma {:induction false} ConcatAppend(a: seq<string>, b: seq<string>)
    ensures Concat(a + b) == Concat(a) + Concat(b)
    decreases |a|
  {
    if a == [] {
      assert a + b == b;
    } else {
      assert (a + b)[1..] == a[1..] + b;
      ConcatAppend(a[1..], b);
    }
  }

  lemma FirstNewlineOfLine(a: string, rest: string)
    requires IsTextLine(a)
    ensures FirstNewline(a + rest) == Some(|a| - 1)
  {
    var s := a + rest;
    assert s[|a| - 1] == '\n';
    assert s[..|a| - 1] == a[..|a| - 1];
  }

  /** Splitting text made of whole lines gives back exactly those lines, in order. */
  lemma {:induction false} SplitConcat(ls: seq<string>)
    requires forall i :: 0 <= i < |ls| ==> IsTextLine(ls[i])
    ensures SplitLines(Concat(ls)) == ls
    decreases |ls|
  {
    if ls != [] {
      var rest := Concat(ls[1..]);
      FirstNewlineOfLine(ls[0], rest);
      var s := ls[0] + rest;
      assert s[..|ls[0]|] == ls[0] && s[|ls[0]|..] == rest;
      SplitConcat(ls[1..]);
      assert ls == [ls[0]] + ls[1..];
    }
  }
}
