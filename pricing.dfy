/**
 * The order rule of the pizza form: the fixed price tables, the selection the
 * widgets hold, the validation (crust first, then at least one topping), the
 * price arithmetic and the text of the order summary.
 */
module Pricing {
  import opened Wrappers
  import opened Money
  import opened Layout

  /** The three crust radio buttons; at most one is selected at a time. */
  datatype Crust = Thin | Regular | DeepDish

  /** The text of the crust radio button. */
  function CrustName(c: Crust): string {
    match c
    case Thin => "Thin"
    case Regular => "Regular"
    case DeepDish => "Deep-Dish"
  }

  const SizeCount: nat := 4
  /** The selected index of the size combo box, which holds exactly four entries. */
  type SizeIndex = i: int | 0 <= i < SizeCount
  const SizeNames: seq<string> := ["Small", "Medium", "Large", "Super"]
  /** Base price per size, in cents: $8.00, $12.00, $16.00, $20.00. */
  const SizePrices: seq<Cents> := [800, 1200, 1600, 2000]
  /** The flat price of every topping: $1.00. */
  const ToppingPrice: Cents := 100
  /** The tax rate, 0.07, as a percentage. */
  const TaxPercent: nat := 7

  const ToppingCount: nat := 9
  /** The topping check boxes, in the order the form lists them. */
  const ToppingNames: seq<string> :=
    ["Pepperoni", "Mushrooms", "Peppers", "Onions", "Bacon", "Sausage", "Pineapple", "Anchovies", "Olives"]

  /** Which of the nine topping check boxes are checked, in list order. */
  type Flags = s: seq<bool> | |s| == ToppingCount
    witness [false, false, false, false, false, false, false, false, false]

  /** What the widgets of the form currently hold. */
  datatype Selection = Selection(crust: Option<Crust>, size: SizeIndex, toppings: Flags)

  /** The selection of a cleared form: no crust, Small, nothing checked. */
  const Cleared: Selection := Selection(None, 0, [false, false, false, false, false, false, false, false, false])

  /** The two reasons an order is refused, each shown in a message dialog. */
  datatype OrderError = MissingCrust | NoToppings

  function Message(e: OrderError): string {
    match e
    case MissingCrust => "Please select a crust type."
    case NoToppings => "Please select at least one topping."
  }

  /** The dialog text tells the two refusals apart. */
  lemma MessagesDistinct(e1: OrderError, e2: OrderError)
    ensures Message(e1) == Message(e2) <==> e1 == e2
  {
  }

  /** A priced order: the crust and size line, one line per checked topping, and the three sums. */
  datatype Receipt = Receipt(heading: Line, toppingLines: seq<Line>, subtotal: Cents, tax: Cents, total: Cents)

  /** The number of checked toppings. */
  function Checked(flags: seq<bool>): nat {
    multiset(flags)[true]
  }

  /** The lines the form writes for the checked toppings among the first k, in list order. */
  function ToppingLinesUpTo(flags: Flags, k: nat): (r: seq<Line>)
    requires k <= ToppingCount
    ensures |r| == Checked(flags[..k])
  {
    if k == 0 then []
    else
      var r := ToppingLinesUpTo(flags, k - 1) + if flags[k - 1] then [Line(ToppingNames[k - 1], ToppingPrice)] else [];
      assert flags[..k] == flags[..k - 1] + [flags[k - 1]];
      r
  }

  /** Every topping line is priced $1.00 and named after a checked topping. */
  lemma {:induction false} ToppingLinesNamed(flags: Flags, k: nat)
    requires k <= ToppingCount
    ensures forall l :: l in ToppingLinesUpTo(flags, k) ==>
              l.amount == ToppingPrice && exists i :: 0 <= i < k && flags[i] && l.caption == ToppingNames[i]
    decreases k
  {
    if k > 0 {
      ToppingLinesNamed(flags, k - 1);
    }
  }

  /** The sum the form accumulates over the checked toppings among the first k. */
  function ToppingTotalUpTo(flags: Flags, k: nat): (r: Cents)
    requires k <= ToppingCount
    ensures r == ToppingPrice * Checked(flags[..k])
  {
    if k == 0 then 0
    else
      assert flags[..k] == flags[..k - 1] + [flags[k - 1]];
      ToppingTotalUpTo(flags, k - 1) + if flags[k - 1] then ToppingPrice else 0
  }

  /** subTotal * taxRate, in cents; exact whenever the subtotal is whole dollars. */
  function Tax(subtotal: Cents): (r: Cents)
    ensures subtotal % 100 == 0 ==> 100 * r == TaxPercent * subtotal
  {
    subtotal * TaxPercent / 100
  }

  /** What pressing Order computes from a selection: a receipt, or the first rule the selection breaks. */
  function Price(sel: Selection): (r: Result<Receipt, OrderError>)
    ensures r == Failure(MissingCrust) <==> sel.crust.None?
    ensures r == Failure(NoToppings) <==> sel.crust.Some? && true !in sel.toppings
  {
    match sel.crust
    case None => Failure(MissingCrust)
    case Some(c) =>
      var base := SizePrices[sel.size];
      var heading := Line(CrustName(c) + " Crust, " + SizeNames[sel.size], base);
      var toppingTotal := ToppingTotalUpTo(sel.toppings, ToppingCount);
      assert sel.toppings[..ToppingCount] == sel.toppings;
      if toppingTotal == 0 then Failure(NoToppings)
      else
        var subtotal := base + toppingTotal;
        var tax := Tax(subtotal);
        Success(Receipt(heading, ToppingLinesUpTo(sel.toppings, ToppingCount), subtotal, tax, subtotal + tax))
  }

  /** Each priced line as the form formats it. */
  function FormatLines(ls: seq<Line>): (r: seq<string>)
    ensures |r| == |ls| && forall j :: 0 <= j < |ls| ==> r[j] == FormatLine(ls[j])
  {
    seq(|ls|, j requires 0 <= j < |ls| => FormatLine(ls[j]))
  }

  /** The first two lines of the summary: a rule and the crust and size line. */
  function HeadLines(r: Receipt): seq<string> {
    [RuleLine('='), FormatLine(r.heading)]
  }

  /** The last five lines of the summary: a rule, the subtotal and tax, a rule and the total. */
  function TailLines(r: Receipt): seq<string> {
    [RuleLine('-'), FormatLine(Line("Sub-total:", r.subtotal)), FormatLine(Line("Tax:", r.tax)),
     RuleLine('='), FormatLine(Line("Total:", r.total))]
  }

  /** The lines of the summary, in the order the form appends them. */
  function SummaryLines(r: Receipt): seq<string> {
    HeadLines(r) + FormatLines(r.toppingLines) + TailLines(r)
  }

  predicate AllTextLines(ls: seq<string>) {
    forall i :: 0 <= i < |ls| ==> IsTextLine(ls[i])
  }

  /** The order summary text the form displays for a receipt. */
  function Render(r: Receipt): string {
    Concat(SummaryLines(r))
  }

  /** Every line of the receipt carries a label the summary can hold. */
  predicate WellLabelled(r: Receipt) {
    IsLabel(r.heading.caption) && forall l :: l in r.toppingLines ==> IsLabel(l.caption)
  }

  /** Reads back a run of priced lines. */
  function ParseLines(ls: seq<string>): Option<seq<Line>> {
    if ls == [] then Some([])
    else match (ParseLine(ls[0]), ParseLines(ls[1..]))
      case (Some(l), Some(rest)) => Some([l] + rest)
      case _ => None
  }

  /** Reads back an order summary: the rules, the heading, the topping lines and the three sums. */
  function ParseSummary(text: string): Option<Receipt> {
    ParseSummaryLines(SplitLines(text))
  }

  /** Reads back the lines of an order summary. */
  function ParseSummaryLines(ls: seq<string>): Option<Receipt> {
    var n := |ls|;
    if n < 7 || ls[0] != RuleLine('=') || ls[n - 5] != RuleLine('-') || ls[n - 2] != RuleLine('=') then None
    else match (ParseLine(ls[1]), ParseLines(ls[2..n - 5]), ParseLine(ls[n - 4]), ParseLine(ls[n - 3]), ParseLine(ls[n - 1]))
      case (Some(h), Some(ts), Some(sub), Some(tax), Some(tot)) =>
        if sub.caption == "Sub-total:" && tax.caption == "Tax:" && tot.caption == "Total:"
        then Some(Receipt(h, ts, sub.amount, tax.amount, tot.amount))
        else None
      case _ => None
  }

  lemma {:induction false} ParseLinesRoundTrip(ls: seq<Line>)
    requires forall l :: l in ls ==> IsLabel(l.caption)
    ensures ParseLines(FormatLines(ls)) == Some(ls)
    decreases |ls|
  {
    if ls != [] {
      LineRoundTrip(ls[0]);
      assert FormatLines(ls)[1..] == FormatLines(ls[1..]);
      ParseLinesRoundTrip(ls[1..]);
      assert ls == [ls[0]] + ls[1..];
    }
  }

  lemma SumLabels()
    ensures IsLabel("Sub-total:") && IsLabel("Tax:") && IsLabel("Total:")
  {
  }

  lemma HeadIsText(r: Receipt)
    requires WellLabelled(r)
    ensures AllTextLines(HeadLines(r))
  {
  }

  lemma TailIsText(r: Receipt)
    ensures AllTextLines(TailLines(r))
  {
    SumLabels();
    var tail := TailLines(r);
    assert IsTextLine(tail[0]) && IsTextLine(tail[1]) && IsTextLine(tail[2]);
    assert IsTextLine(tail[3]) && IsTextLine(tail[4]);
  }

  lemma ToppingLinesAreText(r: Receipt)
    requires WellLabelled(r)
    ensures AllTextLines(FormatLines(r.toppingLines))
  {
  }

  lemma SummaryLinesAreText(r: Receipt)
    requires WellLabelled(r)
    ensures AllTextLines(SummaryLines(r))
  {
    HeadIsText(r);
    TailIsText(r);
    ToppingLinesAreText(r);
    var head, mid, tail := HeadLines(r), FormatLines(r.toppingLines), TailLines(r);
    var ls := SummaryLines(r);
    forall i | 0 <= i < |ls| ensures IsTextLine(ls[i]) {
      if i < 2 {
        assert ls[i] == head[i];
      } else if i < 2 + |mid| {
        assert ls[i] == mid[i - 2];
      } else {
        assert ls[i] == tail[i - 2 - |mid|];
      }
    }
  }

  /** The summary splits into exactly its lines: two heading lines, one per topping, five closing lines. */
  lemma RenderLines(r: Receipt)
    requires WellLabelled(r)
    ensures SplitLines(Render(r)) == SummaryLines(r)
    ensures |SplitLines(Render(r))| == |r.toppingLines| + 7
  {
    SummaryLinesAreText(r);
    SplitConcat(SummaryLines(r));
  }

  /** The summary text determines the receipt it was rendered from. */
  lemma RenderRoundTrip(r: Receipt)
    requires WellLabelled(r)
    ensures ParseSummary(Render(r)) == Some(r)
  {
    RenderLines(r);
    SummaryLinesRoundTrip(r);
  }

  lemma SummaryLinesRoundTrip(r: Receipt)
    requires WellLabelled(r)
    ensures ParseSummaryLines(SummaryLines(r)) == Some(r)
  {
    var ls := SummaryLines(r);
    var n := |ls|;
    var m := |r.toppingLines|;
    assert n == m + 7;
    assert ls[0] == RuleLine('=') && ls[1] == FormatLine(r.heading);
    assert ls[2..n - 5] == FormatLines(r.toppingLines);
    var tail := TailLines(r);
    assert ls[n - 5..] == tail;
    assert ls[n - 5] == RuleLine('-') && ls[n - 2] == RuleLine('=');
    LineRoundTrip(r.heading);
    ParseLinesRoundTrip(r.toppingLines);
    SumLabels();
    LineRoundTrip(Line("Sub-total:", r.subtotal));
    LineRoundTrip(Line("Tax:", r.tax));
    LineRoundTrip(Line("Total:", r.total));
    assert ParseLine(ls[n - 4]) == Some(Line("Sub-total:", r.subtotal));
    assert ParseLine(ls[n - 3]) == Some(Line("Tax:", r.tax));
    assert ParseLine(ls[n - 1]) == Some(Line("Total:", r.total));
  }

  /** The elements of xs whose flag in keep is set, in their order in xs. */
  function Select<T>(xs: seq<T>, keep: seq<bool>): (r: seq<T>)
    requires |xs| == |keep|
  {
    if xs == [] then [] else (if keep[0] then [xs[0]] else []) + Select(xs[1..], keep[1..])
  }

  /** Every topping line the form could write, in list order. */
  const AllToppingLines: seq<Line> := seq(ToppingCount, i requires 0 <= i < ToppingCount => Line(ToppingNames[i], ToppingPrice))

  lemma {:induction false} SelectSnoc<T>(xs: seq<T>, keep: seq<bool>, x: T, b: bool)
    requires |xs| == |keep|
    ensures Select(xs + [x], keep + [b]) == Select(xs, keep) + if b then [x] else []
    decreases |xs|
  {
    if xs == [] {
      assert Select([x], [b]) == (if b then [x] else []) + Select([], []);
    } else {
      assert (xs + [x])[1..] == xs[1..] + [x];
      assert (keep + [b])[1..] == keep[1..] + [b];
      SelectSnoc(xs[1..], keep[1..], x, b);
    }
  }

  lemma {:induction false} ToppingLinesSelect(flags: Flags, k: nat)
    requires k <= ToppingCount
    ensures ToppingLinesUpTo(flags, k) == Select(AllToppingLines[..k], flags[..k])
    decreases k
  {
    if k > 0 {
      ToppingLinesSelect(flags, k - 1);
      var x := AllToppingLines[k - 1];
      assert x == Line(ToppingNames[k - 1], ToppingPrice);
      var xs, keep := AllToppingLines[..k - 1], flags[..k - 1];
      assert AllToppingLines[..k] == xs + [x];
      assert flags[..k] == keep + [flags[k - 1]];
      SelectSnoc(xs, keep, x, flags[k - 1]);
      assert ToppingLinesUpTo(flags, k) == ToppingLinesUpTo(flags, k - 1) + (if flags[k - 1] then [x] else []);
    }
  }

  /** The three amounts of the large two-topping example, as the summary shows them. */
  lemma ExampleAmountsShown()
    ensures Dollars(1800) == "$18.00" && Dollars(126) == "$1.26" && Dollars(1926) == "$19.26"
  {
  }

  lemma ToppingNamesDistinct()
    ensures forall i, j :: 0 <= i < j < ToppingCount ==> ToppingNames[i] != ToppingNames[j]
  {
  }

  lemma ToppingNamesAreLabels()
    ensures forall i :: 0 <= i < ToppingCount ==> IsLabel(ToppingNames[i])
  {
  }

  /** The topping lines of a receipt are the checked entries of the topping list, in list order,
      one line per checked topping, each priced at $1.00. */
  lemma ToppingLinesOfPrice(sel: Selection)
    requires Price(sel).Success?
    ensures Price(sel).value.toppingLines == Select(AllToppingLines, sel.toppings)
    ensures forall i :: 0 <= i < ToppingCount ==>
              (sel.toppings[i] <==> Line(ToppingNames[i], ToppingPrice) in Price(sel).value.toppingLines)
  {
    var lines := Price(sel).value.toppingLines;
    assert lines == ToppingLinesUpTo(sel.toppings, ToppingCount);
    ToppingLinesSelect(sel.toppings, ToppingCount);
    assert AllToppingLines[..ToppingCount] == AllToppingLines;
    assert sel.toppings[..ToppingCount] == sel.toppings;
    ToppingNamesDistinct();
    ToppingLinesNamed(sel.toppings, ToppingCount);
    forall i | 0 <= i < ToppingCount
      ensures sel.toppings[i] <==> Line(ToppingNames[i], ToppingPrice) in lines
    {
      if sel.toppings[i] {
        SelectKeeps(AllToppingLines, sel.toppings, i);
      }
    }
  }

  lemma {:induction false} SelectKeeps<T>(xs: seq<T>, keep: seq<bool>, i: nat)
    requires |xs| == |keep| && i < |xs| && keep[i]
    ensures xs[i] in Select(xs, keep)
    decreases i
  {
    if i > 0 {
      SelectKeeps(xs[1..], keep[1..], i - 1);
    }
  }

  /** The amounts of a receipt: the base price is the size's table entry, each checked topping adds $1.00,
      the tax is 7% of the subtotal and the total is subtotal plus tax; with S whole dollars of subtotal,
      the tax is exactly 7 * S cents and the total 107 * S cents. */
  lemma PriceAmounts(sel: Selection)
    requires Price(sel).Success?
    ensures var r := Price(sel).value;
      var dollars := SizePrices[sel.size] / 100 + Checked(sel.toppings);
      && r.heading == Line(CrustName(sel.crust.value) + " Crust, " + SizeNames[sel.size], SizePrices[sel.size])
      && r.subtotal == SizePrices[sel.size] + ToppingPrice * Checked(sel.toppings)
      && 100 * r.tax == TaxPercent * r.subtotal
      && r.total == r.subtotal + r.tax
      && r.subtotal == 100 * dollars && r.tax == 7 * dollars && r.total == 107 * dollars
  {
    assert sel.toppings[..ToppingCount] == sel.toppings;
    var r := Price(sel).value;
    var dollars := SizePrices[sel.size] / 100 + Checked(sel.toppings);
    assert SizePrices[sel.size] == 100 * (SizePrices[sel.size] / 100);
    assert r.subtotal == 100 * dollars;
    assert r.subtotal % 100 == 0;
  }

  /** Which toppings are checked does not matter to the amounts, only how many. */
  lemma PriceDependsOnCount(a: Selection, b: Selection)
    requires a.crust == b.crust && a.size == b.size && Checked(a.toppings) == Checked(b.toppings)
    ensures Price(a).Success? <==> Price(b).Success?
    ensures Price(a).Success? ==>
      var ra, rb := Price(a).value, Price(b).value;
      ra.heading == rb.heading && ra.subtotal == rb.subtotal && ra.tax == rb.tax && ra.total == rb.total
  {
    assert a.toppings[..ToppingCount] == a.toppings;
    assert b.toppings[..ToppingCount] == b.toppings;
  }

  /** Every receipt the form prices can be displayed and read back unambiguously. */
  lemma PriceWellLabelled(sel: Selection)
    requires Price(sel).Success?
    ensures WellLabelled(Price(sel).value)
  {
    var r := Price(sel).value;
    ToppingNamesAreLabels();
    ToppingLinesNamed(sel.toppings, ToppingCount);
    forall l | l in r.toppingLines ensures IsLabel(l.caption) {
      assert l in ToppingLinesUpTo(sel.toppings, ToppingCount);
    }
    var heading := CrustName(sel.crust.value) + " Crust, " + SizeNames[sel.size];
    assert IsLabel(heading) by {
      var size := SizeNames[sel.size];
      assert size[|size| - 1] != ' ';
      assert '\n' !in size && '\n' !in CrustName(sel.crust.value);
      assert heading[|heading| - 1] == size[|size| - 1];
    }
  }

  /** A cleared form is refused for its missing crust. */
  lemma ClearedIsRefused()
    ensures Price(Cleared) == Failure(MissingCrust)
  {
  }

  /** Pepperoni and Olives checked, nothing else. */
  const PepperoniOlives: Flags := [true, false, false, false, false, false, false, false, true]

  lemma PepperoniOlivesLines()
    ensures ToppingLinesUpTo(PepperoniOlives, ToppingCount) == [Line("Pepperoni", 100), Line("Olives", 100)]
  {
  }

  lemma PepperoniOlivesTotal()
    ensures ToppingTotalUpTo(PepperoniOlives, ToppingCount) == 200
  {
  }

  /** A Regular Large with Pepperoni and Olives: $18.00 subtotal, $1.26 tax, $19.26 total. */
  lemma ExampleLargeTwoToppings()
    ensures Price(Selection(Some(Regular), 2, PepperoniOlives))
         == Success(Receipt(Line("Regular Crust, Large", 1600),
                            [Line("Pepperoni", 100), Line("Olives", 100)], 1800, 126, 1926))
  {
    var heading := CrustName(Regular) + " Crust, " + SizeNames[2];
    assert heading == "Regular Crust, Large";
    assert Tax(1800) == 126;
    PepperoniOlivesTotal();
    PepperoniOlivesLines();
    PricedShape(Selection(Some(Regular), 2, PepperoniOlives));
  }

  // The two outcomes of Price once a crust is selected, spelled out for the examples and for Order.

  lemma UnpricedShape(sel: Selection)
    requires sel.crust.Some? && Checked(sel.toppings) == 0
    ensures Price(sel) == Failure(NoToppings)
  {
  }

  lemma PricedShape(sel: Selection)
    requires sel.crust.Some? && Checked(sel.toppings) != 0
    ensures var base := SizePrices[sel.size];
      var subtotal := base + ToppingPrice * Checked(sel.toppings);
      Price(sel) == Success(Receipt(Line(CrustName(sel.crust.value) + " Crust, " + SizeNames[sel.size], base),
                                    ToppingLinesUpTo(sel.toppings, ToppingCount),
                                    subtotal, Tax(subtotal), subtotal + Tax(subtotal)))
  {
    assert sel.toppings[..ToppingCount] == sel.toppings;
  }

  /** The receipt the form builds step by step is the one Price specifies. */
  lemma PricedAs(sel: Selection, heading: Line, subtotal: Cents, tax: Cents, total: Cents)
    requires sel.crust.Some? && Checked(sel.toppings) != 0
    requires heading == Line(CrustName(sel.crust.value) + " Crust, " + SizeNames[sel.size], SizePrices[sel.size])
    requires subtotal == SizePrices[sel.size] + ToppingPrice * Checked(sel.toppings)
    requires tax == Tax(subtotal) && total == subtotal + tax
    ensures Price(sel) == Success(Receipt(heading, ToppingLinesUpTo(sel.toppings, ToppingCount), subtotal, tax, total))
  {
    PricedShape(sel);
  }

  /** Pineapple checked, nothing else. */
  const PineappleOnly: Flags := [false, false, false, false, false, false, true, false, false]

  lemma PineappleOnlyLines()
    ensures ToppingLinesUpTo(PineappleOnly, ToppingCount) == [Line("Pineapple", 100)]
  {
  }

  lemma PineappleOnlyTotal()
    ensures Checked(PineappleOnly) == 1
  {
  }

  /** A Thin Small with Pineapple: $9.00 subtotal, $0.63 tax, $9.63 total. */
  lemma ExampleSmallOneTopping()
    ensures Price(Selection(Some(Thin), 0, PineappleOnly))
         == Success(Receipt(Line("Thin Crust, Small", 800), [Line("Pineapple", 100)], 900, 63, 963))
  {
    var heading := CrustName(Thin) + " Crust, " + SizeNames[0];
    assert heading == "Thin Crust, Small";
    assert Tax(900) == 63;
    PineappleOnlyTotal();
    PineappleOnlyLines();
    PricedShape(Selection(Some(Thin), 0, PineappleOnly));
  }

  // The steps of the Order button's text building, used by Form.PizzaForm.Order.

  /** Appending one more line to the text built so far. */
  lemma ConcatSnoc(prefix: seq<string>, y: string)
    ensures Concat(prefix + [y]) == Concat(prefix) + y
  {
    ConcatAppend(prefix, [y]);
    assert Concat([y]) == y + Concat([]);
  }

  lemma ConcatFiveMore(ls: seq<string>, a: string, b: string, c: string, d: string, e: string)
    ensures Concat(ls + [a, b, c, d, e]) == Concat(ls) + a + b + c + d + e
  {
    assert ls + [a, b, c, d, e] == ls + [a] + [b] + [c] + [d] + [e];
    ConcatSnoc(ls, a);
    ConcatSnoc(ls + [a], b);
    ConcatSnoc(ls + [a] + [b], c);
    ConcatSnoc(ls + [a] + [b] + [c], d);
    ConcatSnoc(ls + [a] + [b] + [c] + [d], e);
  }

  /** The summary as the form appends it: the head and topping lines, then the five closing lines. */
  lemma RenderByParts(r: Receipt)
    ensures Render(r) == Concat(HeadLines(r) + FormatLines(r.toppingLines))
                         + RuleLine('-') + FormatLine(Line("Sub-total:", r.subtotal))
                         + FormatLine(Line("Tax:", r.tax)) + RuleLine('=') + FormatLine(Line("Total:", r.total))
  {
    var t := TailLines(r);
    ConcatFiveMore(HeadLines(r) + FormatLines(r.toppingLines), t[0], t[1], t[2], t[3], t[4]);
    assert t == [t[0], t[1], t[2], t[3], t[4]];
  }

  lemma FormatLinesSnoc(ls: seq<Line>, x: Line)
    ensures Concat(FormatLines(ls + [x])) == Concat(FormatLines(ls)) + FormatLine(x)
  {
    var y := FormatLine(x);
    assert FormatLines(ls + [x]) == FormatLines(ls) + [y];
    ConcatSnoc(FormatLines(ls), y);
  }

  lemma StringAssoc(a: string, b: string, c: string)
    ensures (a + b) + c == a + (b + c)
  {
  }

  /** One pass of the topping loop: a checked topping appends its line to the text. */
  lemma ToppingStep(text0: string, flags: Flags, i: nat, text: string)
    requires i < ToppingCount
    requires text == text0 + Concat(FormatLines(ToppingLinesUpTo(flags, i)))
    ensures (if flags[i] then text + FormatLine(Line(ToppingNames[i], ToppingPrice)) else text)
         == text0 + Concat(FormatLines(ToppingLinesUpTo(flags, i + 1)))
  {
    var before := ToppingLinesUpTo(flags, i);
    if flags[i] {
      var x := Line(ToppingNames[i], ToppingPrice);
      assert ToppingLinesUpTo(flags, i + 1) == before + [x];
      FormatLinesSnoc(before, x);
      StringAssoc(text0, Concat(FormatLines(before)), FormatLine(x));
    } else {
      assert ToppingLinesUpTo(flags, i + 1) == before;
    }
  }

  /** The text before the closing lines: the head lines, then the topping lines. */
  lemma HeadAndToppings(r: Receipt)
    ensures Concat(HeadLines(r) + FormatLines(r.toppingLines))
         == RuleLine('=') + FormatLine(r.heading) + Concat(FormatLines(r.toppingLines))
  {
  }
}
