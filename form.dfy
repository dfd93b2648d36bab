/**
 * The order form itself: the state its widgets hold (crust radio buttons,
 * size combo box, topping check boxes, summary text area) and the two
 * buttons that work on it, Order and Clear.
 */
module Form {
  import opened Wrappers
  import opened Money
  import opened Layout
  import opened Pricing

  class PizzaForm {
    /** The selected crust radio button, if any. */
    var crust: Option<Crust>
    /** The selected index of the size combo box. */
    var sizeIndex: int
    /** The topping check boxes, in list order. */
    const toppings: array<bool>
    /** The text of the order summary area. */
    var summary: string

    ghost predicate Valid()
      reads this
    {
      toppings.Length == ToppingCount && 0 <= sizeIndex < SizeCount
    }

    /** The selection the widgets currently hold. */
    function Current(): Selection
      reads this, toppings
      requires Valid()
    {
      Selection(crust, sizeIndex, toppings[..])
    }

    /** A new form: no crust, Small, no topping checked, an empty summary. */
    constructor ()
      ensures Valid() && fresh(toppings)
      ensures Current() == Cleared && summary == ""
    {
      crust := None;
      sizeIndex := 0;
      toppings := new bool[ToppingCount](_ => false);
      summary := "";
    }

    /**
     * The Order button. It refuses a selection without a crust, then one without a
     * topping, and returns the refusal shown in the dialog; otherwise it replaces
     * the summary with the priced order. The selection itself is never changed.
     */
    method Order() returns (notice: Option<OrderError>)
      requires Valid()
      modifies this`summary
      ensures Valid() && Current() == old(Current())
      ensures match Price(Current())
        case Failure(e) => notice == Some(e) && summary == old(summary)
        case Success(r) => notice == None && summary == Render(r)
    {
      if crust.None? {
        notice := Some(MissingCrust);
        return;
      }
      var base := SizePrices[sizeIndex];
      var size := SizeNames[sizeIndex];
      var heading := Line(CrustName(crust.value) + " Crust, " + size, base);
      var text := RuleLine('=') + FormatLine(heading);
      var toppingTotal;
      text, toppingTotal := AppendToppings(text);
      ghost var sel := Current();
      if toppingTotal == 0 {
        UnpricedShape(sel);
        notice := Some(NoToppings);
        return;
      }
      var subTotal := base + toppingTotal;
      var tax := Tax(subTotal);
      var total := subTotal + tax;
      ghost var receipt := Receipt(heading, ToppingLinesUpTo(sel.toppings, ToppingCount), subTotal, tax, total);
      PricedAs(sel, heading, subTotal, tax, total);
      HeadAndToppings(receipt);
      RenderByParts(receipt);
      ghost var before := text;
      assert before == Concat(HeadLines(receipt) + FormatLines(receipt.toppingLines));
      text := text + RuleLine('-');
      text := text + FormatLine(Line("Sub-total:", subTotal));
      text := text + FormatLine(Line("Tax:", tax));
      text := text + RuleLine('=');
      text := text + FormatLine(Line("Total:", total));
      assert text == Render(receipt);
      summary := text;
      notice := None;
    }

    /**
     * The topping loop of the Order button: appends one line per checked topping, in
     * list order, and sums their prices, which come to $1.00 per checked topping.
     */
    method AppendToppings(text0: string) returns (text: string, toppingTotal: Cents)
      requires Valid()
      ensures text == text0 + Concat(FormatLines(ToppingLinesUpTo(toppings[..], ToppingCount)))
      ensures toppingTotal == ToppingPrice * Checked(toppings[..])
    {
      ghost var flags: Flags := toppings[..];
      text := text0;
      assert FormatLines([]) == [];
      toppingTotal := 0;
      for i := 0 to toppings.Length
        invariant text == text0 + Concat(FormatLines(ToppingLinesUpTo(flags, i)))
        invariant toppingTotal == ToppingTotalUpTo(flags, i)
      {
        ToppingStep(text0, flags, i, text);
        if toppings[i] {
          text := text + FormatLine(Line(ToppingNames[i], ToppingPrice));
          toppingTotal := toppingTotal + ToppingPrice;
        }
      }
      assert flags[..ToppingCount] == flags;
    }

    /**
     * The Clear button: no crust, Small, every topping unchecked, an empty summary.
     * Ordering right after it is refused for the missing crust.
     */
    method Clear()
      requires Valid()
      modifies this, toppings
      ensures Valid()
      ensures Current() == Cleared && summary == ""
      ensures Price(Current()) == Failure(MissingCrust)
    {
      crust := None;
      sizeIndex := 0;
      for i := 0 to toppings.Length
        modifies toppings
        invariant forall j :: 0 <= j < i ==> !toppings[j]
      {
        toppings[i] := false;
      }
      summary := "";
      assert toppings[..] == Cleared.toppings;
    }

    /**
     * The Clear button as the source writes it. The three crust radio buttons share a
     * Swing ButtonGroup, which ignores setSelected(false) on its selected button, so
     * the crust stays as it was; the size, the toppings and the summary are reset.
     */
    method ClearAsWritten()
      requires Valid()
      modifies this, toppings
      ensures Valid()
      ensures Current() == Selection(old(crust), 0, Cleared.toppings) && summary == ""
      ensures old(crust).Some? ==> Price(Current()) == Failure(NoToppings)
    {
      sizeIndex := 0;
      for i := 0 to toppings.Length
        modifies toppings
        invariant forall j :: 0 <= j < i ==> !toppings[j]
      {
        toppings[i] := false;
      }
      summary := "";
      assert toppings[..] == Cleared.toppings;
    }
  }

  /**
   * After the Clear button as written, a form that had a crust is refused for its
   * missing toppings, not for a missing crust: the reset did not reach the crust.
   */
  lemma AsWrittenClearThenOrder(c: Crust)
    ensures Price(Selection(Some(c), 0, Cleared.toppings)) == Failure(NoToppings)
    ensures Price(Selection(Some(c), 0, Cleared.toppings)) != Price(Cleared)
  {
  }
}
