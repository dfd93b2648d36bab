# Pizza order form: order pricing and validation

A Dafny model of the business logic of a single-window Swing pizza order
form (`src/PizzaGUIFrame.java`). The form has three parts: crust radio
buttons (Thin, Regular, Deep-Dish), a size combo box (Small, Medium, Large,
Super) and nine topping check boxes, plus an order-summary text area. The
model covers what the Order and Clear buttons do to that state:

- the fixed price tables: sizes at $8, $12, $16 and $20, every topping at
  $1.00, tax at 7%;
- the validation of the Order button, in its fixed order. A missing crust
  is refused first, then a selection with no topping checked. Either
  refusal leaves the summary as it was;
- the price arithmetic: base price, topping total, subtotal, tax and total;
- the text of the summary. It is built line by line: rule lines of 36 `=`
  or `-` characters, and priced lines written as
  `String.format("%-20s %s\n", label, String.format("$%.2f", amount))`;
- the Clear button.

Money is integer cents. This is exact for this form. Every size price is a
whole number of dollars and the topping price is $1.00, so a subtotal is
always S whole dollars. The tax is then exactly 7·S cents and the total
exactly 107·S cents.

Layout:

- `wrappers.dfy`: `Option` and `Result`.
- `money.dfy`: cents, the decimal numeral and the `"$%.2f"` form of an
  amount, and the parser that reads it back.
- `layout.dfy`: the `"%-20s %s\n"` priced line, rule lines, and splitting a
  text into lines. It also has the parsers that read lines back.
- `pricing.dfy`: the tables and the topping names. It defines the
  `Selection` the widgets hold, the specification `Price` (a receipt, or
  the first rule broken) and `Render` (the summary text of a receipt). It
  proves the amount, ordering and round-trip properties.
- `form.dfy`: the class `PizzaForm`. Its fields are the widget state: the
  crust, the size index, a nine-element topping array and the summary. It
  has the methods `Order`, `AppendToppings` (the topping loop of `Order`),
  `Clear` and `ClearAsWritten`. `Order` is proved against `Price` and
  `Render`.

The two message dialogs are modelled as the returned `OrderError`. Their
texts are in `Pricing.Message`. Selecting widgets is modelled by writing
the public fields of `PizzaForm`.

## Model

| member | source | states |
|---|---|---|
| `Money.Decimal` | src/PizzaGUIFrame.java:109 | the dollars of an amount are printed as a canonical decimal numeral: digits only, no leading zero |
| `Money.DecimalRoundTrip` | src/PizzaGUIFrame.java:109 | reading back the printed numeral gives the number |
| `Money.DecimalOfValue` | src/PizzaGUIFrame.java:109 | every canonical numeral is the one printed for its value, so printing and reading are inverse both ways |
| `Money.Dollars` | src/PizzaGUIFrame.java:109 | `"$%.2f"`: a `$`, the dollars, a point and exactly two digits of cents, with no space or line break |
| `Money.DollarsRoundTrip` | src/PizzaGUIFrame.java:109 | the displayed amount determines the amount in cents |
| `Money.DollarsOfParse` | src/PizzaGUIFrame.java:109 | every well-formed amount text is the one printed for its value |
| `Layout.PadRight` | src/PizzaGUIFrame.java:109 | `"%-20s"`: the label comes first, is padded with spaces to at least the width, and is never truncated |
| `Layout.FormatLine` | src/PizzaGUIFrame.java:114 | a priced line with a one-line label is a single line ending in its line break |
| `Layout.FormatLineLayout` | src/PizzaGUIFrame.java:128-131 | the label is at the start, then spaces up to column max(label length, 20), one space, the amount with two fractional digits, and the line break |
| `Layout.RuleLine` | src/PizzaGUIFrame.java:127 | a rule line is 36 copies of its character and a line break |
| `Layout.LineRoundTrip` | src/PizzaGUIFrame.java:109 | a priced line can be read back to the same label and amount |
| `Layout.SplitConcat` | src/PizzaGUIFrame.java:107-131 | text appended line by line splits back into exactly those lines, in order |
| `Pricing.ToppingLinesUpTo` | src/PizzaGUIFrame.java:112-116 | the loop writes exactly as many lines as there are checked toppings |
| `Pricing.ToppingLinesNamed` | src/PizzaGUIFrame.java:112-116 | every topping line is priced $1.00 and carries the name of a checked topping |
| `Pricing.ToppingTotalUpTo` | src/PizzaGUIFrame.java:111-117 | the accumulated topping total is $1.00 times the number of checked toppings |
| `Pricing.Tax` | src/PizzaGUIFrame.java:124 | the tax of a whole-dollar subtotal is exactly 7% of it, in cents |
| `Pricing.Price` | src/PizzaGUIFrame.java:97-125 | the missing-crust refusal happens exactly when no crust is selected. The no-toppings refusal happens exactly when a crust is selected and no topping is checked |
| `Pricing.MessagesDistinct` | src/PizzaGUIFrame.java:99-119 | the two refusals show different dialog texts, "Please select a crust type." and "Please select at least one topping." (`Pricing.Message`), so the text names the rule that was broken |
| `Pricing.PriceAmounts` | src/PizzaGUIFrame.java:103-125 | the base price is the size-table entry and the heading is "<crust> Crust, <size>". The subtotal is base + $1.00 per topping, the tax is 7% of it, and total = subtotal + tax. For S whole dollars these are 100·S, 7·S and 107·S cents |
| `Pricing.PriceDependsOnCount` | src/PizzaGUIFrame.java:111-125 | which toppings are checked does not change the amounts; only how many are checked does |
| `Pricing.ToppingLinesOfPrice` | src/PizzaGUIFrame.java:59 | the topping lines are the checked entries of the fixed topping list, in list order. A topping's line is present exactly when its box is checked |
| `Pricing.PriceWellLabelled` | src/PizzaGUIFrame.java:97-109 | every label of a priced order fits on one line and does not end in a space, so its summary reads back unambiguously |
| `Pricing.RenderLines` | src/PizzaGUIFrame.java:107-131 | the summary is these lines in order: an `=` rule, the heading, one line per topping, a `-` rule, Sub-total, Tax, an `=` rule, Total. That is 7 + (toppings) lines |
| `Pricing.RenderRoundTrip` | src/PizzaGUIFrame.java:107-133 | the summary text determines the receipt it shows |
| `Pricing.ClearedIsRefused` | src/PizzaGUIFrame.java:137-146 | a cleared selection is refused for the missing crust |
| `Pricing.ExampleLargeTwoToppings` | src/PizzaGUIFrame.java:123-125 | Regular Large with Pepperoni and Olives prices at subtotal $18.00, tax $1.26, total $19.26, with the two topping lines in list order |
| `Pricing.ExampleSmallOneTopping` | src/PizzaGUIFrame.java:14-16 | Thin Small with Pineapple prices at subtotal $9.00, tax $0.63, total $9.63 |
| `Pricing.ExampleAmountsShown` | src/PizzaGUIFrame.java:128-131 | 1800, 126 and 1926 cents display as "$18.00", "$1.26" and "$19.26" |
| `Form.PizzaForm.constructor` | src/PizzaGUIFrame.java:31-76 | a new form has no crust, Small, no topping checked and an empty summary |
| `Form.PizzaForm.AppendToppings` | src/PizzaGUIFrame.java:111-117 | the topping loop appends exactly the topping lines of the selection. Its total is $1.00 per checked topping |
| `Form.PizzaForm.Order` | src/PizzaGUIFrame.java:96-134 | Order returns the refusal `Price` gives and leaves the summary unchanged, or replaces the summary with `Render` of the receipt. The selection is unchanged either way |
| `Form.PizzaForm.Clear` | src/PizzaGUIFrame.java:137-146 | Clear leaves no crust, Small, no topping checked and an empty summary. Ordering right after it is refused for the missing crust |
| `Form.PizzaForm.ClearAsWritten` | src/PizzaGUIFrame.java:138-140 | as written, clearing keeps the selected crust and resets size, toppings and summary. When a crust was selected, ordering right after it is refused for no toppings, not for the missing crust |
| `Form.AsWrittenClearThenOrder` | src/PizzaGUIFrame.java:137-146 | after the as-written clear of a form with a crust, Order is refused for no toppings, not for the missing crust |

## Left out

- Window, panel, layout, border and scroll-pane construction (lines 18-92): presentation only.
- The message dialogs (lines 99, 119): the modal dialog window itself. The refusal it reports is the returned `OrderError`, and its text is modelled by `Pricing.Message`.
- `confirmQuit` and `System.exit` (lines 148-153): process control behind a confirmation dialog.
- Listener wiring and event dispatch (lines 84-86, 94-96): framework plumbing. Each button press is one method call.
- IEEE double arithmetic of prices and tax (lines 14-16, 123-125) and the rounding of `%.2f`. Amounts are exact integer cents. Every exact amount is a whole number of cents, so `%.2f` only removes the double's representation error (9.0 * 0.07 is not exactly 0.63) and prints what the model prints.
- `Pricing.Tax`: for a subtotal that is not a whole number of dollars, the model truncates to the cent. The form never produces such a subtotal, and `%.2f` would round half up.
- Locale: `String.format` uses the default locale. The model assumes a locale whose decimal separator is `.`.
- The summary text area's display and scrolling. The summary is the `summary` string field.

## Findings

| source | as written | input that shows it | evidently intended | confidence | as-written member | corrected member |
|---|---|---|---|---|---|---|
| src/PizzaGUIFrame.java:138-140 | `clearForm` calls `setSelected(false)` on each crust radio button. The buttons share a `ButtonGroup`, and Swing's button group ignores a request to deselect its selected button, so the crust stays selected | select Thin, check Pepperoni, press Clear, then Order: the form says "Please select at least one topping." | Clear empties the crust choice too (`ButtonGroup.clearSelection()`), so Order right after Clear asks for a crust | not executed; relies on Swing's documented `ButtonGroup` behaviour | `Form.PizzaForm.ClearAsWritten`, `Form.AsWrittenClearThenOrder` | `Form.PizzaForm.Clear` |
