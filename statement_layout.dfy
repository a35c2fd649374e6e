/**
 * What the JavaScript and the Python statement scrapers share: the three statements, their row
 * widths, the labels they drop, and the first header cell they add.
 */
module StatementLayout {
  import opened ListOps

  datatype StatementKind = IncomeStatement | BalanceSheet | CashFlow

  /** Columns per row: the balance sheet has one fewer. */
  function RowWidth(kind: StatementKind): (k: nat)
    ensures k > 0
    ensures k == (if kind == BalanceSheet then 5 else 6)
  {
    match kind
    case IncomeStatement => 6
    case BalanceSheet => 5
    case CashFlow => 6
  }

  /** The section labels removed from the token list. */
  predicate IsSectionLabel(item: string) {
    item == "Operating Expenses" || item == "Non-recurring Events" || item == "Expand All"
  }

  /** `s.startswith(prefix)`: `s` is `prefix` followed by something. */
  function StartsWith(s: string, prefix: string): (b: bool)
    ensures b <==> exists rest :: s == prefix + rest
  {
    if |prefix| <= |s| && s[..|prefix|] == prefix then
      assert s == prefix + s[|prefix|..];
      true
    else
      assert forall rest :: (prefix + rest)[..|prefix|] == prefix;
      false
  }

  const ScriptPrefix := "(function"

  /** Inline script text, which begins with `(function`. */
  predicate IsScript(item: string) {
    StartsWith(item, ScriptPrefix)
  }

  /** The header cell put in front of the body. */
  const FirstHeader := "Breakdown"

  /** Tokens skipped at the start and at the end of the page. */
  const SkippedAtStart := 13
  const SkippedAtEnd := 5

  /**
   * The body both scrapers cut into rows: `slice(13, -5)` in JavaScript and `[13:-5]` in Python
   * drop the first 13 and the last 5 items, and 'Breakdown' is put in front.
   */
  function Body(items: seq<string>): (body: seq<string>)
    ensures |body| > 0 && body[0] == FirstHeader
    ensures |items| <= 18 ==> body == [FirstHeader]
    ensures |items| > 18 ==> body == [FirstHeader] + items[SkippedAtStart..|items| - SkippedAtEnd]
  {
    SliceMiddle(items);
    [FirstHeader] + Slice(items, SkippedAtStart, -SkippedAtEnd)
  }
}
