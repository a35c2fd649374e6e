/**
 * The list pipeline of `yahoo_income_statement`, `yahoo_balance_sheet` and `yahoo_cash_flow`
 * (scrapers/souped_up/yahoo_financial_statements_scraper.py), up to the point where pandas takes
 * over: the header row and the data rows of the DataFrame.
 *
 * A div is its `.string` and its `title` attribute, either of which may be `None`.
 */
module StatementScraperPy {
  import opened Wrappers
  import opened ListOps
  import opened StatementLayout

  datatype Div = Div(text: Option<string>, title: Option<string>)

  /** What one div adds: its string, then its title when the two differ. */
  function Contribution(div: Div): (items: seq<Option<string>>)
    ensures |items| >= 1 && items[0] == div.text
    ensures |items| == 2 <==> div.text != div.title
    ensures |items| == 2 ==> items[1] == div.title
  {
    [div.text] + (if div.text != div.title then [div.title] else [])
  }

  function Contributions(divs: seq<Div>): (r: seq<seq<Option<string>>>)
    ensures |r| == |divs| && forall i :: 0 <= i < |divs| ==> r[i] == Contribution(divs[i])
  {
    seq(|divs|, i requires 0 <= i < |divs| => Contribution(divs[i]))
  }

  /** The `div_list` the loop builds: the contributions of the divs, in document order. */
  function Collected(divs: seq<Div>): seq<Option<string>> {
    Flatten(Contributions(divs))
  }

  /** The `for div in soup.find_all('div')` loop. */
  method CollectDivs(divs: seq<Div>) returns (divList: seq<Option<string>>)
    ensures divList == Collected(divs)
  {
    divList := [];
    var i := 0;
    while i < |divs|
      invariant i <= |divs|
      invariant divList == Collected(divs[..i])
    {
      assert Contributions(divs[..i + 1]) == Contributions(divs[..i]) + [Contribution(divs[i])];
      FlattenAppend(Contributions(divs[..i]), [Contribution(divs[i])]);
      assert Flatten([Contribution(divs[i])]) == Contribution(divs[i]);
      divList := divList + [divs[i].text];
      if divs[i].text != divs[i].title {
        divList := divList + [divs[i].title];
      }
      i := i + 1;
    }
    assert divs[..i] == divs;
  }

  /** `incl not in (labels)`: `None` is not one of the labels, so it stays. */
  predicate NotSectionLabel(item: Option<string>) {
    !(item.Some? && IsSectionLabel(item.value))
  }

  /** `filter(None, ...)`: drops `None` and the empty string, the falsy items. */
  function DropFalsy(items: seq<Option<string>>): (r: seq<string>)
    ensures |r| <= |items|
    ensures forall i :: 0 <= i < |r| ==> r[i] != "" && Some(r[i]) in items
    ensures forall i :: 0 <= i < |items| && items[i].Some? && items[i].value != "" ==> items[i].value in r
  {
    if |items| == 0 then []
    else if items[0].Some? && items[0].value != "" then [items[0].value] + DropFalsy(items[1..])
    else DropFalsy(items[1..])
  }

  predicate NotScript(item: string) {
    !IsScript(item)
  }

  /** `filter(None, ...)` keeps the order: filtering a concatenation concatenates the results. */
  lemma {:induction false} DropFalsyAppend(a: seq<Option<string>>, b: seq<Option<string>>)
    ensures DropFalsy(a + b) == DropFalsy(a) + DropFalsy(b)
  {
    if |a| > 0 {
      assert (a + b)[1..] == a[1..] + b;
      DropFalsyAppend(a[1..], b);
      assert (a + b)[0] == a[0];
    } else {
      assert a + b == b;
    }
  }

  /** An item the three comprehensions keep: a non-empty string that is neither a label nor a script. */
  predicate Survives(item: Option<string>) {
    item.Some? && item.value != "" && !IsSectionLabel(item.value) && !IsScript(item.value)
  }

  /**
   * The three comprehensions: labels, then falsy items, then scripts, in that order. A string
   * survives exactly when it is present, non-empty, not a label and not a script.
   */
  function Filtered(divList: seq<Option<string>>): (r: seq<string>)
    ensures forall i :: 0 <= i < |r| ==>
      r[i] != "" && !IsSectionLabel(r[i]) && !IsScript(r[i]) && Some(r[i]) in divList
    ensures forall i :: 0 <= i < |divList| && Survives(divList[i]) ==> divList[i].value in r
  {
    var labelled := Filter(divList, NotSectionLabel);
    var present := DropFalsy(labelled);
    assert forall i :: 0 <= i < |labelled| ==> NotSectionLabel(labelled[i]);
    assert forall i :: 0 <= i < |present| ==> Some(present[i]) in labelled;
    assert forall i :: 0 <= i < |divList| && Survives(divList[i]) ==> divList[i].value in present by {
      forall i | 0 <= i < |divList| && Survives(divList[i])
        ensures divList[i].value in present
      {
        assert divList[i] in labelled;
        var j :| 0 <= j < |labelled| && labelled[j] == divList[i];
      }
    }
    Filter(present, NotScript)
  }

  /** Filtering keeps the order of the page: the survivors of two lists are the survivors of each, in turn. */
  lemma FilteredAppend(a: seq<Option<string>>, b: seq<Option<string>>)
    ensures Filtered(a + b) == Filtered(a) + Filtered(b)
  {
    FilterAppend(a, b, NotSectionLabel);
    DropFalsyAppend(Filter(a, NotSectionLabel), Filter(b, NotSectionLabel));
    FilterAppend(DropFalsy(Filter(a, NotSectionLabel)), DropFalsy(Filter(b, NotSectionLabel)), NotScript);
  }

  /** The DataFrame before `set_index`: its column labels and its data rows. */
  datatype Table = Table(header: seq<string>, rows: seq<seq<string>>)

  const NoRows := "IndexError: single positional indexer is out-of-bounds"

  /**
   * `DataFrame(groups)`, `iloc[0]` as the header and `[1:]` as the data. With no group at all,
   * `iloc[0]` raises.
   */
  function TableOf(groups: seq<seq<string>>): (r: Result<Table>)
    ensures r.Failure? <==> |groups| == 0
    ensures r.Success? ==> r.value.header == groups[0] && r.value.rows == groups[1..]
  {
    if |groups| == 0 then Failure(NoRows) else Success(Table(groups[0], groups[1..]))
  }

  /** The table of a page, as a function of its divs. */
  function Statement(kind: StatementKind, divs: seq<Div>): Result<Table> {
    TableOf(Groups(Body(Filtered(Collected(divs))), RowWidth(kind)))
  }

  /** One of the three scrapers, up to the DataFrame. */
  method YahooTable(kind: StatementKind, divs: seq<Div>) returns (r: Result<Table>)
    ensures r == Statement(kind, divs)
  {
    var divList := CollectDivs(divs);
    var labelled := Filter(divList, NotSectionLabel);
    var present := DropFalsy(labelled);
    var items := Filter(present, NotScript);
    var list := [FirstHeader] + Slice(items, SkippedAtStart, -SkippedAtEnd);
    var data := Groups(list, RowWidth(kind));
    if |data| == 0 {
      return Failure(NoRows);
    }
    var headers := data[0];
    return Success(Table(headers, data[1..]));
  }

  /**
   * The table exists exactly when the body fills one row; then it has ⌊|body| / k⌋ − 1 data rows,
   * every row and the header have exactly k cells, and the header starts with 'Breakdown'.
   */
  lemma StatementShape(kind: StatementKind, divs: seq<Div>)
    ensures var body := Body(Filtered(Collected(divs)));
      var k := RowWidth(kind);
      var r := Statement(kind, divs);
      (r.Success? <==> |body| >= k)
      && (r.Success? ==>
            |r.value.rows| == |body| / k - 1
            && |r.value.header| == k && r.value.header[0] == FirstHeader
            && forall j :: 0 <= j < |r.value.rows| ==> |r.value.rows[j]| == k)
  {
    var body := Body(Filtered(Collected(divs)));
    var k := RowWidth(kind);
    GroupsCount(body, k);
    if |body| >= k {
      assert Groups(body, k)[0] == body[..k];
    }
  }

  /** A page with at most 18 kept items yields no table: one 'Breakdown' cell fills no row. */
  lemma ShortPageFails(kind: StatementKind, divs: seq<Div>)
    requires |Filtered(Collected(divs))| <= 18
    ensures Statement(kind, divs).Failure?
  {
    StatementShape(kind, divs);
  }

  /**
   * Given the same kept items, the Python rows (header included) are the JavaScript rows of
   * `StatementScraperJs.Rows` with the incomplete last row dropped; with a body that fills whole
   * rows they are the same.
   */
  lemma AgreesWithJavaScriptRows(kind: StatementKind, items: seq<string>)
    ensures var groups := Groups(Body(items), RowWidth(kind));
      var chunks := Chunks(Body(items), RowWidth(kind));
      |groups| <= |chunks| && groups == chunks[..|groups|]
      && (|Body(items)| % RowWidth(kind) == 0 ==> groups == chunks)
  {
    GroupsArePrefixOfChunks(Body(items), RowWidth(kind));
  }
}
