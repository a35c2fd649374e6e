/**
 * The token-list post-processing of `yahooIncomeStatement`, `yahooBalanceSheet` and
 * `yahooCashFlow` (lib/scrapers/yahoo_financial_statements_scraper.js). The three functions run
 * the same steps and differ only in the row width, so one method takes the statement kind.
 *
 * The page arrives as the `.text()` of every `div` in document order, or as the failure of the
 * request. A record maps a header to a cell, `None` standing for `undefined`.
 */
module StatementScraperJs {
  import opened Wrappers
  import opened Numerics
  import opened ListOps
  import opened StatementLayout

  // ---------------------------------------------------------------------------
  // String.prototype.trim

  /** The characters `trim` removes: WhiteSpace (with all of Unicode's Zs) and LineTerminator. */
  predicate IsWhitespace(c: char) {
    c == '\t' || c == '\n' || c == '\U{000B}' || c == '\U{000C}' || c == '\r' || c == ' '
    || c == '\U{00A0}' || c == '\U{1680}' || ('\U{2000}' <= c <= '\U{200A}')
    || c == '\U{2028}' || c == '\U{2029}' || c == '\U{202F}' || c == '\U{205F}'
    || c == '\U{3000}' || c == '\U{FEFF}'
  }

  function TrimStart(s: string): (r: string)
    ensures |r| <= |s| && r == s[|s| - |r|..]
    ensures forall i :: 0 <= i < |s| - |r| ==> IsWhitespace(s[i])
    ensures |r| > 0 ==> !IsWhitespace(r[0])
  {
    if |s| > 0 && IsWhitespace(s[0]) then TrimStart(s[1..]) else s
  }

  function TrimEnd(s: string): (r: string)
    ensures |r| <= |s| && r == s[..|r|]
    ensures forall i :: |r| <= i < |s| ==> IsWhitespace(s[i])
    ensures |r| > 0 ==> !IsWhitespace(r[|r| - 1])
  {
    if |s| > 0 && IsWhitespace(s[|s| - 1]) then TrimEnd(s[..|s| - 1]) else s
  }

  /**
   * `s.trim()`: a piece of `s` that neither starts nor ends with whitespace, and that is empty
   * exactly when `s` is all whitespace.
   */
  function Trim(s: string): (r: string)
    ensures |r| > 0 ==> !IsWhitespace(r[0]) && !IsWhitespace(r[|r| - 1])
    ensures r == "" <==> forall i :: 0 <= i < |s| ==> IsWhitespace(s[i])
  {
    var t := TrimStart(s);
    var r := TrimEnd(t);
    TrimEmptyIff(s);
    assert |r| > 0 ==> r[0] == t[0];
    r
  }

  lemma TrimEmptyIff(s: string)
    ensures TrimEnd(TrimStart(s)) == "" <==> forall i :: 0 <= i < |s| ==> IsWhitespace(s[i])
  {
    TrimStartEmptyIff(s);
    TrimEndEmptyIff(TrimStart(s));
  }

  lemma TrimStartEmptyIff(s: string)
    ensures TrimStart(s) == "" <==> forall i :: 0 <= i < |s| ==> IsWhitespace(s[i])
  {
    var t := TrimStart(s);
    assert |t| > 0 ==> t[0] == s[|s| - |t|];
  }

  /** On a text that does not start with whitespace, `TrimEnd` is empty only on the empty text. */
  lemma TrimEndEmptyIff(t: string)
    requires |t| > 0 ==> !IsWhitespace(t[0])
    ensures TrimEnd(t) == "" <==> t == ""
  {
    assert |t| > 0 ==> !IsWhitespace(t[0]);
  }

  // ---------------------------------------------------------------------------
  // Collecting and filtering

  predicate NonEmpty(s: string) {
    s != ""
  }

  function Trimmed(texts: seq<string>): (r: seq<string>)
    ensures |r| == |texts| && forall i :: 0 <= i < |texts| ==> r[i] == Trim(texts[i])
  {
    seq(|texts|, i requires 0 <= i < |texts| => Trim(texts[i]))
  }

  /** The trimmed, non-empty texts, in document order. */
  function Collected(texts: seq<string>): seq<string> {
    Filter(Trimmed(texts), NonEmpty)
  }

  lemma CollectedStep(texts: seq<string>, i: nat)
    requires i < |texts|
    ensures Collected(texts[..i + 1])
         == Collected(texts[..i]) + (if Trim(texts[i]) != "" then [Trim(texts[i])] else [])
  {
    var before, last := Trimmed(texts[..i]), Trim(texts[i]);
    var whole := Trimmed(texts[..i + 1]);
    assert whole[..i] == before by {
      forall k | 0 <= k < i
        ensures whole[k] == before[k]
      {
        assert texts[..i + 1][k] == texts[..i][k];
      }
    }
    assert whole == whole[..i] + [last];
    FilterSnoc(before, last, NonEmpty);
  }

  /** `$('div').each(...)`: push each div's trimmed text when it is not empty. */
  method CollectTexts(texts: seq<string>) returns (divList: seq<string>)
    ensures divList == Collected(texts)
  {
    divList := [];
    var i := 0;
    while i < |texts|
      invariant i <= |texts|
      invariant divList == Collected(texts[..i])
    {
      CollectedStep(texts, i);
      var text := Trim(texts[i]);
      if text != "" {
        divList := divList + [text];
      }
      i := i + 1;
    }
    assert texts[..i] == texts;
  }

  predicate NotSectionLabel(item: string) {
    !IsSectionLabel(item)
  }

  predicate NotScript(item: string) {
    item != "" && !IsScript(item)
  }

  /** Both filters: first the labels, then empty items and scripts. */
  function Filtered(divList: seq<string>): (r: seq<string>)
    ensures forall i :: 0 <= i < |r| ==> r[i] in divList && !IsSectionLabel(r[i]) && r[i] != "" && !IsScript(r[i])
    ensures forall i :: 0 <= i < |divList| && !IsSectionLabel(divList[i]) && NotScript(divList[i]) ==> divList[i] in r
  {
    Filter(Filter(divList, NotSectionLabel), NotScript)
  }

  // ---------------------------------------------------------------------------
  // Rows and records

  /** One step of the loop: the row taken at i is the first chunk of what is left from i. */
  lemma ChunksStep(list: seq<string>, i: nat, k: nat)
    requires k > 0 && i < |list|
    ensures Chunks(list[i..], k) == [Slice(list, i, i + k)] + Chunks(list[Min(i + k, |list|)..], k)
  {
    var rest := list[i..];
    var m := Min(k, |rest|);
    assert rest[..m] == list[i..i + m];
    assert rest[m..] == list[i + m..];
    assert Slice(list, i, i + k) == list[i..i + m];
  }

  /** The `for (i = 0; i < n; i += k)` loop that pushes `list.slice(i, i + k)`. */
  method ChunkRows(list: seq<string>, k: nat) returns (data: seq<seq<string>>)
    requires k > 0
    ensures data == Chunks(list, k)
  {
    data := [];
    var i := 0;
    while i < |list|
      invariant 0 <= i
      invariant data + Chunks(list[Min(i, |list|)..], k) == Chunks(list, k)
      decreases |list| - i
    {
      ChunksStep(list, i, k);
      ghost var rest := Chunks(list[Min(i + k, |list|)..], k);
      assert data + Chunks(list[i..], k) == (data + [Slice(list, i, i + k)]) + rest;
      data := data + [Slice(list, i, i + k)];
      i := i + k;
    }
    assert list[Min(i, |list|)..] == [];
  }

  /** `row[i]`, `undefined` past the end of a short row. */
  function Cell(row: seq<string>, i: nat): Option<string> {
    if i < |row| then Some(row[i]) else None
  }

  /** The object `headers.forEach((header, i) => result[header] = row[i])` builds: every header is a key. */
  function Record(headers: seq<string>, row: seq<string>): (r: map<string, Option<string>>)
    ensures forall h :: h in r <==> h in headers
  {
    if |headers| == 0 then map[]
    else
      var n := |headers| - 1;
      assert forall h :: h in headers <==> h in headers[..n] || h == headers[n];
      Record(headers[..n], row)[headers[n] := Cell(row, n)]
  }

  /** A header that occurs more than once keeps the cell of its last occurrence. */
  lemma {:induction false} RecordLastOccurrenceWins(headers: seq<string>, row: seq<string>, i: nat)
    requires i < |headers|
    requires forall j :: i < j < |headers| ==> headers[j] != headers[i]
    ensures Record(headers, row)[headers[i]] == Cell(row, i)
    decreases |headers|
  {
    var n := |headers| - 1;
    if i < n {
      assert headers[..n][i] == headers[i];
      RecordLastOccurrenceWins(headers[..n], row, i);
    }
  }

  /** The loop of `forEach` over the headers. */
  method RowRecord(headers: seq<string>, row: seq<string>) returns (result: map<string, Option<string>>)
    ensures result == Record(headers, row)
  {
    result := map[];
    var i := 0;
    while i < |headers|
      invariant i <= |headers|
      invariant result == Record(headers[..i], row)
    {
      assert headers[..i + 1][..i] == headers[..i];
      result := result[headers[i] := Cell(row, i)];
      i := i + 1;
    }
    assert headers[..i] == headers;
  }

  /** `rows.map(row => ...)`: one record per row, in order. */
  method Records(headers: seq<string>, rows: seq<seq<string>>) returns (records: seq<map<string, Option<string>>>)
    ensures |records| == |rows|
    ensures forall j :: 0 <= j < |rows| ==> records[j] == Record(headers, rows[j])
  {
    records := [];
    var j := 0;
    while j < |rows|
      invariant j <= |rows|
      invariant |records| == j
      invariant forall i :: 0 <= i < j ==> records[i] == Record(headers, rows[i])
    {
      var record := RowRecord(headers, rows[j]);
      records := records + [record];
      j := j + 1;
    }
  }

  /** The rows of a page: its body cut into rows of the statement's width; the first is the header. */
  function Rows(kind: StatementKind, texts: seq<string>): (rows: seq<seq<string>>)
    ensures |rows| > 0 && |rows[0]| > 0 && rows[0][0] == FirstHeader
  {
    var body := Body(Filtered(Collected(texts)));
    var k := RowWidth(kind);
    assert Chunks(body, k) == [body[..Min(k, |body|)]] + Chunks(body[Min(k, |body|)..], k);
    assert Chunks(body, k)[0] == body[..Min(k, |body|)];
    assert Min(k, |body|) >= 1;
    assert Chunks(body, k)[0][0] == body[0];
    Chunks(body, k)
  }

  /** The records of a page: one per row after the header row. */
  function Statement(kind: StatementKind, texts: seq<string>): seq<map<string, Option<string>>> {
    RecordsOf(Rows(kind, texts))
  }

  /** One record per row after the first, keyed by the first row. */
  function RecordsOf(rows: seq<seq<string>>): seq<map<string, Option<string>>>
    requires |rows| > 0
  {
    seq(|rows| - 1, j requires 0 <= j < |rows| - 1 => Record(rows[0], rows[j + 1]))
  }

  lemma RecordsOfHaveFirstKey(rows: seq<seq<string>>, j: nat)
    requires |rows| > 0 && |rows[0]| > 0 && j < |rows| - 1
    ensures rows[0][0] in RecordsOf(rows)[j]
  {
    assert RecordsOf(rows)[j] == Record(rows[0], rows[j + 1]);
    assert rows[0][0] in rows[0];
  }

  lemma StatementFromRecords(kind: StatementKind, texts: seq<string>, records: seq<map<string, Option<string>>>)
    requires var rows := Rows(kind, texts);
      |records| == |rows| - 1 && forall j :: 0 <= j < |records| ==> records[j] == Record(rows[0], rows[1..][j])
    ensures records == Statement(kind, texts)
  {
    var rows := Rows(kind, texts);
    assert |RecordsOf(rows)| == |records|;
    forall j | 0 <= j < |records|
      ensures records[j] == RecordsOf(rows)[j]
    {
      assert rows[1..][j] == rows[j + 1];
    }
  }

  /**
   * One of the three scrapers: `None` (`undefined`) when the request fails, else the records of
   * the page.
   */
  method YahooStatement(kind: StatementKind, page: Result<seq<string>>)
    returns (r: Option<seq<map<string, Option<string>>>>)
    ensures page.Failure? <==> r.None?
    ensures page.Success? ==> r == Some(Statement(kind, page.value))
  {
    if page.Failure? {
      return None;
    }
    var divList := CollectTexts(page.value);
    divList := Filter(divList, NotSectionLabel);
    divList := Filter(divList, NotScript);
    assert divList == Filtered(Collected(page.value));
    var list := [FirstHeader] + Slice(divList, SkippedAtStart, -SkippedAtEnd);
    assert list == Body(divList);
    var data := ChunkRows(list, RowWidth(kind));
    ghost var rows := Rows(kind, page.value);
    assert data == rows;
    var headers := data[0];
    data := data[1..];
    var records := Records(headers, data);
    StatementFromRecords(kind, page.value, records);
    return Some(records);
  }

  /**
   * The number of records is ⌈|body| / k⌉ − 1, where the body is the 'Breakdown' cell and the
   * items between the first 13 and the last 5.
   */
  lemma StatementCount(kind: StatementKind, texts: seq<string>)
    ensures var body := Body(Filtered(Collected(texts)));
      |Statement(kind, texts)| == (|body| + RowWidth(kind) - 1) / RowWidth(kind) - 1
  {
    var body := Body(Filtered(Collected(texts)));
    ChunksCount(body, RowWidth(kind));
    assert |Statement(kind, texts)| == |Rows(kind, texts)| - 1;
  }

  /** Every record has a 'Breakdown' key, since the header row starts with it. */
  lemma RecordsHaveFirstHeader(kind: StatementKind, texts: seq<string>, j: nat)
    requires j < |Statement(kind, texts)|
    ensures FirstHeader in Statement(kind, texts)[j]
  {
    RecordsOfHaveFirstKey(Rows(kind, texts), j);
  }

  /** A page with at most 18 kept items has no records. */
  lemma ShortPageHasNoRecords(kind: StatementKind, texts: seq<string>)
    requires |Filtered(Collected(texts))| <= 18
    ensures Statement(kind, texts) == []
  {
    StatementCount(kind, texts);
  }
}
