/**
 * Ticker validation and the quote request key, shared by components/OptionCalculator.tsx and
 * components/StockTicker.tsx, which define the same `isValidTicker` (`/^[A-Z]{1,5}$/`) and the
 * same SWR key.
 */
module Ticker {
  import opened Wrappers

  predicate IsUpperLetter(c: char) {
    'A' <= c <= 'Z'
  }

  /** Length of the longest prefix of `s` made of upper-case letters (the `[A-Z]*` run). */
  function UpperRun(s: string): (n: nat)
    ensures n <= |s|
    ensures forall i :: 0 <= i < n ==> IsUpperLetter(s[i])
    ensures n < |s| ==> !IsUpperLetter(s[n])
  {
    if |s| == 0 || !IsUpperLetter(s[0]) then 0 else 1 + UpperRun(s[1..])
  }

  /** `/^[A-Z]{1,5}$/.test(ticker)`: the run of letters covers the whole string and has 1 to 5 of them. */
  predicate IsValidTicker(ticker: string) {
    UpperRun(ticker) == |ticker| && 1 <= |ticker| <= 5
  }

  /** The regular expression accepts exactly the strings of 1 to 5 characters, each in 'A'..'Z'. */
  lemma IsValidTickerIff(ticker: string)
    ensures IsValidTicker(ticker) <==>
      1 <= |ticker| <= 5 && forall i :: 0 <= i < |ticker| ==> IsUpperLetter(ticker[i])
  {
  }

  /**
   * The characters that `toUpperCase` turns into capitals 'A'..'Z' and nothing else: the ASCII
   * letters, the dotless i and the long s, the sharp s, and the Latin ligatures U+FB00..U+FB06.
   */
  predicate FoldsToCapitals(c: char) {
    'A' <= c <= 'Z' || 'a' <= c <= 'z' || c == '\U{0131}' || c == '\U{017F}' || c == '\U{00DF}' ||
    '\U{FB00}' <= c <= '\U{FB06}'
  }

  /**
   * `String.prototype.toUpperCase` on one character, by the Unicode case mappings, for the
   * characters that fold into 'A'..'Z'; every other character is kept as it is.
   */
  function UpperChar(c: char): (u: string)
    ensures 1 <= |u| <= 3
    ensures 'a' <= c <= 'z' ==> u == [(c as int - 32) as char]
    ensures (forall i :: 0 <= i < |u| ==> IsUpperLetter(u[i])) <==> FoldsToCapitals(c)
    ensures !FoldsToCapitals(c) ==> u == [c]
  {
    if 'a' <= c <= 'z' then [(c as int - 32) as char]
    else if c == '\U{0131}' then "I"
    else if c == '\U{017F}' then "S"
    else if c == '\U{00DF}' then "SS"
    else if c == '\U{FB00}' then "FF"
    else if c == '\U{FB01}' then "FI"
    else if c == '\U{FB02}' then "FL"
    else if c == '\U{FB03}' then "FFI"
    else if c == '\U{FB04}' then "FFL"
    else if c == '\U{FB05}' || c == '\U{FB06}' then "ST"
    else assert [c][0] == c; [c]
  }

  /** `s.toUpperCase()`: each character converted on its own, some of them into two or three. */
  function ToUpper(s: string): (u: string)
    ensures |s| <= |u| <= 3 * |s|
    ensures (forall i :: 0 <= i < |u| ==> IsUpperLetter(u[i])) <==>
      (forall i :: 0 <= i < |s| ==> FoldsToCapitals(s[i]))
  {
    if |s| == 0 then []
    else
      var head, tail := UpperChar(s[0]), ToUpper(s[1..]);
      assert forall i :: 1 <= i < |s| ==> s[i] == s[1..][i - 1];
      var u := head + tail;
      assert forall i :: 0 <= i < |head| ==> u[i] == head[i];
      assert forall i :: 0 <= i < |tail| ==> u[|head| + i] == tail[i];
      assert (forall i :: 0 <= i < |u| ==> IsUpperLetter(u[i])) <==>
        (forall i :: 0 <= i < |head| ==> IsUpperLetter(head[i])) && (forall i :: 0 <= i < |tail| ==> IsUpperLetter(tail[i]));
      u
  }

  /** Conversion works character by character, so it distributes over concatenation. */
  lemma {:induction false} ToUpperAppend(a: string, b: string)
    ensures ToUpper(a + b) == ToUpper(a) + ToUpper(b)
  {
    if |a| == 0 {
      assert a + b == b;
    } else {
      assert (a + b)[1..] == a[1..] + b;
      ToUpperAppend(a[1..], b);
    }
  }

  /** On ASCII text the length is kept and each character is converted in its place. */
  lemma {:induction false} ToUpperAscii(s: string)
    requires forall i :: 0 <= i < |s| ==> s[i] < '\U{0080}'
    ensures |ToUpper(s)| == |s|
    ensures forall i :: 0 <= i < |s| ==> ToUpper(s)[i] == UpperChar(s[i])[0]
  {
    if |s| > 0 {
      assert forall i :: 0 <= i < |s[1..]| ==> s[1..][i] == s[i + 1];
      ToUpperAscii(s[1..]);
    }
  }

  /** A character is left alone by a second conversion. */
  lemma UpperCharIdempotent(c: char)
    ensures ToUpper(UpperChar(c)) == UpperChar(c)
  {
    var u := UpperChar(c);
    if FoldsToCapitals(c) {
      UpperOnlyFixed(u);
    } else {
      assert u == [c];
      assert u[1..] == [];
    }
  }

  /** Capitals are left as they are. */
  lemma {:induction false} UpperOnlyFixed(u: string)
    requires forall i :: 0 <= i < |u| ==> IsUpperLetter(u[i])
    ensures ToUpper(u) == u
  {
    if |u| > 0 {
      assert forall i :: 0 <= i < |u[1..]| ==> u[1..][i] == u[i + 1];
      UpperOnlyFixed(u[1..]);
      assert UpperChar(u[0]) == [u[0]];
    }
  }

  /** Upper-casing twice changes nothing more. */
  lemma {:induction false} ToUpperIdempotent(s: string)
    ensures ToUpper(ToUpper(s)) == ToUpper(s)
  {
    if |s| > 0 {
      ToUpperAppend(UpperChar(s[0]), ToUpper(s[1..]));
      UpperCharIdempotent(s[0]);
      ToUpperIdempotent(s[1..]);
    }
  }

  /**
   * What the ticker field holds after typing is a valid ticker exactly when every typed character
   * folds into capitals and there are 1 to 5 capitals in all.
   */
  lemma ToUpperValidIff(s: string)
    ensures IsValidTicker(ToUpper(s)) <==>
      (forall i :: 0 <= i < |s| ==> FoldsToCapitals(s[i])) && 1 <= |ToUpper(s)| <= 5
  {
    IsValidTickerIff(ToUpper(s));
  }

  /** 1 to 5 ASCII letters of either case make a valid ticker. */
  lemma ToUpperMakesLettersValid(s: string)
    requires 1 <= |s| <= 5
    requires forall i :: 0 <= i < |s| ==> IsUpperLetter(s[i]) || 'a' <= s[i] <= 'z'
    ensures IsValidTicker(ToUpper(s))
  {
    ToUpperAscii(s);
    ToUpperValidIff(s);
  }

  /** Typing "ıbm" (with a dotless i) asks for the quote of IBM; typing "ßa" asks for SSA. */
  lemma NonAsciiTickers()
    ensures ToUpper("\U{0131}bm") == "IBM" && FetchKey(ToUpper("\U{0131}bm")) == Some(QuotePath + "IBM")
    ensures ToUpper("\U{00DF}a") == "SSA" && FetchKey(ToUpper("\U{00DF}a")) == Some(QuotePath + "SSA")
  {
    assert ToUpper("bm") == "BM" by {
      assert "bm"[1..] == "m";
      assert "m"[1..] == "";
    }
    assert "\U{0131}bm"[1..] == "bm";
    assert ToUpper("a") == "A" by {
      assert "a"[1..] == "";
    }
    assert "\U{00DF}a"[1..] == "a";
    IsValidTickerIff("IBM");
    IsValidTickerIff("SSA");
  }

  /** The fields of a quote answer that the components read ("01. symbol", "05. price", "07. latest trading day"). */
  datatype StockData = StockData(symbol: Option<string>, price: Option<string>, tradingDay: Option<string>)

  const QuotePath := "/api/stock?ticker="

  /** The SWR key: no request (`null`) unless the ticker is valid, else the quote URL. */
  function FetchKey(ticker: string): (key: Option<string>)
    ensures key.Some? <==> IsValidTicker(ticker)
    ensures key.Some? ==>
      |key.value| == |QuotePath| + |ticker| && key.value[..|QuotePath|] == QuotePath && key.value[|QuotePath|..] == ticker
  {
    if IsValidTicker(ticker) then Some(QuotePath + ticker) else None
  }

  /** Different tickers never share a cache entry. */
  lemma FetchKeyInjective(a: string, b: string)
    requires FetchKey(a).Some? && FetchKey(a) == FetchKey(b)
    ensures a == b
  {
    assert a == FetchKey(a).value[|QuotePath|..];
  }
}
