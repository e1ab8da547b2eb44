/**
 * The intent classifier (trading_agent/intent_parser.py): keyword categories,
 * ticker extraction, amount extraction and the fixed-priority choice of one
 * intent kind with a capped confidence. No state survives between calls.
 */
module IntentParser {
  import opened Wrappers
  import opened Text
  import opened Patterns

  datatype IntentType = BatchBuy | SingleBuy | Rebalance | Sell | BalanceCheck | Unknown

  /** The record `parse` fills in; a fresh one per inbound message. */
  datatype ParsedIntent = ParsedIntent(
    intent: IntentType,
    symbols: seq<string>,
    targetAmount: real,
    rebalance: bool,
    sellAll: bool,
    rawText: string,
    confidence: real)

  // ---------------------------------------------------------------------
  // Keyword categories, searched in the lower-cased text

  const BuyKeywords: seq<Pattern> := [
    Lit("куп") + [OneOf("ий")], Lit("купить"), Lit("докуп") + [OneOf("ий")], Lit("докупить"),
    Lit("buy"), Lit("приобрести"), Lit("взять"), Lit("добавь"), Lit("добавить"),
    Lit("возьми"), Lit("бери"), Lit("набери"), Lit("закупи")]

  const SellKeywords: seq<Pattern> := [
    Lit("прода") + [OneOf("йм")], Lit("продать"), Lit("sell"), Lit("слей"), Lit("слить"),
    Lit("избавься"), Lit("скинь"), Lit("выведи"), Lit("ликвидируй")]

  const RebalanceKeywords: seq<Pattern> := [
    Lit("учитыва") + [OneOf("яй")], Lit("уже куплен"), Lit("докуп") + [OneOf("ий"), AnyRun] + Lit("до"),
    Lit("доведи") + [AnyRun] + Lit("до"), Lit("ребаланс"), Lit("rebalance"),
    Lit("чтобы") + [AnyRun] + Lit("было") + [AnyRun] + Lit("по"),
    Lit("до") + [AnyRun] + Lit("каждой"), Lit("каждую") + [AnyRun] + Lit("до")]

  const BalanceKeywords: seq<Pattern> := [
    Lit("скольк") + [OneOf("ои")], Lit("баланс"), Lit("balance"), Lit("позици") + [OneOf("яи")],
    Lit("что у меня"), Lit("мои монеты"), Lit("портфель")]

  /** Words that are never reported as tickers. */
  const StopWords: set<string> := {
    "USDT", "USD", "КУПИТЬ", "ПРОДАТЬ", "ДОЛЛАРОВ", "КАЖДУЮ",
    "МОНЕТ", "МНЕ", "НУЖНО", "ХОЧУ", "НАДО", "ВСЕ", "ВСЁ",
    "ПО", "НА", "ДО", "ЗА", "ОТ", "ИЗ", "ДЛЯ", "БЕЗ",
    "СЕЙЧАС", "СРОЧНО", "БЫСТРО", "ТИХО", "МОЖЕШЬ", "ПОЖАЛУЙСТА"}

  // ---------------------------------------------------------------------
  // Tickers: re.findall(r'\b([A-Z]{2,10})(?:_USDT)?\b', text.upper())

  /** Length of the run of letters A-Z that starts at i. */
  function UpperRun(t: string, i: nat): (n: nat)
    requires i <= |t|
    ensures i + n <= |t|
    ensures forall k :: i <= k < i + n ==> IsAsciiUpper(t[k])
    ensures i + n < |t| ==> !IsAsciiUpper(t[i + n])
    decreases |t| - i
  {
    if i < |t| && IsAsciiUpper(t[i]) then 1 + UpperRun(t, i + 1) else 0
  }

  /** Regex `\b` at position i. */
  predicate WordBoundary(t: string, i: nat)
    requires i <= |t|
  {
    (i > 0 && IsWordChar(t[i - 1])) != (i < |t| && IsWordChar(t[i]))
  }

  /**
   * Group 1 of a match of the ticker pattern that starts at i, if one does.
   * `[A-Z]{2,10}` is greedy and every letter is a word character, so the
   * only way to match is to take the whole run of letters (2 to 10 of them),
   * then either `_USDT` followed by a boundary, or a boundary right away.
   */
  function TickerAt(t: string, i: nat): Option<string>
    requires i <= |t|
  {
    var n := UpperRun(t, i);
    var e := i + n;
    if 2 <= n <= 10 && WordBoundary(t, i)
       && (("_USDT" <= t[e..] && WordBoundary(t, e + 5)) || WordBoundary(t, e))
    then Some(t[i..e])
    else None
  }

  /**
   * `re.findall` from position i. Every character of a match is a word
   * character, so no match can start inside another one and the matches are
   * exactly the positions at which `TickerAt` succeeds.
   */
  function TickersFrom(t: string, i: nat): seq<string>
    requires i <= |t|
    decreases |t| - i
  {
    if i == |t| then []
    else (match TickerAt(t, i) case Some(s) => [s] case None => []) + TickersFrom(t, i + 1)
  }

  /** A ticker as the pattern captures it: 2 to 10 letters A-Z. */
  predicate IsTicker(s: string) {
    2 <= |s| <= 10 && forall k :: 0 <= k < |s| ==> IsAsciiUpper(s[k])
  }

  lemma {:induction false} TickersFromShape(t: string, i: nat)
    requires i <= |t|
    ensures forall s :: s in TickersFrom(t, i) ==> IsTicker(s) && Contains(t, s)
    decreases |t| - i
  {
    if i < |t| {
      TickersFromShape(t, i + 1);
      match TickerAt(t, i)
      case Some(s) =>
        ContainsAt(t, s, i);
      case None =>
    }
  }

  /** The run of letters from i ends at e. */
  lemma {:induction false} UpperRunTo(t: string, i: nat, e: nat)
    requires i <= e <= |t|
    requires forall k :: i <= k < e ==> IsAsciiUpper(t[k])
    requires e < |t| ==> !IsAsciiUpper(t[e])
    ensures UpperRun(t, i) == e - i
    decreases e - i
  {
    if i < e {
      UpperRunTo(t, i + 1, e);
    }
  }

  /** No ticker starts inside a run of letters. */
  lemma {:induction false} InsideWord(t: string, j: nat, e: nat)
    requires 0 < j <= e <= |t|
    requires forall k :: j - 1 <= k < e ==> IsAsciiUpper(t[k])
    ensures TickersFrom(t, j) == TickersFrom(t, e)
    decreases e - j
  {
    if j < e {
      assert IsWordChar(t[j - 1]) && IsWordChar(t[j]);
      assert TickerAt(t, j) == None;
      InsideWord(t, j + 1, e);
    }
  }

  lemma WordTickerAt(t: string, i: nat, e: nat)
    requires i < e <= |t| && 2 <= e - i <= 10
    requires forall k :: i <= k < e ==> IsAsciiUpper(t[k])
    requires i == 0 || t[i - 1] == ' '
    requires e == |t| || t[e] == ' '
    ensures TickerAt(t, i) == Some(t[i..e])
  {
    UpperRunTo(t, i, e);
    assert IsWordChar(t[i]) && IsWordChar(t[e - 1]);
    assert WordBoundary(t, i) && WordBoundary(t, e);
  }

  /** A word of 2 to 10 capitals between spaces (or the ends of the text) is captured whole, once. */
  lemma WordTicker(t: string, i: nat, e: nat)
    requires i < e <= |t| && 2 <= e - i <= 10
    requires forall k :: i <= k < e ==> IsAsciiUpper(t[k])
    requires i == 0 || t[i - 1] == ' '
    requires e == |t| || t[e] == ' '
    ensures TickersFrom(t, i) == [t[i..e]] + TickersFrom(t, if e == |t| then e else e + 1)
  {
    WordTickerAt(t, i, e);
    InsideWord(t, i + 1, e);
    if e < |t| {
      assert UpperRun(t, e) == 0;
      assert TickerAt(t, e) == None;
    }
  }

  /**
   * Stop-word filtering and de-duplication as the loop of `_extract_symbols`
   * performs them, stated on the prefix the loop has seen.
   */
  function KeepNew(ms: seq<string>): seq<string>
    decreases |ms|
  {
    if ms == [] then []
    else
      var r := KeepNew(ms[..|ms| - 1]);
      var x := ms[|ms| - 1];
      if x in StopWords || x in r then r else r + [x]
  }

  /** The symbols `_extract_symbols(text)` returns. */
  function Symbols(text: string): seq<string> {
    KeepNew(TickersFrom(Upper(text), 0))
  }

  /** Position of the first occurrence of x in ms. */
  function FirstIndex(ms: seq<string>, x: string): (k: nat)
    requires x in ms
    ensures k < |ms| && ms[k] == x && x !in ms[..k]
  {
    if ms[0] == x then 0 else 1 + FirstIndex(ms[1..], x)
  }

  lemma FirstIndexOfPrefix(ms: seq<string>, x: string, n: nat)
    requires n <= |ms| && x in ms[..n]
    ensures FirstIndex(ms[..n], x) == FirstIndex(ms, x)
  {
    var k := FirstIndex(ms[..n], x);
    var k' := FirstIndex(ms, x);
    assert ms[..n][..k] == ms[..k];
  }

  /**
   * What the filter promises: no stop word, no duplicate, exactly the
   * non-stop-words of the input, in the order of their first occurrence.
   */
  lemma {:induction false} KeepNewSpec(ms: seq<string>)
    ensures forall x :: x in KeepNew(ms) <==> x in ms && x !in StopWords
    ensures forall i, j :: 0 <= i < j < |KeepNew(ms)| ==> KeepNew(ms)[i] != KeepNew(ms)[j]
    ensures forall i, j :: 0 <= i < j < |KeepNew(ms)| ==>
      FirstIndex(ms, KeepNew(ms)[i]) < FirstIndex(ms, KeepNew(ms)[j])
    decreases |ms|
  {
    if ms != [] {
      var front := ms[..|ms| - 1];
      var x := ms[|ms| - 1];
      KeepNewSpec(front);
      var r := KeepNew(front);
      assert ms == front + [x];
      forall y | y in r
        ensures FirstIndex(ms, y) == FirstIndex(front, y)
      {
        FirstIndexOfPrefix(ms, y, |ms| - 1);
      }
      if !(x in StopWords || x in r) {
        assert x !in front;
        assert FirstIndex(ms, x) == |ms| - 1;
        forall i | 0 <= i < |r|
          ensures FirstIndex(ms, r[i]) < |ms| - 1
        {
          assert r[i] in r;
        }
      }
    }
  }

  /**
   * `_extract_symbols`: scan the matches, skipping stop words and symbols
   * already seen, appending the rest.
   */
  method ExtractSymbols(text: string) returns (result: seq<string>)
    ensures result == Symbols(text)
    ensures forall s :: s in result ==> IsTicker(s) && Contains(Upper(text), s) && s !in StopWords
    ensures forall i, j :: 0 <= i < j < |result| ==> result[i] != result[j]
  {
    var matches := TickersFrom(Upper(text), 0);
    var seen: set<string> := {};
    result := [];
    for k := 0 to |matches|
      invariant result == KeepNew(matches[..k])
      invariant seen == set s | s in result
    {
      var symbol := matches[k];
      assert matches[..k + 1] == matches[..k] + [symbol];
      if symbol !in StopWords && symbol !in seen {
        seen := seen + {symbol};
        result := result + [symbol];
      }
    }
    assert matches[..|matches|] == matches;
    KeepNewSpec(matches);
    TickersFromShape(Upper(text), 0);
  }

  /** The Cyrillic stop words can never be matched: only USDT and USD are ever filtered. */
  lemma OnlyLatinStopWordsApply(text: string)
    ensures forall s :: s in TickersFrom(Upper(text), 0) && s in StopWords ==> s == "USDT" || s == "USD"
  {
    TickersFromShape(Upper(text), 0);
    forall s | s in TickersFrom(Upper(text), 0) && s in StopWords
      ensures s == "USDT" || s == "USD"
    {
      LatinStopWord(s);
    }
  }

  /** Of the stop words only "USDT" and "USD" are written in letters A-Z. */
  lemma LatinStopWord(s: string)
    requires s in StopWords
    ensures IsTicker(s) ==> s == "USDT" || s == "USD"
  {
    if s != "USDT" && s != "USD" {
      assert !IsAsciiUpper(s[0]);
    }
  }

  // ---------------------------------------------------------------------
  // Amounts: the first of AMOUNT_PATTERNS whose leftmost match yields a number

  /** Length of the run of ASCII digits that starts at i. */
  function DigitRun(t: string, i: nat): (n: nat)
    requires i <= |t|
    ensures i + n <= |t|
    ensures forall k :: i <= k < i + n ==> IsDigit(t[k])
    ensures i + n < |t| ==> !IsDigit(t[i + n])
    decreases |t| - i
  {
    if i < |t| && IsDigit(t[i]) then 1 + DigitRun(t, i + 1) else 0
  }

  /** Length of the run of whitespace that starts at i. */
  function SpacesRun(t: string, i: nat): (n: nat)
    requires i <= |t|
    ensures i + n <= |t|
    ensures i + n < |t| ==> !IsSpace(t[i + n])
    decreases |t| - i
  {
    if i < |t| && IsSpace(t[i]) then 1 + SpacesRun(t, i + 1) else 0
  }

  /**
   * End of `\d+(?:[.,]\d+)?` matched greedily from the digit at i: the whole
   * run of digits, then a separator and a second run when a digit follows it.
   */
  function NumberEnd(t: string, i: nat, seps: string): (e: nat)
    requires i < |t| && IsDigit(t[i])
    ensures i < e <= |t|
  {
    var e1 := i + DigitRun(t, i);
    if e1 + 1 < |t| && t[e1] in seps && IsDigit(t[e1 + 1]) then e1 + 1 + DigitRun(t, e1 + 1) else e1
  }

  /** A number (the captured group) preceded by at least `minSpaces` whitespace characters from j. */
  function NumberAfterSpaces(t: string, j: nat, minSpaces: nat): Option<string>
    requires j <= |t|
  {
    var s := SpacesRun(t, j);
    if s >= minSpaces && j + s < |t| && IsDigit(t[j + s])
    then Some(t[j + s..NumberEnd(t, j + s, ".,")])
    else None
  }

  predicate StartsWithAny(s: string, words: seq<string>) {
    exists w :: w in words && w <= s
  }

  /**
   * Group 1 of AMOUNT_PATTERNS[k] for a match starting at i:
   *   0: \$\s*(N)    1: (N)\s*(?:долл|usdt|usd|\$)    2: (N)\s*(?:бакс|баксов)
   *   3: по\s+(N)    4: на\s+(N)\s*(?:долл|usdt|usd|\$)?
   * where N is \d+(?:[.,]\d+)?. After N, patterns 1 and 2 need a word that
   * starts with neither a digit, a space nor a separator, so backtracking
   * into N or into \s* cannot help: the greedy reading is the only one.
   */
  function AmountCaptureAt(k: nat, t: string, i: nat): Option<string>
    requires i <= |t|
  {
    if k == 0 then
      if i < |t| && t[i] == '$' then NumberAfterSpaces(t, i + 1, 0) else None
    else if k == 1 || k == 2 then
      if i < |t| && IsDigit(t[i]) then
        var e := NumberEnd(t, i, ".,");
        var j := e + SpacesRun(t, e);
        var words := if k == 1 then ["долл", "usdt", "usd", "$"] else ["бакс", "баксов"];
        if StartsWithAny(t[j..], words) then Some(t[i..e]) else None
      else None
    else
      var w := if k == 3 then "по" else "на";
      if w <= t[i..] then NumberAfterSpaces(t, i + 2, 1) else None
  }

  /** Group 1 of the leftmost match of AMOUNT_PATTERNS[k] at or after i (`re.search`). */
  function LeftmostCapture(k: nat, t: string, i: nat): Option<string>
    requires i <= |t|
    decreases |t| - i
  {
    match AmountCaptureAt(k, t, i)
    case Some(g) => Some(g)
    case None => if i < |t| then LeftmostCapture(k, t, i + 1) else None
  }

  predicate AllDigits(s: string) {
    forall k :: 0 <= k < |s| ==> IsDigit(s[k])
  }

  function DigitsValue(s: string): nat
    requires AllDigits(s)
  {
    if s == [] then 0 else DigitsValue(s[..|s| - 1]) * 10 + (s[|s| - 1] as int - '0' as int)
  }

  function Pow10(n: nat): (p: nat)
    ensures p >= 1
  {
    if n == 0 then 1 else 10 * Pow10(n - 1)
  }

  /** Position of the first '.' in s, or |s| when there is none. */
  function DotIndex(s: string): (k: nat)
    ensures k <= |s| && '.' !in s[..k] && (k < |s| ==> s[k] == '.')
  {
    if s == [] then 0 else if s[0] == '.' then 0 else 1 + DotIndex(s[1..])
  }

  /**
   * `float(s)` for the strings an amount capture can produce: digits, or
   * digits, a dot and digits. None stands for the ValueError branch.
   */
  function DecimalValue(s: string): Option<real> {
    var k := DotIndex(s);
    if k == |s| then
      if |s| > 0 && AllDigits(s) then Some(DigitsValue(s) as real) else None
    else
      var whole := s[..k];
      var frac := s[k + 1..];
      if |whole| > 0 && |frac| > 0 && AllDigits(whole) && AllDigits(frac)
      then Some(DigitsValue(whole) as real + DigitsValue(frac) as real / Pow10(|frac|) as real)
      else None
  }

  function AmountFrom(t: string, k: nat): (r: real)
    decreases 5 - k
  {
    if k >= 5 then 0.0
    else match LeftmostCapture(k, t, 0)
      case Some(g) =>
        (match DecimalValue(ReplaceAll(g, ",", "."))
         case Some(v) => v
         case None => AmountFrom(t, k + 1))
      case None => AmountFrom(t, k + 1)
  }

  /** `_extract_amount` on the lower-cased text. */
  function ExtractAmount(t: string): real {
    AmountFrom(t, 0)
  }

  /** `float` of digits, or of digits, a dot and digits, is never negative. */
  lemma DecimalNonNegative(s: string)
    ensures DecimalValue(s).Some? ==> DecimalValue(s).value >= 0.0
  {
    var k := DotIndex(s);
    if k < |s| && DecimalValue(s).Some? {
      var n := DigitsValue(s[k + 1..]) as real;
      var p := Pow10(|s[k + 1..]|) as real;
      assert n >= 0.0 && p > 0.0;
      assert n / p >= 0.0;
    }
  }

  lemma {:induction false} AmountFromNonNegative(t: string, k: nat)
    ensures AmountFrom(t, k) >= 0.0
    decreases 5 - k
  {
    if k < 5 {
      AmountFromNonNegative(t, k + 1);
      match LeftmostCapture(k, t, 0)
      case Some(g) => DecimalNonNegative(ReplaceAll(g, ",", "."));
      case None =>
    }
  }

  /** A captured number, once ',' is replaced by '.', is always accepted by `float`. */
  lemma CaptureIsDecimal(k: nat, t: string, i: nat)
    requires i <= |t| && AmountCaptureAt(k, t, i).Some?
    ensures DecimalValue(ReplaceAll(AmountCaptureAt(k, t, i).value, ",", ".")).Some?
  {
    if k == 0 {
      NumberAfterSpacesShape(t, i + 1, 0);
    } else if k == 1 || k == 2 {
      NumberShape(t, i);
    } else {
      NumberAfterSpacesShape(t, i + 2, 1);
    }
  }

  lemma NumberAfterSpacesShape(t: string, j: nat, minSpaces: nat)
    requires j <= |t| && NumberAfterSpaces(t, j, minSpaces).Some?
    ensures DecimalValue(ReplaceAll(NumberAfterSpaces(t, j, minSpaces).value, ",", ".")).Some?
  {
    NumberShape(t, j + SpacesRun(t, j));
  }

  lemma NumberShape(t: string, j: nat)
    requires j < |t| && IsDigit(t[j])
    ensures DecimalValue(ReplaceAll(t[j..NumberEnd(t, j, ".,")], ",", ".")).Some?
  {
    var e1 := j + DigitRun(t, j);
    var d1 := t[j..e1];
    DigitsSlice(t, j, e1);
    NoCommaUnchanged(d1);
    if e1 + 1 < |t| && t[e1] in ".," && IsDigit(t[e1 + 1]) {
      var e2 := e1 + 1 + DigitRun(t, e1 + 1);
      assert NumberEnd(t, j, ".,") == e2;
      var d2 := t[e1 + 1..e2];
      DigitsSlice(t, e1 + 1, e2);
      assert t[j..e2] == d1 + [t[e1]] + d2;
      ReplaceAcross(d1, [t[e1]], d2);
      var r := d1 + ['.'] + d2;
      assert DotIndex(r) == |d1| by { DotAfterDigits(d1, d2); }
      assert r[..|d1|] == d1 && r[|d1| + 1..] == d2;
    } else {
      assert NumberEnd(t, j, ".,") == e1;
      DotIndexOfDigits(d1);
    }
  }

  /** A slice inside a run of digits holds only digits. */
  lemma DigitsSlice(t: string, i: nat, e: nat)
    requires i <= e <= |t| && forall k :: i <= k < e ==> IsDigit(t[k])
    ensures AllDigits(t[i..e])
  {
    assert forall k :: 0 <= k < e - i ==> t[i..e][k] == t[i + k];
  }

  lemma {:induction false} NoCommaUnchanged(d: string)
    requires AllDigits(d)
    ensures ReplaceAll(d, ",", ".") == d
    decreases |d|
  {
    if |d| > 0 {
      assert !("," <= d) by { assert d[0] != ','; }
      NoCommaUnchanged(d[1..]);
    }
  }

  lemma {:induction false} ReplaceAcross(d1: string, sep: string, d2: string)
    requires AllDigits(d1) && AllDigits(d2) && |sep| == 1 && sep[0] in ".,"
    ensures ReplaceAll(d1 + sep + d2, ",", ".") == d1 + "." + d2
    decreases |d1|
  {
    if |d1| > 0 {
      assert (d1 + sep + d2)[1..] == d1[1..] + sep + d2;
      assert !("," <= d1 + sep + d2) by { assert (d1 + sep + d2)[0] != ','; }
      ReplaceAcross(d1[1..], sep, d2);
    } else {
      assert (sep + d2)[1..] == d2;
      NoCommaUnchanged(d2);
    }
  }

  lemma {:induction false} DotAfterDigits(d1: string, rest: string)
    requires AllDigits(d1)
    ensures DotIndex(d1 + ['.'] + rest) == |d1|
    decreases |d1|
  {
    if |d1| > 0 {
      assert (d1 + ['.'] + rest)[1..] == d1[1..] + ['.'] + rest;
      DotAfterDigits(d1[1..], rest);
    }
  }

  lemma {:induction false} DotIndexOfDigits(d: string)
    requires AllDigits(d)
    ensures DotIndex(d) == |d|
    decreases |d|
  {
    if |d| > 0 {
      DotIndexOfDigits(d[1..]);
    }
  }

  // ---------------------------------------------------------------------
  // Classification

  /** The text the keyword detectors and the amount extractor see: stripped, lower-cased. */
  function Normalized(text: string): string {
    Lower(Strip(text))
  }

  predicate IsBuy(text: string) { MatchesAny(BuyKeywords, Normalized(text)) }
  predicate IsSell(text: string) { MatchesAny(SellKeywords, Normalized(text)) }
  predicate IsRebalance(text: string) { MatchesAny(RebalanceKeywords, Normalized(text)) }
  predicate IsBalance(text: string) { MatchesAny(BalanceKeywords, Normalized(text)) }

  /** `'все' in lower or 'всё' in lower` */
  predicate SaysAll(lower: string) {
    Contains(lower, "все") || Contains(lower, "всё")
  }

  function Min(a: real, b: real): real {
    if a <= b then a else b
  }

  /**
   * The kind `parse` settles on: a balance keyword first, then a sell
   * keyword, then a buy or rebalance keyword, which makes a batch, a single
   * buy or nothing by the number of symbols; anything else is unknown.
   */
  function KindOf(text: string): IntentType {
    if IsBalance(text) then BalanceCheck
    else if IsSell(text) then Sell
    else if IsBuy(text) || IsRebalance(text) then
      (if |Symbols(Strip(text))| >= 2 then BatchBuy
       else if |Symbols(Strip(text))| == 1 then SingleBuy
       else Unknown)
    else Unknown
  }

  /**
   * `parse`: detect the four keyword categories, extract symbols and amount,
   * then pick one kind by fixed priority and raise the confidence for the
   * rebalance marker and for having both symbols and an amount.
   */
  method Parse(text: string) returns (result: ParsedIntent)
    ensures result.rawText == text
    ensures result.symbols == Symbols(Strip(text))
    ensures result.targetAmount == ExtractAmount(Normalized(text)) && result.targetAmount >= 0.0
    ensures IsBalance(text) ==> result.intent == BalanceCheck
    ensures !IsBalance(text) && IsSell(text) ==> result.intent == Sell
    ensures !IsBalance(text) && !IsSell(text) && (IsBuy(text) || IsRebalance(text)) ==>
      result.intent == (if |result.symbols| >= 2 then BatchBuy
                        else if |result.symbols| == 1 then SingleBuy
                        else Unknown)
    ensures !IsBalance(text) && !IsSell(text) && !IsBuy(text) && !IsRebalance(text) ==>
      result.intent == Unknown
    ensures result.intent != Rebalance
    ensures result.rebalance <==> IsRebalance(text) && !IsBalance(text) && !IsSell(text)
    ensures result.sellAll <==> result.intent == Sell && SaysAll(Normalized(text))
    ensures result.intent == KindOf(text)
    ensures 0.0 <= result.confidence <= 1.0
    ensures result.intent == Unknown <==> result.confidence <= 0.35
    ensures var base := match result.intent
          case BalanceCheck => 0.8
          case Sell => 0.85
          case BatchBuy => 0.9
          case SingleBuy => 0.85
          case _ => if IsBuy(text) || IsRebalance(text) then 0.3 else 0.0;
        var marked := if result.rebalance then Min(base + 0.05, 1.0) else base;
        result.confidence == (if |result.symbols| > 0 && result.targetAmount > 0.0 then Min(marked + 0.1, 1.0) else marked)
  {
    var normalized := Strip(text);
    var lower := Lower(normalized);
    result := ParsedIntent(Unknown, [], 0.0, false, false, text, 0.0);

    var isBuy := MatchesAny(BuyKeywords, lower);
    var isSell := MatchesAny(SellKeywords, lower);
    var isRebalance := MatchesAny(RebalanceKeywords, lower);
    var isBalance := MatchesAny(BalanceKeywords, lower);

    var symbols := ExtractSymbols(normalized);
    result := result.(symbols := symbols);

    var amount := ExtractAmount(lower);
    AmountFromNonNegative(lower, 0);
    result := result.(targetAmount := amount);

    if isBalance {
      result := result.(intent := BalanceCheck, confidence := 0.8);
    } else if isSell {
      result := result.(intent := Sell, sellAll := SaysAll(lower), confidence := 0.85);
    } else if isBuy || isRebalance {
      if |symbols| >= 2 {
        result := result.(intent := BatchBuy, confidence := 0.9);
      } else if |symbols| == 1 {
        result := result.(intent := SingleBuy, confidence := 0.85);
      } else {
        result := result.(intent := Unknown, confidence := 0.3);
      }
      result := result.(rebalance := isRebalance);
      if isRebalance {
        result := result.(confidence := Min(result.confidence + 0.05, 1.0));
      }
    }

    if |symbols| > 0 && amount > 0.0 {
      result := result.(confidence := Min(result.confidence + 0.1, 1.0));
    }
  }

  /**
   * `is_trading_command`: a buy or sell keyword, or at least one symbol
   * together with a positive amount. Works on the unstripped text.
   */
  method IsTradingCommand(text: string) returns (r: bool)
    ensures r <==> MatchesAny(BuyKeywords, Lower(text)) || MatchesAny(SellKeywords, Lower(text))
                   || (|Symbols(text)| >= 1 && ExtractAmount(Lower(text)) > 0.0)
  {
    var lower := Lower(text);
    if MatchesAny(BuyKeywords, lower) {
      return true;
    }
    if MatchesAny(SellKeywords, lower) {
      return true;
    }
    var symbols := ExtractSymbols(text);
    var amount := ExtractAmount(lower);
    if |symbols| >= 1 && amount > 0.0 {
      return true;
    }
    return false;
  }

  /**
   * Both rebalance words contain a balance word ("rebalance" contains
   * "balance", "ребаланс" contains "баланс"), so a text that uses them is
   * always classified BALANCE_CHECK: the balance branch has priority.
   */
  lemma RebalanceWordsAreBalanceChecks(lower: string)
    requires Contains(lower, "rebalance") || Contains(lower, "ребаланс")
    ensures MatchesAny(BalanceKeywords, lower)
  {
    if Contains(lower, "rebalance") {
      assert "rebalance" == "re" + "balance";
      ContainsTail(lower, "re", "balance");
      ContainsFindsLit("balance", lower);
      assert Search(BalanceKeywords[2], lower);
    } else {
      assert "ребаланс" == "ре" + "баланс";
      ContainsTail(lower, "ре", "баланс");
      ContainsFindsLit("баланс", lower);
      assert Search(BalanceKeywords[1], lower);
    }
  }

  // ---------------------------------------------------------------------
  // A worked example: "sell all XRP"

  lemma SellAllXrpCase()
    ensures Strip("sell all XRP") == "sell all XRP"
    ensures Upper("sell all XRP") == "SELL ALL XRP"
    ensures Normalized("sell all XRP") == "sell all xrp"
  {
    var t := "sell all XRP";
    assert TrimStart(t) == t;
    assert TrimEnd(t) == t;
    var u := "SELL ALL XRP";
    forall i | 0 <= i < |t| ensures Upper(t)[i] == u[i] { }
    var l := "sell all xrp";
    forall i | 0 <= i < |t| ensures Lower(t)[i] == l[i] { }
  }

  lemma SellAllXrpTickers()
    ensures TickersFrom("SELL ALL XRP", 0) == ["SELL", "ALL", "XRP"]
  {
    ThreeWordTickers("SELL ALL XRP");
  }

  lemma ThreeWordTickers(t: string)
    requires t == "SELL ALL XRP"
    ensures TickersFrom(t, 0) == ["SELL", "ALL", "XRP"]
  {
    assert t[0..4] == "SELL";
    assert t[5..8] == "ALL" by { assert t[5] == 'A' && t[6] == 'L' && t[7] == 'L'; }
    assert t[9..12] == "XRP" by { assert t[9] == 'X' && t[10] == 'R' && t[11] == 'P'; }
    assert t[4] == ' ' && t[8] == ' ';
    assert forall k :: 0 <= k < 4 ==> IsAsciiUpper(t[k]);
    assert forall k :: 5 <= k < 8 ==> IsAsciiUpper(t[k]);
    assert forall k :: 9 <= k < 12 ==> IsAsciiUpper(t[k]);
    WordTicker(t, 0, 4);
    WordTicker(t, 5, 8);
    WordTicker(t, 9, 12);
  }

  lemma SellAllXrpKept()
    ensures KeepNew(["SELL", "ALL", "XRP"]) == ["SELL", "ALL", "XRP"]
  {
    assert "SELL" !in StopWords && "ALL" !in StopWords && "XRP" !in StopWords;
    var ms := ["SELL", "ALL", "XRP"];
    assert ms[..0] == [];
    assert KeepNew(ms[..1]) == ["SELL"];
    assert KeepNew(ms[..2]) == ["SELL", "ALL"];
    assert ms[..3] == ms;
  }

  lemma SellAllXrpIsSell()
    ensures MatchesAny(SellKeywords, "sell all xrp")
  {
    var l := "sell all xrp";
    assert l[0..4] == "sell";
    ContainsAt(l, "sell", 0);
    ContainsFindsLit("sell", l);
    assert Search(SellKeywords[2], l);
  }

  /** A text of Latin letters and spaces other than 'b' has no balance keyword. */
  lemma NoBalanceWordIn(l: string)
    requires forall j :: 0 <= j < |l| ==> (IsAsciiLower(l[j]) && l[j] != 'b') || l[j] == ' '
    ensures !MatchesAny(BalanceKeywords, l)
  {
    forall k | 0 <= k < |BalanceKeywords| ensures !Search(BalanceKeywords[k], l) {
      AbsentFirstChar(BalanceKeywords[k], l);
    }
  }

  lemma SellAllXrpNoBalanceWord()
    ensures !MatchesAny(BalanceKeywords, "sell all xrp")
  {
    NoBalanceWordIn("sell all xrp");
  }

  lemma SellAllXrpNoAllWord()
    ensures !SaysAll("sell all xrp")
  {
    var l := "sell all xrp";
    AbsentFirstCharNotContained(l, "все");
    AbsentFirstCharNotContained(l, "всё");
  }

  /**
   * "sell all XRP" is a sell command, but the two English words are
   * reported as tickers too, and `sell_all` stays false: only the Russian
   * "все"/"всё" sets it.
   */
  lemma SellAllXrpExample()
    ensures IsSell("sell all XRP") && !IsBalance("sell all XRP")
    ensures Symbols(Strip("sell all XRP")) == ["SELL", "ALL", "XRP"]
    ensures !SaysAll(Normalized("sell all XRP"))
  {
    SellAllXrpCase();
    SellAllXrpTickers();
    SellAllXrpKept();
    SellAllXrpIsSell();
    SellAllXrpNoBalanceWord();
    SellAllXrpNoAllWord();
  }
}
