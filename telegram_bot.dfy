/**
 * The bot front end's own logic (trading_agent/telegram_bot.py): exact-word
 * quick commands that pre-empt everything else, the bounded chat history,
 * the splitting of long replies into Telegram-sized messages, and the
 * reading of a grid request from free text.
 */
module Bot {
  import opened Wrappers
  import opened Text
  import opened Patterns
  import opened IntentParser
  import ChatHandler

  // ---------------------------------------------------------------------
  // Quick commands

  const StartWords: set<string> := {"старт", "start", "go", "launch"}
  const ConfirmWords: set<string> := {"подтвердить", "confirm", "да", "yes", "ок", "ok", "делай", "do"}
  const CancelWords: set<string> := {"отмена", "cancel", "нет", "no", "стоп", "stop"}

  /** The callbacks a quick command calls: `start_sprint`, `confirm_order`, `cancel_order`. */
  datatype QuickCommand = StartSprint | ConfirmOrder | CancelOrder

  /** The quick command an exact (stripped, lower-cased) message selects: start, then confirm, then cancel. */
  function QuickRoute(normalized: string): (r: Option<QuickCommand>)
    ensures r == Some(StartSprint) <==> normalized in StartWords
    ensures r == Some(ConfirmOrder) <==> normalized !in StartWords && normalized in ConfirmWords
    ensures r == Some(CancelOrder) <==> normalized !in StartWords && normalized !in ConfirmWords && normalized in CancelWords
    ensures r.None? <==> normalized !in StartWords + ConfirmWords + CancelWords
  {
    if normalized in StartWords then Some(StartSprint)
    else if normalized in ConfirmWords then Some(ConfirmOrder)
    else if normalized in CancelWords then Some(CancelOrder)
    else None
  }

  /**
   * Every word the dialog layer would take as an answer to its pending
   * action is a quick command of the bot: "go" starts a sprint, "да", "ok"
   * and the other confirmations confirm an exchange order, and every
   * cancellation cancels one. The bot routes these words before the dialog
   * layer sees them.
   */
  lemma PendingWordsAreQuickCommands(w: string)
    requires w in ChatHandler.Affirmative || w in ChatHandler.Negative
    ensures QuickRoute(w).Some?
    ensures w in ChatHandler.Affirmative ==> QuickRoute(w) != Some(CancelOrder)
    ensures w == "go" ==> QuickRoute(w) == Some(StartSprint)
    ensures w in ChatHandler.Negative ==> QuickRoute(w) == Some(CancelOrder)
  {
  }

  /** Whenever the dialog layer would answer its pending action, the bot has already answered the word itself. */
  lemma PendingAnswerPreempted(p: Option<ChatHandler.Pending>, normalized: string, now: real, ttl: real)
    ensures ChatHandler.PendingReply(p, normalized, now, ttl).Some? ==> QuickRoute(normalized).Some?
  {
    if ChatHandler.PendingReply(p, normalized, now, ttl).Some? {
      PendingWordsAreQuickCommands(normalized);
    }
  }

  // ---------------------------------------------------------------------
  // The chat turn

  /** A history entry: `("user", text)` or `("bot", reply)`. */
  datatype Entry = UserSaid(text: string) | BotSaid(reply: BotReply)

  /** The reply of a turn, named by where it came from. */
  datatype BotReply =
    | Quick(command: QuickCommand)         // the text of the quick command's callback
    | Smart(answer: ChatHandler.Reply)     // the dialog layer's answer
    | Later(text: string)                  // regex fallback, grid helper or language model
    | Accepted(excerpt: string)            // "✅ Принял: <first 50 characters>..."

  /** `history.append(e)` followed by one `pop(0)` when the bound is exceeded. */
  function Pushed<T>(h: seq<T>, e: T, bound: nat): (r: seq<T>)
    ensures |h| <= bound ==> |r| <= bound
    ensures |h| < bound ==> r == h + [e]
    ensures |h| <= |r| <= |h| + 1 && r == (h + [e])[|h| + 1 - |r|..]
    ensures bound > 0 ==> |r| > 0 && r[|r| - 1] == e
  {
    var g := h + [e];
    if |g| > bound then g[1..] else g
  }

  /** The reply when neither a quick command nor the dialog layer answered. */
  function Fallback(text: string, later: Option<string>): BotReply {
    if later.Some? && later.value != "" then Later(later.value)
    else Accepted(if |text| <= 50 then text else text[..50])
  }

  class TelegramBot {
    var history: seq<Entry>
    const maxHistory: nat
    var lastFreeText: string
    /** The dialog layer, absent when it could not be set up. */
    const smartHandler: ChatHandler.SmartChatHandler?

    constructor (smartHandler: ChatHandler.SmartChatHandler?)
      ensures history == [] && maxHistory == 400 && lastFreeText == "" && this.smartHandler == smartHandler
      ensures Valid()
    {
      history := [];
      maxHistory := 400;
      lastFreeText := "";
      this.smartHandler := smartHandler;
    }

    /** The history never holds more than its bound. */
    predicate Valid()
      reads this
    {
      |history| <= maxHistory
    }

    /**
     * One turn of `_chat_handler`: record the message, answer it by quick
     * command, else by the dialog layer, else by the later steps (whose
     * answer is the parameter `later`), else by an acknowledgement; record
     * the reply. A quick command leaves the dialog layer untouched.
     */
    method ChatTurn(text: string, now: real, grid: Option<string>, later: Option<string>)
      returns (reply: BotReply, ghost dialog: Option<ChatHandler.Reply>, ghost parsed: Option<ParsedIntent>)
      requires Valid()
      modifies this, smartHandler, if smartHandler != null then {smartHandler.context} else {}
      ensures Valid()
      ensures lastFreeText == text
      ensures history == Pushed(Pushed(old(history), UserSaid(text), maxHistory), BotSaid(reply), maxHistory)
      ensures QuickRoute(Lower(Strip(text))).Some? ==>
        reply == Quick(QuickRoute(Lower(Strip(text))).value)
        && (smartHandler != null ==> unchanged(smartHandler, smartHandler.context))
      ensures QuickRoute(Lower(Strip(text))).Some? || smartHandler == null ==> dialog == None && parsed == None
      ensures QuickRoute(Lower(Strip(text))).None? ==>
        reply == (if dialog.Some? then Smart(dialog.value) else Fallback(text, later))
      ensures QuickRoute(Lower(Strip(text))).None? && smartHandler != null ==>
        (parsed.None? ==>
           dialog == ChatHandler.PendingReply(old(smartHandler.context.pending), Lower(Strip(text)), now, smartHandler.context.contextTtl))
        && (parsed.Some? ==> parsed.value.intent == KindOf(text) && parsed.value.symbols == Symbols(Strip(text)))
        && (parsed.Some? && parsed.value.intent == Unknown ==>
              dialog == (if grid.Some? && grid.value != "" then Some(ChatHandler.GridAnswer(grid.value)) else None))
    {
      lastFreeText := text;
      history := Pushed(history, UserSaid(text), maxHistory);

      dialog, parsed := None, None;
      var answer: Option<BotReply> := None;
      var route := QuickRoute(Lower(Strip(text)));
      if route.Some? {
        answer := Some(Quick(route.value));
      }

      if answer.None? && smartHandler != null {
        var smart;
        smart, parsed := smartHandler.ProcessMessage(text, now, grid);
        dialog := smart;
        if smart.Some? {
          answer := Some(Smart(smart.value));
        }
      }

      if answer.None? && later.Some? && later.value != "" {
        answer := Some(Later(later.value));
      }
      if answer.None? {
        answer := Some(Accepted(if |text| <= 50 then text else text[..50]));
      }
      reply := answer.value;

      history := Pushed(history, BotSaid(reply), maxHistory);
    }
  }

  // ---------------------------------------------------------------------
  // Splitting long replies

  /** The longest text sent as one Telegram message. */
  const MaxMessageLen: nat := 3900

  /** The parts joined back together. */
  function Concat(parts: seq<string>): string {
    if parts == [] then "" else parts[0] + Concat(parts[1..])
  }

  /** The messages a reply is sent as: whole when it fits, else 3900 characters at a time. */
  function Chunks(text: string): seq<string>
    decreases |text|
  {
    if |text| <= MaxMessageLen then [text]
    else [text[..MaxMessageLen]] + Chunks(text[MaxMessageLen..])
  }

  /** `_send_split_message`: the parts it sends, in order. */
  method SplitMessage(text: string) returns (parts: seq<string>)
    ensures parts == Chunks(text)
  {
    if |text| <= MaxMessageLen {
      return [text];
    }
    parts := [];
    var remaining := text;
    while |remaining| > MaxMessageLen
      invariant parts + Chunks(remaining) == Chunks(text)
      invariant |remaining| > 0
      decreases |remaining|
    {
      var head := remaining[..MaxMessageLen];
      ghost var rest := Chunks(remaining[MaxMessageLen..]);
      assert Chunks(remaining) == [head] + rest;
      assert parts + ([head] + rest) == (parts + [head]) + rest;
      parts := parts + [head];
      remaining := remaining[MaxMessageLen..];
    }
    if |remaining| > 0 {
      parts := parts + [remaining];
    }
  }

  /** Joining the parts gives back the text. */
  lemma {:induction false} ChunksJoin(text: string)
    ensures Concat(Chunks(text)) == text
    decreases |text|
  {
    if |text| > MaxMessageLen {
      ChunksJoin(text[MaxMessageLen..]);
      assert Chunks(text)[1..] == Chunks(text[MaxMessageLen..]);
      assert text[..MaxMessageLen] + text[MaxMessageLen..] == text;
    } else {
      assert Chunks(text)[1..] == [];
    }
  }

  /**
   * Every part fits in one message, every part but the last is full, and
   * a non-empty text gives no empty part.
   */
  lemma {:induction false} ChunksSizes(text: string)
    ensures forall i :: 0 <= i < |Chunks(text)| ==> |Chunks(text)[i]| <= MaxMessageLen
    ensures forall i :: 0 <= i < |Chunks(text)| - 1 ==> |Chunks(text)[i]| == MaxMessageLen
    ensures |text| > 0 ==> forall i :: 0 <= i < |Chunks(text)| ==> |Chunks(text)[i]| > 0
    decreases |text|
  {
    if |text| > MaxMessageLen {
      var rest := text[MaxMessageLen..];
      ChunksSizes(rest);
      assert forall i :: 1 <= i < |Chunks(text)| ==> Chunks(text)[i] == Chunks(rest)[i - 1];
    }
  }

  /** A non-empty text is sent as the least number of messages that can hold it. */
  lemma {:induction false} ChunksCount(text: string)
    requires |text| > 0
    ensures |Chunks(text)| == (|text| + MaxMessageLen - 1) / MaxMessageLen
    decreases |text|
  {
    if |text| > MaxMessageLen {
      var rest := text[MaxMessageLen..];
      ChunksCount(rest);
      assert |text| + MaxMessageLen - 1 == (|rest| + MaxMessageLen - 1) + MaxMessageLen;
    }
  }

  // ---------------------------------------------------------------------
  // Grid requests

  datatype Risk = Low | Medium | High

  /** The request: risk, days, capital, coin count, and the per-coin amount when one is implied. */
  datatype GridCommand = GridCommand(risk: Risk, days: nat, capital: real, count: nat, perCoin: Option<real>)

  /** `a.*b` */
  function Spanning(a: string, b: string): Pattern {
    Lit(a) + [AnyRun] + Lit(b)
  }

  /** The patterns, any of which marks a message as a grid request. */
  const GridKeywords: seq<Pattern> := [
    Lit("грид"), Lit("сетк"), Lit("распредел"), Lit("поставь"), Lit("запусти"),
    Spanning("сделай", "монет"), Lit("все по"), Spanning("по", "доллар"), Lit("по") + [AnyRun, Char('$')],
    Lit("докинул"), Lit("пополни"), Lit("баланс"), Lit("закинул"), Lit("кинул"),
    Spanning("проведи", "анализ"), Spanning("анализ", "монет"), Lit("стратеги"),
    Lit("low") + [SpaceRun] + Lit("risk"), Lit("mrisk"), Lit("lrisk"), Lit("hrisk"),
    Lit("ставь"), Lit("вкинь"), Lit("залей"), Lit("раскидай"), Lit("разбей"),
    Lit("накинь"), Lit("добавь"), Lit("впиши"), Lit("крипт"),
    Spanning("выбери", "монет"), Lit("выдели"), Spanning("распредел", "средств"),
    Spanning("запуск", "бот"), Lit("по всем пар")
  ]

  const HighWords: seq<string> := ["агрессив", "рискован", "высок", "дерзк", "жёстк", "хард", "hrisk", "high"]
  const LowWords: seq<string> := ["консерватив", "осторож", "низк", "тих", "спокойн", "лайт", "lrisk", "low risk", "low"]
  const MediumWords: seq<string> := ["mrisk", "medium", "средн", "умерен"]

  const ActionWords: seq<string> := [
    "сделай", "поставь", "запусти", "распредели", "докинул", "пополнил", "закинул",
    "кинул", "вкинул", "залил", "раскидай", "разбей", "накинь", "добавь",
    "впиши", "ставь", "вкинь", "залей", "накидай", "разбросай",
    "проведи", "выбери", "выдели", "анализ", "запуск",
    "делай", "подтверждаю", "согласен"
  ]

  const CountWords: seq<string> := ["монет", "грид", "штук", "позици"]

  /** `any(w in t for w in words)` */
  predicate ContainsAny(t: string, words: seq<string>)
    ensures ContainsAny(t, words) <==> exists k :: 0 <= k < |words| && Contains(t, words[k])
  {
    |words| > 0 && (Contains(t, words[0]) || ContainsAny(t, words[1..]))
  }

  /** The first digit at or after i. */
  function FirstDigitFrom(t: string, i: nat): (r: Option<nat>)
    requires i <= |t|
    ensures r.Some? ==> i <= r.value < |t| && IsDigit(t[r.value]) && forall k :: i <= k < r.value ==> !IsDigit(t[k])
    ensures r.None? ==> forall k :: i <= k < |t| ==> !IsDigit(t[k])
    decreases |t| - i
  {
    if i == |t| then None
    else if IsDigit(t[i]) then Some(i)
    else FirstDigitFrom(t, i + 1)
  }

  /**
   * Group 1 of `(?:\$\s*)?(\d+(?:\.\d+)?)\s*(?:долл|usdt|usd|\$|баксов)?`.
   * Everything around the number is optional, so the leftmost match begins
   * at the first digit, or at a '$' whose spaces lead to that same digit:
   * either way the group is the number at the first digit of the text.
   */
  function GridAmount(t: string): Option<real> {
    match FirstDigitFrom(t, 0)
    case None => None
    case Some(d) => DecimalValue(t[d..NumberEnd(t, d, ".")])
  }

  /** The number at a digit is digits, or digits, a dot and digits: `float` accepts it. */
  lemma NumberAtDigitIsDecimal(t: string, d: nat)
    requires d < |t| && IsDigit(t[d])
    ensures DecimalValue(t[d..NumberEnd(t, d, ".")]).Some?
  {
    var e1 := d + DigitRun(t, d);
    var e := NumberEnd(t, d, ".");
    var d1 := t[d..e1];
    assert AllDigits(d1);
    if e1 + 1 < |t| && t[e1] == '.' && IsDigit(t[e1 + 1]) {
      var d2 := t[e1 + 1..e];
      assert AllDigits(d2) && |d2| > 0;
      assert t[d..e] == d1 + ['.'] + d2;
      DotAfterDigits(d1, d2);
      assert t[d..e][..|d1|] == d1 && t[d..e][|d1| + 1..] == d2;
    } else {
      assert t[d..e] == d1;
      DotIndexOfDigits(d1);
    }
  }

  /** A text with a digit always yields an amount. */
  lemma GridAmountFound(t: string)
    ensures GridAmount(t).Some? <==> FirstDigitFrom(t, 0).Some?
  {
    var f := FirstDigitFrom(t, 0);
    if f.Some? {
      NumberAtDigitIsDecimal(t, f.value);
    }
  }

  /**
   * Group 1 of `(\d+)\s*(?:монет|грид|штук|позици)` for a match starting at
   * i. The word after the spaces starts with a letter, so neither a shorter
   * digit run nor fewer spaces can match: the greedy reading is the only one.
   */
  function CountCaptureAt(t: string, i: nat): Option<string>
    requires i <= |t|
  {
    if i < |t| && IsDigit(t[i]) then
      var e := i + DigitRun(t, i);
      var j := e + SpacesRun(t, e);
      if StartsWithAny(t[j..], CountWords) then Some(t[i..e]) else None
    else None
  }

  /** The leftmost count match at or after i, as a number. */
  function GridCountFrom(t: string, i: nat): Option<nat>
    requires i <= |t|
    decreases |t| - i
  {
    match CountCaptureAt(t, i)
    case Some(g) => if AllDigits(g) then Some(DigitsValue(g)) else None
    case None => if i < |t| then GridCountFrom(t, i + 1) else None
  }

  /** The risk: HIGH words first, then LOW words, then MEDIUM words; MEDIUM by default. */
  function GridRisk(t: string): (r: Risk)
    ensures ContainsAny(t, HighWords) ==> r == High
    ensures !ContainsAny(t, HighWords) && ContainsAny(t, LowWords) ==> r == Low
    ensures !ContainsAny(t, HighWords) && !ContainsAny(t, LowWords) ==> r == Medium
  {
    if ContainsAny(t, HighWords) then High
    else if ContainsAny(t, LowWords) then Low
    else Medium
  }

  /**
   * `_parse_grid_command` on the stripped, lower-cased text: nothing unless
   * a grid keyword matches and the text has an action word, or has "по"
   * and a number.
   */
  function ParseGridCommand(t: string): (r: Option<GridCommand>)
    ensures r.Some? ==> MatchesAny(GridKeywords, t)
    ensures r.Some? <==> MatchesAny(GridKeywords, t) && (ContainsAny(t, ActionWords) || (Contains(t, "по") && GridAmount(t).Some?))
    ensures r.Some? ==> r.value.days == 7 && r.value.risk == GridRisk(t)
  {
    if !MatchesAny(GridKeywords, t) then None
    else
      var amount := GridAmount(t);
      var capital := if amount.None? then 50.0 else if amount.value <= 20.0 then amount.value * 5.0 else amount.value;
      var perCoin := if amount.Some? && amount.value <= 20.0 then amount else None;
      var count := match GridCountFrom(t, 0) case Some(n) => n case None => 5;
      var result := GridCommand(GridRisk(t), 7, capital, count, perCoin);
      if ContainsAny(t, ActionWords) || (Contains(t, "по") && amount.Some?) then Some(result) else None
  }

  /**
   * The money rule: an amount up to $20 is taken per coin and the capital is
   * five times it; a larger amount is the capital; no amount leaves $50;
   * no count leaves five coins.
   */
  lemma GridMoneyRule(t: string)
    requires ParseGridCommand(t).Some?
    ensures var c := ParseGridCommand(t).value;
      match GridAmount(t)
      case None => c.capital == 50.0 && c.perCoin == None
      case Some(a) =>
        (a <= 20.0 ==> c.capital == a * 5.0 && c.perCoin == Some(a))
        && (a > 20.0 ==> c.capital == a && c.perCoin == None)
    ensures match GridCountFrom(t, 0)
      case None => ParseGridCommand(t).value.count == 5
      case Some(n) => ParseGridCommand(t).value.count == n
  {
  }

  /**
   * The budget is consistent: a per-coin amount is at most $20 and the
   * capital is five coins of it; without one the capital is over $20.
   */
  lemma GridBudget(t: string)
    requires ParseGridCommand(t).Some?
    ensures var c := ParseGridCommand(t).value;
      c.capital >= 0.0
      && (c.perCoin.Some? ==> 0.0 <= c.perCoin.value <= 20.0 && c.capital == 5.0 * c.perCoin.value)
      && (c.perCoin.None? ==> c.capital > 20.0)
  {
    match FirstDigitFrom(t, 0)
    case None =>
    case Some(d) => DecimalNonNegative(t[d..NumberEnd(t, d, ".")]);
  }

  /** The scan for a digit passes over characters that are not digits. */
  lemma {:induction false} FirstDigitAfter(t: string, i: nat, d: nat)
    requires i <= d < |t| && IsDigit(t[d])
    requires forall k :: i <= k < d ==> !IsDigit(t[k])
    ensures FirstDigitFrom(t, i) == Some(d)
    decreases d - i
  {
    if i < d {
      FirstDigitAfter(t, i + 1, d);
    }
  }

  /** The scan for a count passes over characters that are not digits. */
  lemma {:induction false} GridCountSkips(t: string, i: nat, d: nat)
    requires i <= d <= |t|
    requires forall k :: i <= k < d ==> !IsDigit(t[k])
    ensures GridCountFrom(t, i) == GridCountFrom(t, d)
    decreases d - i
  {
    if i < d {
      GridCountStep(t, i);
      GridCountSkips(t, i + 1, d);
    }
  }

  lemma GridCountStep(t: string, i: nat)
    requires i < |t| && !IsDigit(t[i])
    ensures GridCountFrom(t, i) == GridCountFrom(t, i + 1)
  {
    assert CountCaptureAt(t, i) == None;
  }

  /** A request that names a coin count before a price. */
  const CoinsThenPrice: string := "поставь 15 монет по 10$"

  lemma CoinsThenPriceIsAction()
    ensures MatchesAny(GridKeywords, CoinsThenPrice) && ContainsAny(CoinsThenPrice, ActionWords)
  {
    var t := CoinsThenPrice;
    assert t[0..7] == "поставь";
    ContainsAt(t, "поставь", 0);
    ContainsFindsLit("поставь", t);
    assert GridKeywords[3] == Lit("поставь");
    assert ActionWords[1] == "поставь";
  }

  /** The shape of CoinsThenPrice that the amount and the count depend on. */
  predicate FifteenCoinsShape(t: string) {
    |t| >= 16 && (forall k :: 0 <= k < 8 ==> !IsDigit(t[k]))
    && t[8] == '1' && t[9] == '5' && t[10] == ' ' && t[11..16] == "монет"
  }

  lemma CoinsThenPriceShape()
    ensures FifteenCoinsShape(CoinsThenPrice)
  {
    var t := CoinsThenPrice;
    assert t[8] == '1' && t[9] == '5' && t[10] == ' ';
    assert t[11..16] == "монет";
  }

  lemma FifteenCoinsAmount(t: string)
    requires FifteenCoinsShape(t)
    ensures GridAmount(t) == Some(15.0)
  {
    FirstDigitAfter(t, 0, 8);
    assert DigitRun(t, 10) == 0;
    assert NumberEnd(t, 8, ".") == 10;
    assert t[8..10] == "15";
    assert DotIndex("15") == 2;
    assert AllDigits("15") && DigitsValue("15") == 15;
  }

  lemma FifteenCoinsCount(t: string)
    requires FifteenCoinsShape(t)
    ensures GridCountFrom(t, 0) == Some(15)
  {
    GridCountSkips(t, 0, 8);
    assert DigitRun(t, 10) == 0;
    assert t[11] == 'м';
    assert SpacesRun(t, 10) == 1;
    assert "монет" in CountWords && "монет" <= t[11..];
    assert t[8..10] == "15";
    assert CountCaptureAt(t, 8) == Some("15");
    assert AllDigits("15") && DigitsValue("15") == 15;
  }

  /**
   * The amount is the first number in the text, even when it counts coins:
   * "поставь 15 монет по 10$" asks for 15 coins and is read as $15 per coin
   * and $75 in all, not $10 per coin.
   */
  lemma FirstNumberIsTheAmount()
    ensures var c := ParseGridCommand(CoinsThenPrice);
      c.Some? && c.value.count == 15 && c.value.perCoin == Some(15.0) && c.value.capital == 75.0
  {
    CoinsThenPriceIsAction();
    CoinsThenPriceShape();
    FifteenCoinsAmount(CoinsThenPrice);
    FifteenCoinsCount(CoinsThenPrice);
  }
}
