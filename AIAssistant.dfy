/** The chat assistant of src/components/AIAssistant.tsx: the symbol scanner
    behind `userMessage.match(...)`, the ordered asset classification, the
    branch precedence of `enhancePromptWithMarketData`, the prompt it builds,
    and `handleSend`'s guard and appends. Number formatting (`toFixed(2)`) is
    the parameter `fmt`. */
module AIAssistant {
  import opened Wrappers
  import opened Strings
  import opened Seqs
  import opened FinnhubApi
  import OpenRouterApi

  // ---------------------------------------------------------------------
  // Symbol extraction: the global pattern
  //   \b([A-Z]{1,5}|[A-Z]+:[A-Z]+|BINANCE:[A-Z]+)\b
  // scanned left to right, as a function of the message.
  // ---------------------------------------------------------------------

  /** The characters `\b` treats as word characters. */
  predicate IsWordChar(c: char)
  {
    IsUpper(c) || IsLowerLetter(c) || ('0' <= c <= '9') || c == '_'
  }

  predicate AllUpper(t: string)
  {
    forall k :: 0 <= k < |t| ==> IsUpper(t[k])
  }

  /** The length of the run of upper-case letters that starts at `i`. */
  function UpperRun(s: string, i: nat): (n: nat)
    requires i <= |s|
    ensures i + n <= |s|
    ensures AllUpper(s[i..i + n])
    ensures i + n < |s| ==> !IsUpper(s[i + n])
    decreases |s| - i
  {
    if i < |s| && IsUpper(s[i]) then
      var n := UpperRun(s, i + 1);
      assert s[i..i + 1 + n] == [s[i]] + s[i + 1..i + 1 + n];
      1 + n
    else 0
  }

  /** `\b` after a word character: the end of the text or a non-word character. */
  predicate EndsWord(s: string, j: nat)
    requires j <= |s|
  {
    j == |s| || !IsWordChar(s[j])
  }

  /** What a match can be: one to five capitals, or capitals, a colon and
      capitals. */
  predicate IsSymbolToken(t: string)
  {
    || (1 <= |t| <= 5 && AllUpper(t))
    || (exists j :: 0 < j < |t| - 1 && AllUpper(t[..j]) && t[j] == ':' && AllUpper(t[j + 1..]))
  }

  /** The length of the match that starts at `i`, or 0 when none does. The
      first alternative is tried first, which is why "NS:RELIANCE" yields
      "NS"; the third alternative matches only where the second does. */
  function MatchLength(s: string, i: nat): (n: nat)
    requires i <= |s|
    ensures i + n <= |s|
  {
    if i < |s| && IsUpper(s[i]) && (i == 0 || !IsWordChar(s[i - 1])) then
      var l := UpperRun(s, i);
      if l <= 5 && EndsWord(s, i + l) then l
      else if i + l < |s| && s[i + l] == ':' then
        var m := UpperRun(s, i + l + 1);
        if 0 < m && EndsWord(s, i + l + 1 + m) then l + 1 + m else 0
      else 0
    else 0
  }

  /** Capitals, a colon and capitals form a token. */
  lemma ColonToken(t: string, l: nat)
    requires 0 < l < |t| - 1 && AllUpper(t[..l]) && t[l] == ':' && AllUpper(t[l + 1..])
    ensures IsSymbolToken(t)
  {
  }

  /** The second alternative: the run at `i`, a colon, and the run after it. */
  lemma ColonMatch(s: string, i: nat, l: nat, m: nat)
    requires i + l + 1 + m <= |s| && 0 < l && 0 < m
    requires AllUpper(s[i..i + l]) && s[i + l] == ':' && AllUpper(s[i + l + 1..i + l + 1 + m])
    ensures IsSymbolToken(s[i..i + l + 1 + m])
  {
    var t := s[i..i + l + 1 + m];
    assert t[..l] == s[i..i + l];
    assert t[l + 1..] == s[i + l + 1..i + l + 1 + m];
    ColonToken(t, l);
  }

  /** A match is a symbol token that starts at a capital letter after a word
      boundary and ends at one. */
  lemma MatchIsToken(s: string, i: nat)
    requires i <= |s|
    ensures var n := MatchLength(s, i);
      n > 0 ==> && IsUpper(s[i]) && (i == 0 || !IsWordChar(s[i - 1]))
                && IsSymbolToken(s[i..i + n]) && EndsWord(s, i + n)
  {
    var n := MatchLength(s, i);
    if n > 0 {
      var l := UpperRun(s, i);
      if !(l <= 5 && EndsWord(s, i + l)) {
        ColonMatch(s, i, l, UpperRun(s, i + l + 1));
      }
    }
  }

  /** The matches from position `i` on, in order. */
  function ExtractFrom(s: string, i: nat): seq<string>
    requires i <= |s|
    decreases |s| - i
  {
    if i == |s| then []
    else
      var n := MatchLength(s, i);
      if n > 0 then [s[i..i + n]] + ExtractFrom(s, i + n)
      else ExtractFrom(s, i + 1)
  }

  /** `t` occurs somewhere in `s` (what `Includes` decides). */
  ghost predicate OccursIn(s: string, t: string)
  {
    exists j: nat :: OccursAt(s, t, j)
  }

  /** Every entry of `r` is a symbol token that occurs in `s`. */
  ghost predicate TokensOf(s: string, r: seq<string>)
    decreases |r|
  {
    r == [] || (IsSymbolToken(r[0]) && OccursIn(s, r[0]) && TokensOf(s, r[1..]))
  }

  /** Each entry of such a list is a token that `includes` finds in `s`. */
  lemma {:induction false} TokensOfEach(s: string, r: seq<string>, k: nat)
    requires TokensOf(s, r) && k < |r|
    ensures IsSymbolToken(r[k]) && Includes(s, r[k])
    decreases k
  {
    if k > 0 {
      TokensOfEach(s, r[1..], k - 1);
    }
  }

  /** A match at `i` is a token of the text, followed by the matches after it. */
  lemma MatchStep(s: string, i: nat)
    requires i < |s| && MatchLength(s, i) > 0
    ensures var n := MatchLength(s, i);
      && ExtractFrom(s, i) == [s[i..i + n]] + ExtractFrom(s, i + n)
      && IsSymbolToken(s[i..i + n]) && OccursIn(s, s[i..i + n])
  {
    var n := MatchLength(s, i);
    MatchIsToken(s, i);
    assert OccursAt(s, s[i..i + n], i);
  }

  /** Without a match at `i` the scan moves on by one. */
  lemma SkipStep(s: string, i: nat)
    requires i < |s| && MatchLength(s, i) == 0
    ensures ExtractFrom(s, i) == ExtractFrom(s, i + 1)
  {
  }

  lemma TokensCons(s: string, t: string, rest: seq<string>, r: seq<string>)
    requires r == [t] + rest
    requires IsSymbolToken(t) && OccursIn(s, t) && TokensOf(s, rest)
    ensures TokensOf(s, r)
  {
    assert r[1..] == rest;
  }

  /** Every extracted symbol is a token that occurs in the text. */
  lemma {:induction false} ExtractedAreTokens(s: string, i: nat)
    requires i <= |s|
    ensures TokensOf(s, ExtractFrom(s, i))
    decreases |s| - i
  {
    if i < |s| {
      var n := MatchLength(s, i);
      if n > 0 {
        MatchStep(s, i);
        ExtractedAreTokens(s, i + n);
        TokensCons(s, s[i..i + n], ExtractFrom(s, i + n), ExtractFrom(s, i));
      } else {
        SkipStep(s, i);
        ExtractedAreTokens(s, i + 1);
      }
    }
  }

  /** `userMessage.match(pattern) || []`. */
  function ExtractSymbols(message: string): (symbols: seq<string>)
    ensures TokensOf(message, symbols)
  {
    ExtractedAreTokens(message, 0);
    ExtractFrom(message, 0)
  }

  /** A text without capital letters yields no symbol. */
  lemma {:induction false} NoCapitalsNoSymbolsFrom(s: string, i: nat)
    requires i <= |s|
    requires forall k :: 0 <= k < |s| ==> !IsUpper(s[k])
    ensures ExtractFrom(s, i) == []
    decreases |s| - i
  {
    if i < |s| {
      NoCapitalsNoSymbolsFrom(s, i + 1);
    }
  }

  lemma NoCapitalsNoSymbols(message: string)
    requires forall k :: 0 <= k < |message| ==> !IsUpper(message[k])
    ensures ExtractSymbols(message) == []
  {
    NoCapitalsNoSymbolsFrom(message, 0);
  }

  // ---------------------------------------------------------------------
  // Asset classification and the sample lists.
  // ---------------------------------------------------------------------

  datatype AssetKind = Crypto | GlobalStock | Etf | UsStock

  /** The ETF list of the explicit-symbol branch. */
  const SymbolBranchEtfs: seq<string> := ["SPY", "QQQ", "VTI", "GLD", "TLT"]

  /** `commonAssets`. */
  const CommonUs: seq<string> := ["AAPL", "GOOGL", "TSLA", "MSFT", "NVDA"]
  const CommonGlobal: seq<string> := ["NS:RELIANCE", "NS:TCS", "TSE:7203"]
  const CommonEtfs: seq<string> := ["SPY", "QQQ", "VTI", "GLD"]
  const CommonCrypto: seq<string> := ["BINANCE:BTCUSDT", "BINANCE:ETHUSDT", "BINANCE:ADAUSDT"]

  /** The ordered test: "BINANCE:" first, then any colon, then the ETF list. */
  function Classify(symbol: string, etfs: seq<string>): (k: AssetKind)
    ensures k == Crypto <==> Includes(symbol, "BINANCE:")
    ensures k == GlobalStock <==> !Includes(symbol, "BINANCE:") && Includes(symbol, ":")
    ensures k == Etf <==> !Includes(symbol, "BINANCE:") && !Includes(symbol, ":") && symbol in etfs
    ensures k == UsStock <==> !Includes(symbol, "BINANCE:") && !Includes(symbol, ":") && symbol !in etfs
  {
    if Includes(symbol, "BINANCE:") then Crypto
    else if Includes(symbol, ":") then GlobalStock
    else if symbol in etfs then Etf
    else UsStock
  }

  /** The labels of the explicit-symbol branch. */
  function SymbolLabel(k: AssetKind): string
  {
    match k
    case Crypto => "Crypto"
    case GlobalStock => "Global Stock"
    case Etf => "ETF"
    case UsStock => "US Stock"
  }

  /** The labels of the general-market branch. */
  function MarketLabel(k: AssetKind): string
  {
    match k
    case Crypto => "Crypto"
    case GlobalStock => "Global"
    case Etf => "ETF"
    case UsStock => "US"
  }

  /** The general-market sample: two US stocks and the first global stock,
      ETF and crypto pair. */
  function MarketSample(): (r: seq<string>)
    ensures r == ["AAPL", "GOOGL", "NS:RELIANCE", "SPY", "BINANCE:BTCUSDT"]
    ensures "TLT" !in r
  {
    CommonUs[..2] + CommonGlobal[..1] + CommonEtfs[..1] + CommonCrypto[..1]
  }

  // ---------------------------------------------------------------------
  // Branch precedence.
  // ---------------------------------------------------------------------

  datatype Branch = ExplicitSymbols(symbols: seq<string>) | GeneralMarket | CryptoQuery | EtfQuery | NoMarketData


  /** The enrichment cap: at most this many extracted symbols get data. */
  const SymbolCap: nat := 5

  /** Which block of market data a message gets: its first five symbols, or
      else the first keyword group its lowercased text mentions. */
  function SelectBranch(message: string): (b: Branch)
    ensures b.ExplicitSymbols? ==> 0 < |b.symbols| <= SymbolCap
  {
    var found := ExtractSymbols(message);
    var m := ToLower(message);
    if |found| > 0 then ExplicitSymbols(found[..Min(SymbolCap, |found|)])
    else if Includes(m, "market") || Includes(m, "today") then GeneralMarket
    else if Includes(m, "crypto") then CryptoQuery
    else if Includes(m, "etf") then EtfQuery
    else NoMarketData
  }

  /** The branches in strict precedence: symbols first, then the market,
      crypto and ETF keywords; each branch is taken exactly when the earlier
      ones are not and its own test holds. */
  lemma SelectBranchPrecedence(message: string)
    ensures var b := SelectBranch(message); var found := ExtractSymbols(message); var m := ToLower(message);
      && (b.ExplicitSymbols? <==> found != [])
      && (b.ExplicitSymbols? ==> b.symbols == found[..Min(SymbolCap, |found|)])
      && (b == GeneralMarket <==> found == [] && OpenRouterApi.MentionsMarket(m))
      && (b == CryptoQuery <==> found == [] && !OpenRouterApi.MentionsMarket(m) && Includes(m, "crypto"))
      && (b == EtfQuery <==> found == [] && !OpenRouterApi.MentionsMarket(m) && !Includes(m, "crypto") && Includes(m, "etf"))
      && (b == NoMarketData <==> found == [] && !OpenRouterApi.MentionsMarket(m) && !Includes(m, "crypto") && !Includes(m, "etf"))
  {
  }

  /** A message without capitals never takes the symbol branch. */
  lemma NoCapitalsKeywordBranch(message: string)
    requires forall k :: 0 <= k < |message| ==> !IsUpper(message[k])
    ensures !SelectBranch(message).ExplicitSymbols?
  {
    NoCapitalsNoSymbols(message);
  }

  // ---------------------------------------------------------------------
  // The text of the market-data block.
  // ---------------------------------------------------------------------

  /** `x >= 0 ? '+' : ''`. */
  function Sign(x: real): string
  {
    if x >= 0.0 then "+" else ""
  }

  datatype LineKind = SymbolLine | MarketLine | CryptoLine | EtfLine

  /** One `marketData +=` piece for `symbol`, with its mock quote. */
  function Line(kind: LineKind, symbol: string, fmt: real -> string): (t: string)
    ensures |t| > 0 && t[0] == '\n'
  {
    var q := MockQuote(symbol);
    match kind
    case SymbolLine =>
      "\n" + symbol + " (" + SymbolLabel(Classify(symbol, SymbolBranchEtfs)) + ") Current Data:\n- Price: $" + fmt(q.c)
      + "\n- Change: " + Sign(q.d) + fmt(q.d) + " (" + fmt(q.dp) + "%)"
      + "\n- High: $" + fmt(q.h) + ", Low: $" + fmt(q.l)
      + "\n- Previous Close: $" + fmt(q.pc)
    case MarketLine =>
      "\n" + symbol + " (" + MarketLabel(Classify(symbol, CommonEtfs)) + "): $" + fmt(q.c) + " (" + Sign(q.dp) + fmt(q.dp) + "%)"
    case CryptoLine =>
      "\n" + RemoveFirst(symbol, "BINANCE:") + ": $" + fmt(q.c) + " (" + Sign(q.dp) + fmt(q.dp) + "%)"
    case EtfLine =>
      "\n" + symbol + ": $" + fmt(q.c) + " (" + Sign(q.dp) + fmt(q.dp) + "%)"
  }

  /** The pieces for `symbols`, in order. */
  function Lines(kind: LineKind, symbols: seq<string>, fmt: real -> string): string
  {
    if symbols == [] then ""
    else Lines(kind, symbols[..|symbols| - 1], fmt) + Line(kind, symbols[|symbols| - 1], fmt)
  }

  /** Which piece each branch writes, and for which symbols: the extracted
      ones, the market sample, the first three crypto pairs or ETFs, or none. */
  datatype Plan = Plan(kind: LineKind, symbols: seq<string>)

  function PlanFor(b: Branch): Plan
  {
    match b
    case ExplicitSymbols(symbols) => Plan(SymbolLine, symbols)
    case GeneralMarket => Plan(MarketLine, MarketSample())
    case CryptoQuery => Plan(CryptoLine, CommonCrypto[..3])
    case EtfQuery => Plan(EtfLine, CommonEtfs[..3])
    case NoMarketData => Plan(SymbolLine, [])
  }

  /** The market-data block of the branch a message takes. */
  function MarketData(message: string, fmt: real -> string): string
  {
    var plan := PlanFor(SelectBranch(message));
    Lines(plan.kind, plan.symbols, fmt)
  }

  const PromptHeader: string := "Current Market Data:"
  const QuestionLabel: string := "\n\nUser Question: "
  const PromptFooter: string := "\n\nPlease provide investment advice "
    + "based on the real-time data above. "
    + "Consider different asset classes (US "
    + "stocks, global stocks, ETFs, crypto) and "
    + "emphasize risk management and "
    + "diversification."

  /** The returned template around the market data and the question. */
  function Prompt(marketData: string, message: string): string
  {
    PromptHeader + marketData + QuestionLabel + message + PromptFooter
  }

  /** A crypto line names its pair without the "BINANCE:" prefix. */
  lemma CryptoLineStripsPrefix(symbol: string, fmt: real -> string)
    requires |symbol| >= 8 && symbol[..8] == "BINANCE:"
    ensures var q := MockQuote(symbol);
      Line(CryptoLine, symbol, fmt) == "\n" + symbol[8..] + ": $" + fmt(q.c) + " (" + Sign(q.dp) + fmt(q.dp) + "%)"
  {
  }

  /** The crypto branch prints each of its three pairs without the prefix. */
  lemma CryptoBranchStripsPrefix(fmt: real -> string)
    ensures forall s :: s in CommonCrypto[..3] ==>
      var q := MockQuote(s);
      Line(CryptoLine, s, fmt) == "\n" + s[8..] + ": $" + fmt(q.c) + " (" + Sign(q.dp) + fmt(q.dp) + "%)"
  {
    forall s | s in CommonCrypto[..3]
      ensures var q := MockQuote(s);
        Line(CryptoLine, s, fmt) == "\n" + s[8..] + ": $" + fmt(q.c) + " (" + Sign(q.dp) + fmt(q.dp) + "%)"
    {
      assert s[..8] == "BINANCE:";
      CryptoLineStripsPrefix(s, fmt);
    }
  }

  lemma LinesStep(kind: LineKind, symbols: seq<string>, i: nat, fmt: real -> string)
    requires i < |symbols|
    ensures Lines(kind, symbols[..i + 1], fmt) == Lines(kind, symbols[..i], fmt) + Line(kind, symbols[i], fmt)
  {
    assert symbols[..i + 1][..i] == symbols[..i];
  }

  /** The `forEach` loops: one piece per symbol, appended in order. */
  method AppendLines(kind: LineKind, symbols: seq<string>, fmt: real -> string) returns (marketData: string)
    ensures marketData == Lines(kind, symbols, fmt)
  {
    marketData := "";
    for i := 0 to |symbols|
      invariant marketData == Lines(kind, symbols[..i], fmt)
    {
      LinesStep(kind, symbols, i, fmt);
      marketData := marketData + Line(kind, symbols[i], fmt);
    }
    assert symbols[..|symbols|] == symbols;
  }

  /** `enhancePromptWithMarketData`: appends one piece per symbol of the
      chosen branch, then wraps the block in the template. */
  method EnhancePrompt(userMessage: string, fmt: real -> string) returns (prompt: string)
    ensures prompt == Prompt(MarketData(userMessage, fmt), userMessage)
  {
    var plan := PlanFor(SelectBranch(userMessage));
    var marketData := AppendLines(plan.kind, plan.symbols, fmt);
    prompt := PromptHeader + marketData + QuestionLabel + userMessage + PromptFooter;
  }

  /** Every prompt starts with the header and carries the question verbatim. */
  lemma PromptShape(marketData: string, message: string)
    ensures var p := Prompt(marketData, message);
      && |p| >= |PromptHeader| && p[..|PromptHeader|] == PromptHeader
      && Includes(p, "User Question: " + message)
  {
    var p := Prompt(marketData, message);
    var i := |PromptHeader| + |marketData| + 2;
    assert p[i..i + |"User Question: " + message|] == "User Question: " + message;
    IncludesAt(p, "User Question: " + message, i);
  }

  /** A text with "Market" at position 8 mentions "market" once lowercased. */
  lemma LowerMentionsMarket(p: string)
    requires |p| >= 14 && p[8..14] == "Market"
    ensures Includes(ToLower(p), "market")
  {
    var lower := ToLower(p);
    assert lower[8..14] == "market" by {
      forall k | 8 <= k < 14 ensures lower[k] == "market"[k - 8] {
        assert p[k] == "Market"[k - 8];
      }
    }
    IncludesAt(lower, "market", 8);
  }

  /** Because of the header, the lowercased prompt always mentions "market". */
  lemma PromptMentionsMarket(marketData: string, message: string)
    ensures Includes(ToLower(Prompt(marketData, message)), "market")
  {
    var p := Prompt(marketData, message);
    assert p[8..14] == PromptHeader[8..14];
    LowerMentionsMarket(p);
  }

  // ---------------------------------------------------------------------
  // The chat panel: `handleSend`.
  // ---------------------------------------------------------------------

  datatype Speaker = FromUser | FromAssistant
  datatype Message = Message(role: Speaker, content: string)

  const Welcome: string := "Hi! I'm your AI investment assistant. I "
    + "can analyze real-time market data across "
    + "US stocks, global markets, ETFs, and "
    + "cryptocurrencies. Ask me about specific "
    + "assets, market trends, or portfolio "
    + "strategies!"
  const SystemPrompt: string := "You are an expert investment advisor AI "
    + "that analyzes real-time market data to "
    + "provide actionable investment insights. "
    + "Always base your advice on the provided "
    + "market data and emphasize risk "
    + "management. Be concise but thorough."
  const TroubleReply: string := "I'm sorry, I'm having trouble connecting "
    + "to my analysis systems right now. Please "
    + "try again in a moment."

  /** The two messages `handleSend` passes to `chat`. */
  function ChatRequest(prompt: string): (r: seq<OpenRouterApi.ChatMessage>)
    ensures |r| == 2 && r[1] == OpenRouterApi.ChatMessage(OpenRouterApi.User, prompt)
  {
    [OpenRouterApi.ChatMessage(OpenRouterApi.System, SystemPrompt), OpenRouterApi.ChatMessage(OpenRouterApi.User, prompt)]
  }

  /** What the assistant message says: the chat reply, or the apology when
      the awaited call rejects (`None`; `chat` itself never rejects). */
  function AssistantText(request: seq<OpenRouterApi.ChatMessage>, outcome: Option<OpenRouterApi.ChatOutcome>): string
  {
    match outcome
    case Some(o) => OpenRouterApi.Chat(request, o)
    case None => TroubleReply
  }

  /** When the chat request fails, the canned reply for an assistant prompt
      is never the buy/invest or the generic one: the prompt's header always
      mentions the market. */
  lemma FallbackForPrompt(message: string, fmt: real -> string, outcome: OpenRouterApi.ChatOutcome)
    requires !outcome.Completion?
    ensures var p := Prompt(MarketData(message, fmt), message);
      && OpenRouterApi.Chat(ChatRequest(p), outcome) == OpenRouterApi.CannedText(OpenRouterApi.MockChoice(p))
      && OpenRouterApi.MockChoice(p) in {OpenRouterApi.AppleCanned, OpenRouterApi.TeslaCanned, OpenRouterApi.MarketCanned}
  {
    var p := Prompt(MarketData(message, fmt), message);
    PromptMentionsMarket(MarketData(message, fmt), message);
    assert OpenRouterApi.LastContent(ChatRequest(p)) == p;
  }

  /** The awaited part of `handleSend`: the enriched prompt is sent with the
      system prompt, and the reply is what the chat call yields. */
  method Respond(text: string, fmt: real -> string, outcome: Option<OpenRouterApi.ChatOutcome>)
    returns (request: seq<OpenRouterApi.ChatMessage>, reply: string)
    ensures request == ChatRequest(Prompt(MarketData(text, fmt), text))
    ensures reply == AssistantText(request, outcome)
  {
    var prompt := EnhancePrompt(text, fmt);
    request := ChatRequest(prompt);
    reply := AssistantText(request, outcome);
  }

  class ChatPanel {
    var messages: seq<Message>
    var input: string
    var isLoading: bool

    constructor()
      ensures messages == [Message(FromAssistant, Welcome)] && input == "" && !isLoading
    {
      messages := [Message(FromAssistant, Welcome)];
      input := "";
      isLoading := false;
    }

    method SetInput(text: string)
      modifies this
      ensures input == text && messages == old(messages) && isLoading == old(isLoading)
    {
      input := text;
    }

    /** `handleSend`, run to completion: nothing happens for a blank input
        or while a request is in flight; otherwise the user's message and
        exactly one assistant message are appended and the input is cleared. */
    method Send(fmt: real -> string, outcome: Option<OpenRouterApi.ChatOutcome>) returns (request: Option<seq<OpenRouterApi.ChatMessage>>)
      modifies this
      ensures IsBlank(old(input)) || old(isLoading) ==>
        request == None && messages == old(messages) && input == old(input) && isLoading == old(isLoading)
      ensures !(IsBlank(old(input)) || old(isLoading)) ==>
        && request == Some(ChatRequest(Prompt(MarketData(old(input), fmt), old(input))))
        && messages == old(messages) + [Message(FromUser, old(input)), Message(FromAssistant, AssistantText(request.value, outcome))]
        && input == ""
        && !isLoading
    {
      if TrimsToEmpty(input) || isLoading {
        return None;
      }
      var text := input;
      var chatMessages, reply := Respond(text, fmt, outcome);
      request := Some(chatMessages);
      Record(text, reply);
    }

    /** The state updates of a send: both messages appended, the input
        cleared, and the loading flag off again. */
    method Record(text: string, reply: string)
      modifies this
      ensures messages == old(messages) + [Message(FromUser, text), Message(FromAssistant, reply)]
      ensures input == "" && !isLoading
    {
      messages := messages + [Message(FromUser, text), Message(FromAssistant, reply)];
      input := "";
      isLoading := false;
    }
  }
}
