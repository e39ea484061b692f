/** The chat client of src/utils/openRouterAPI.ts: the keyword-matched
    canned reply and the choice of what `chat` returns for each outcome of
    the request. The request itself is an input (`ChatOutcome`). */
module OpenRouterApi {
  import opened Wrappers
  import opened Strings

  datatype Role = System | User | Assistant
  datatype ChatMessage = ChatMessage(role: Role, content: string)

  const AppleReply: string := "Based on the current data, Apple (AAPL) "
    + "is trading at $192.40, down 0.69% today. "
    + "The stock shows neutral sentiment with "
    + "strong analyst backing (13 Buy ratings). "
    + "Given Apple's strong fundamentals and "
    + "the recent dip, this could be a good "
    + "entry point for long-term investors. "
    + "Consider the broader tech sector trends "
    + "and your risk tolerance."
  const TeslaReply: string := "Tesla (TSLA) is showing strong momentum "
    + "today, up 5.47% at $248.42. The stock "
    + "has been volatile but shows bullish "
    + "sentiment. With the EV market expansion "
    + "and Tesla's innovation pipeline, it "
    + "remains a growth play. However, consider "
    + "the high volatility and your investment "
    + "timeline."
  const MarketReply: string := "Today's market shows mixed signals with "
    + "tech stocks leading gains while "
    + "traditional sectors remain flat. The VIX "
    + "is at moderate levels, suggesting "
    + "cautious optimism. Key factors to watch "
    + "include interest rate expectations and "
    + "earnings reports. Consider "
    + "diversification across sectors."
  const InvestReply: string := "Based on current market conditions, I'd "
    + "suggest focusing on quality stocks with "
    + "strong fundamentals. Tech leaders like "
    + "AAPL and MSFT offer stability, while "
    + "growth stocks like TSLA provide upside "
    + "potential. Always diversify your "
    + "portfolio and invest only what you can "
    + "afford to lose. Consider your investment "
    + "timeline and risk tolerance."
  const GenericReply: string := "I'm analyzing the current market data to "
    + "provide you with the most relevant "
    + "investment insights. Could you specify "
    + "which stocks or market sectors you're "
    + "interested in? I can provide detailed "
    + "analysis based on real-time data "
    + "including price movements, sentiment, "
    + "and analyst recommendations."
  const NoContentReply: string := "Sorry, I could not generate a response."

  predicate MentionsEither(text: string, a: string, b: string)
  {
    Includes(text, a) || Includes(text, b)
  }

  predicate MentionsApple(lower: string) { MentionsEither(lower, "aapl", "apple") }
  predicate MentionsTesla(lower: string) { MentionsEither(lower, "tesla", "tsla") }
  predicate MentionsMarket(lower: string) { MentionsEither(lower, "market", "today") }
  predicate MentionsInvest(lower: string) { MentionsEither(lower, "buy", "invest") }

  /** The five canned replies of `getMockResponse`. */
  datatype Canned = AppleCanned | TeslaCanned | MarketCanned | InvestCanned | GenericCanned

  function CannedText(c: Canned): string
  {
    match c
    case AppleCanned => AppleReply
    case TeslaCanned => TeslaReply
    case MarketCanned => MarketReply
    case InvestCanned => InvestReply
    case GenericCanned => GenericReply
  }

  /** Which canned reply a message gets. */
  function MockChoice(userMessage: string): Canned
  {
    var m := ToLower(userMessage);
    if MentionsApple(m) then AppleCanned
    else if MentionsTesla(m) then TeslaCanned
    else if MentionsMarket(m) then MarketCanned
    else if MentionsInvest(m) then InvestCanned
    else GenericCanned
  }

  /** The first keyword group found in the lowercased message decides: each
      reply is chosen exactly when the earlier groups are absent and its own
      group is present. */
  lemma MockChoicePrecedence(userMessage: string)
    ensures var c := MockChoice(userMessage); var m := ToLower(userMessage);
      && (c == AppleCanned <==> MentionsApple(m))
      && (c == TeslaCanned <==> !MentionsApple(m) && MentionsTesla(m))
      && (c == MarketCanned <==> !MentionsApple(m) && !MentionsTesla(m) && MentionsMarket(m))
      && (c == InvestCanned <==> !MentionsApple(m) && !MentionsTesla(m) && !MentionsMarket(m) && MentionsInvest(m))
      && (c == GenericCanned <==> !MentionsApple(m) && !MentionsTesla(m) && !MentionsMarket(m) && !MentionsInvest(m))
  {
  }

  /** `getMockResponse`: the text of the chosen canned reply. */
  function MockResponse(userMessage: string): string
  {
    CannedText(MockChoice(userMessage))
  }

  /** Matching ignores the case of the ASCII letters. */
  lemma MockChoiceIgnoresCase(userMessage: string)
    ensures MockChoice(ToLower(userMessage)) == MockChoice(userMessage)
  {
    ToLowerIdempotent(userMessage);
  }

  /** A message naming both Apple and Tesla gets the Apple reply. */
  lemma AppleBeforeTesla(userMessage: string)
    requires Includes(ToLower(userMessage), "apple")
    requires Includes(ToLower(userMessage), "tesla")
    ensures MockChoice(userMessage) == AppleCanned
  {
  }

  /** The empty message gets the generic reply. */
  lemma EmptyMessageGeneric()
    ensures MockChoice("") == GenericCanned
  {
  }

  /** How the request ended: no response or a thrown error (`Failed`), a
      non-OK status, or an OK response whose first choice may carry content. */
  datatype ChatOutcome = Failed | HttpError(status: int) | Completion(firstContent: Option<string>)

  /** `messages[messages.length - 1]?.content || ''`. */
  function LastContent(messages: seq<ChatMessage>): (s: string)
    ensures messages == [] ==> s == ""
    ensures messages != [] ==> s == messages[|messages| - 1].content
  {
    if messages == [] then "" else messages[|messages| - 1].content
  }

  /** `chat`: never throws. A completion gives its first choice's content, or
      the fixed apology when that is missing or empty; any failure gives the
      canned reply for the last message. */
  function Chat(messages: seq<ChatMessage>, outcome: ChatOutcome): (reply: string)
    ensures outcome.Completion? && outcome.firstContent.Some? && outcome.firstContent.value != "" ==>
      reply == outcome.firstContent.value
    ensures outcome.Completion? && (outcome.firstContent.None? || outcome.firstContent.value == "") ==>
      reply == NoContentReply
    ensures !outcome.Completion? ==> reply == CannedText(MockChoice(LastContent(messages)))
  {
    match outcome
    case Completion(content) =>
      if content.Some? && content.value != "" then content.value else NoContentReply
    case _ => MockResponse(LastContent(messages))
  }

  /** A failed request with no messages falls back to the generic reply. */
  lemma EmptyConversationFallback(outcome: ChatOutcome)
    requires !outcome.Completion?
    ensures Chat([], outcome) == CannedText(GenericCanned)
  {
    EmptyMessageGeneric();
  }
}
