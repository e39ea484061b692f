/** The display currency of src/hooks/useCurrency.tsx: the symbol table
    with its "$" default, the currency read from storage at start, and the
    setter that writes it back. */
module Currency {
  import opened Wrappers

  /** `currencySymbols`. */
  const Symbols: map<string, string> := map[
    "USD" := "$",
    "EUR" := "\U{20AC}",
    "GBP" := "\U{A3}",
    "INR" := "\U{20B9}",
    "CAD" := "C$"
  ]

  /** `currencySymbols[currency] || '$'`. */
  function SymbolFor(currency: string): (s: string)
    ensures currency in Symbols ==> s == Symbols[currency]
    ensures currency !in Symbols ==> s == "$"
    ensures s != ""
  {
    if currency in Symbols && Symbols[currency] != "" then Symbols[currency] else "$"
  }

  lemma SymbolExamples()
    ensures SymbolFor("GBP") == "\U{A3}" && SymbolFor("JPY") == "$"
  {
  }

  /** `localStorage.getItem('currency') || 'USD'`. */
  function InitialCurrency(stored: Option<string>): (c: string)
    ensures stored.Some? && stored.value != "" ==> c == stored.value
    ensures stored.None? || stored.value == "" ==> c == "USD"
  {
    if stored.Some? && stored.value != "" then stored.value else "USD"
  }

  /** What the context hands out. */
  datatype CurrencyContext = CurrencyContext(currency: string, currencySymbol: string)

  /** `useCurrency`: outside a provider there is no context and the hook
      raises. */
  datatype UseResult = Context(context: CurrencyContext) | OutsideProvider(message: string)

  const OutsideProviderMessage: string := "useCurrency must be used within a CurrencyProvider"

  function UseCurrency(provided: Option<CurrencyContext>): (r: UseResult)
    ensures r.OutsideProvider? <==> provided.None?
    ensures r.OutsideProvider? ==> r.message == OutsideProviderMessage
    ensures r.Context? ==> r.context == provided.value
  {
    match provided
    case None => OutsideProvider(OutsideProviderMessage)
    case Some(c) => Context(c)
  }

  class CurrencyProvider {
    var currency: string
    /** The 'currency' entry of the browser's storage. */
    var stored: Option<string>

    constructor(stored: Option<string>)
      ensures currency == InitialCurrency(stored) && this.stored == stored
    {
      currency := InitialCurrency(stored);
      this.stored := stored;
    }

    /** `setCurrency`: the state and the stored entry both become `c`. */
    method SetCurrency(c: string)
      modifies this
      ensures currency == c && stored == Some(c)
    {
      currency := c;
      stored := Some(c);
    }

    function Context(): (ctx: CurrencyContext)
      reads this
      ensures ctx.currency == currency && ctx.currencySymbol == SymbolFor(currency)
    {
      CurrencyContext(currency, SymbolFor(currency))
    }
  }

  /** After a change the provider offers the new currency, and a provider
      started from that storage starts with it as well. */
  lemma SetCurrencyPersists(c: string)
    requires c != ""
    ensures InitialCurrency(Some(c)) == c
  {
  }
}
