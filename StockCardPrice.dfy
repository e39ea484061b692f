/** The price block of src/components/StockCardPrice.tsx: the gain or loss
    styling, the sign prefixes, the live highlight and the currency
    prefixes. `toFixed(2)` is the parameter `fmt`. */
module StockCardPrice {
  import opened Wrappers
  import opened FinnhubApi
  import opened StockCardState

  datatype Trend = TrendUp | TrendDown
  datatype Highlight = Green | Red

  datatype PriceView = PriceView(
    isPositive: bool, changeColor: string, trend: Trend, highlight: Option<Highlight>,
    price: string, change: string, percent: string, high: string, low: string)

  /** `isPositive ? '+' : ''`. */
  function SignPrefix(isPositive: bool): string
  {
    if isPositive then "+" else ""
  }

  /** The block for a quote. Gain styling and both "+" prefixes follow
      `dp` alone; the highlight needs live updates on. */
  function View(q: Quote, currencySymbol: string, priceChanged: Option<Direction>,
                liveUpdatesEnabled: bool, fmt: real -> string): (v: PriceView)
    ensures v.isPositive <==> q.dp >= 0.0
    ensures v.changeColor == (if q.dp >= 0.0 then "profit" else "loss")
    ensures v.trend == TrendUp <==> q.dp >= 0.0
    ensures v.highlight == Some(Green) <==> liveUpdatesEnabled && priceChanged == Some(Up)
    ensures v.highlight == Some(Red) <==> liveUpdatesEnabled && priceChanged == Some(Down)
    ensures !liveUpdatesEnabled ==> v.highlight == None
    ensures v.price == currencySymbol + fmt(q.c)
    ensures v.change == SignPrefix(q.dp >= 0.0) + fmt(q.d)
    ensures v.percent == SignPrefix(q.dp >= 0.0) + fmt(q.dp) + "%"
    ensures v.high == "H: " + currencySymbol + fmt(q.h) && v.low == "L: " + currencySymbol + fmt(q.l)
  {
    var isPositive := q.dp >= 0.0;
    PriceView(
      isPositive,
      if isPositive then "profit" else "loss",
      if isPositive then TrendUp else TrendDown,
      if liveUpdatesEnabled && priceChanged == Some(Up) then Some(Green)
      else if liveUpdatesEnabled && priceChanged == Some(Down) then Some(Red)
      else None,
      currencySymbol + fmt(q.c),
      SignPrefix(isPositive) + fmt(q.d),
      SignPrefix(isPositive) + fmt(q.dp) + "%",
      "H: " + currencySymbol + fmt(q.h),
      "L: " + currencySymbol + fmt(q.l))
  }

  /** Two quotes with the same `dp` get the same prefix on the change,
      whatever their `d`: a zero percent move with a negative change is
      shown with a "+". */
  lemma ChangePrefixIgnoresD(q: Quote, currencySymbol: string, priceChanged: Option<Direction>,
                             liveUpdatesEnabled: bool, fmt: real -> string)
    requires q.dp == 0.0 && q.d < 0.0
    ensures View(q, currencySymbol, priceChanged, liveUpdatesEnabled, fmt).change == "+" + fmt(q.d)
  {
  }
}
