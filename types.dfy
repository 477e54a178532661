/** The records the simulator passes around (app/lib/types.ts). Prices and
    money are exact reals, timestamps are milliseconds since the epoch, and
    share counts and volumes are integers. */
module Types {

  datatype Volatility = LowVolatility | MediumVolatility | HighVolatility

  /** One candle of a price history. */
  datatype PricePoint = PricePoint(
    timestamp: int,
    price: real,
    open: real,
    high: real,
    low: real,
    close: real,
    volume: int)

  datatype Stock = Stock(
    symbol: string,
    name: string,
    price: real,
    previousClose: real,
    dayChange: real,
    dayChangePercent: real,
    volume: int,
    marketCap: int,
    sector: string,
    volatility: Volatility,
    priceHistory: seq<PricePoint>,
    description: string)

  datatype Holding = Holding(
    symbol: string,
    quantity: int,
    averageCost: real,
    currentPrice: real,
    totalValue: real,
    totalCost: real,
    gainLoss: real,
    gainLossPercent: real,
    dayChange: real,
    dayChangePercent: real)

  datatype Portfolio = Portfolio(
    cash: real,
    holdings: seq<Holding>,
    totalValue: real,
    dayChange: real,
    dayChangePercent: real,
    allTimeReturn: real,
    allTimeReturnPercent: real,
    initialValue: real)

  datatype TradeType = BuyTrade | SellTrade

  /** A trade as logged; the generated id string is not modelled. */
  datatype Transaction = Transaction(
    kind: TradeType,
    symbol: string,
    stockName: string,
    quantity: int,
    price: real,
    timestamp: int,
    totalValue: real,
    fees: real)

  datatype WatchlistItem = WatchlistItem(symbol: string, addedAt: int)

  datatype EventType = Earnings | Merger | Crash | Rally | Regulation | ProductLaunch

  /** A market event; `priceImpact` is a percentage, `duration` is in minutes. */
  datatype MarketEvent = MarketEvent(
    kind: EventType,
    title: string,
    description: string,
    timestamp: int,
    affectedSymbols: seq<string>,
    priceImpact: real,
    duration: int)

  datatype Impact = PositiveImpact | NegativeImpact | NeutralImpact

  datatype Severity = LowSeverity | MediumSeverity | HighSeverity

  datatype NewsItem = NewsItem(
    title: string,
    content: string,
    timestamp: int,
    affectedSymbols: seq<string>,
    impact: Impact,
    severity: Severity)

  datatype Sentiment = Bearish | Neutral | Bullish

  datatype MarketState = MarketState(
    isOpen: bool,
    currentTime: int,
    marketOpenTime: int,
    marketCloseTime: int,
    lastUpdateTime: int,
    marketSentiment: Sentiment)

  /** Gamification statistics; achievements are held as their id strings,
      which is how the achievement check reads them. */
  datatype UserStats = UserStats(
    level: int,
    xp: int,
    xpToNextLevel: int,
    totalTrades: int,
    profitableTrades: int,
    totalProfit: real,
    totalLoss: real,
    winRate: real,
    bestTrade: real,
    worstTrade: real,
    currentStreak: int,
    bestStreak: int,
    achievements: seq<string>)
}
