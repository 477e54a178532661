/** The market simulation engine (app/lib/marketEngine.ts): one tick moves
    every stock by a random walk, nudged by the market sentiment and by the
    market events that are still running, and now and then a new event (and
    its news item) is generated.

    `Date.now()` and the local calendar reading of it are a `WallClock`
    parameter, and the `Math.random()` draws of a tick are a `TickDraws`
    parameter, one field per purpose. */
module MarketEngine {
  import opened Types
  import opened Numeric
  import opened Wrappers
  import Stocks
  import Catalog

  /** A reading of the clock: milliseconds since the epoch, and the local
      weekday (0 is Sunday), hour and minute of that instant, together with
      the instants at which 9:30 and 16:00 fall on that local day. */
  datatype WallClock = WallClock(now: int, weekday: int, hour: int, minute: int, todayOpen: int, todayClose: int)

  /** The draws one stock consumes in a tick: the random walk, the volume of
      the new history point (used only when one is added) and the volume
      bump. */
  datatype StockDraws = StockDraws(walk: real, pointVolume: real, volumeBump: real)

  /** The draws generating an event consumes: its type, how many stocks it
      affects, its impact, and the order in which the shuffle leaves the
      stocks (a permutation of their indices). */
  datatype EventDraws = EventDraws(typeDraw: real, countDraw: real, impactDraw: real, shuffle: seq<int>)

  /** The draws of one tick. */
  datatype TickDraws = TickDraws(eventRoll: real, event: EventDraws, perStock: seq<StockDraws>)

  const MinPrice: real := 0.01
  const Drift: real := 0.0001
  const MsPerMinute: int := 60000
  /** A new history point is added once at least this much time has passed. */
  const PointInterval: int := 60000
  const HistoryCap: int := 1000
  const NewsCap: int := 50

  // ---------------------------------------------------------------------
  // Market hours

  const OpenMinutes: int := 9 * 60 + 30
  const CloseMinutes: int := 16 * 60

  /** isMarketOpen: weekdays, from 9:30 up to but not including 16:00. */
  predicate IsMarketOpen(c: WallClock) {
    if c.weekday == 0 || c.weekday == 6 then false
    else
      var currentMinutes := c.hour * 60 + c.minute;
      currentMinutes >= OpenMinutes && currentMinutes < CloseMinutes
  }

  /** The same rule read off the clock face: Monday to Friday, at 9 o'clock
      from half past, or in any hour from 10 to 15. */
  lemma MarketOpenOnClockFace(c: WallClock)
    requires 0 <= c.weekday <= 6 && 0 <= c.minute < 60
    ensures IsMarketOpen(c) <==>
      1 <= c.weekday <= 5 && ((c.hour == 9 && c.minute >= 30) || 10 <= c.hour <= 15)
  {
    if 1 <= c.weekday <= 5 {
      var m := c.hour * 60 + c.minute;
      if c.hour <= 8 {
        assert m < 9 * 60;
      } else if c.hour >= 16 {
        assert m >= 16 * 60;
      }
    }
  }

  // ---------------------------------------------------------------------
  // Price of one stock in one tick

  function BaseVolatility(v: Volatility): real {
    match v
    case LowVolatility => 0.002
    case MediumVolatility => 0.005
    case HighVolatility => 0.01
  }

  /** The volatility of a tick: the base volatility while the market is
      open, 30% of it while it is closed. */
  function TickVolatility(v: Volatility, isOpen: bool): (r: real)
    ensures 0.0 < r <= BaseVolatility(v)
  {
    if isOpen then BaseVolatility(v) else BaseVolatility(v) * 0.3
  }

  function SentimentImpact(s: Sentiment): (r: real)
    ensures r > 0.0 <==> s == Bullish
    ensures r < 0.0 <==> s == Bearish
  {
    match s
    case Bearish => -0.001
    case Neutral => 0.0
    case Bullish => 0.001
  }

  /** The price after the random walk and the sentiment, floored at 0.01. */
  function WalkedPrice(price: real, volatility: real, sentiment: Sentiment, draw: real): real {
    Max(MinPrice, price + PriceChange(price, volatility, draw) + SentimentImpact(sentiment))
  }

  /** The random walk's move: the drift plus a change uniform in
      [-volatility, volatility), both relative to the price. */
  function PriceChange(price: real, volatility: real, draw: real): real {
    var randomChange := (draw - 0.5) * volatility * 2.0;
    price * (Drift + randomChange)
  }

  /** The price after the events' combined impact, floored at 0.01. */
  function FinalPrice(newPrice: real, eventImpact: real): (r: real)
    ensures r >= MinPrice
  {
    Max(MinPrice, newPrice * (1.0 + eventImpact))
  }

  /** The last `n` elements of `h`, or all of them when there are fewer
      (`slice(-n)`). */
  function KeepLast<T>(h: seq<T>, n: nat): (r: seq<T>)
    ensures |r| == MinInt(|h|, n)
    ensures r == h[|h| - |r|..]
  {
    if |h| <= n then h else h[|h| - n..]
  }

  /** The point a tick records: it opens at the old price and closes at the
      new one. */
  function TickPoint(now: int, oldPrice: real, finalPrice: real, volumeDraw: real): PricePoint {
    PricePoint(now, finalPrice, oldPrice, Max(oldPrice, finalPrice), Min(oldPrice, finalPrice), finalPrice,
               (volumeDraw * 1000000.0 + 500000.0).Floor)
  }

  /** The history after a tick: a point is appended, after trimming to the
      last 1000, only when a minute has passed since the last point. */
  function ThrottledHistory(h: seq<PricePoint>, now: int, point: PricePoint): seq<PricePoint>
    requires |h| > 0
  {
    if now - h[|h| - 1].timestamp >= PointInterval then KeepLast(h, HistoryCap) + [point] else h
  }

  lemma {:induction false} ThrottledHistorySpec(h: seq<PricePoint>, now: int, oldPrice: real, finalPrice: real, volumeDraw: real)
    requires |h| > 0
    ensures var r := ThrottledHistory(h, now, TickPoint(now, oldPrice, finalPrice, volumeDraw));
      if now - h[|h| - 1].timestamp >= PointInterval then
        |r| == MinInt(|h|, HistoryCap) + 1 && |r| <= HistoryCap + 1
        && r[..|r| - 1] == h[|h| - (|r| - 1)..]
        && r[|r| - 1].timestamp == now && r[|r| - 1].open == oldPrice
        && r[|r| - 1].price == finalPrice && r[|r| - 1].close == finalPrice
        && r[|r| - 1].low == Min(oldPrice, finalPrice) && r[|r| - 1].high == Max(oldPrice, finalPrice)
        && (IsDraw(volumeDraw) ==> 500000 <= r[|r| - 1].volume < 1500000)
      else r == h
  {
    var p := TickPoint(now, oldPrice, finalPrice, volumeDraw);
    if now - h[|h| - 1].timestamp >= PointInterval {
      var r := KeepLast(h, HistoryCap) + [p];
      assert r[..|r| - 1] == KeepLast(h, HistoryCap);
      if IsDraw(volumeDraw) {
        assert 500000.0 <= volumeDraw * 1000000.0 + 500000.0 < 1500000.0;
      }
    }
  }

  /** updateStockPrice, given the events' combined impact on the stock. */
  function NextStock(stock: Stock, isOpen: bool, sentiment: Sentiment, eventImpact: real, now: int, d: StockDraws): (r: Stock)
    requires |stock.priceHistory| > 0
    ensures r.price >= MinPrice
    ensures r.dayChange == r.price - stock.previousClose
    ensures stock.previousClose != 0.0 ==> r.dayChangePercent * stock.previousClose == r.dayChange * 100.0
    ensures r == stock.(price := r.price, dayChange := r.dayChange, dayChangePercent := r.dayChangePercent,
                        priceHistory := r.priceHistory, volume := r.volume)
  {
    var newPrice := WalkedPrice(stock.price, TickVolatility(stock.volatility, isOpen), sentiment, d.walk);
    var finalPrice := FinalPrice(newPrice, eventImpact);
    var history := ThrottledHistory(stock.priceHistory, now, TickPoint(now, stock.price, finalPrice, d.pointVolume));
    var dayChange := finalPrice - stock.previousClose;
    stock.(price := finalPrice, dayChange := dayChange,
           dayChangePercent := Quotient(dayChange, stock.previousClose) * 100.0,
           priceHistory := history, volume := stock.volume + (d.volumeBump * 100000.0).Floor)
  }

  /** The price moves with the walk draw, the sentiment and the event
      impact: a higher draw, a better sentiment or a larger impact never
      gives a lower price. */
  lemma NextStockMonotone(stock: Stock, isOpen: bool, s1: Sentiment, s2: Sentiment, e1: real, e2: real,
                          now: int, d1: StockDraws, d2: StockDraws)
    requires |stock.priceHistory| > 0 && stock.price > 0.0
    requires d1.walk <= d2.walk && SentimentImpact(s1) <= SentimentImpact(s2) && -1.0 <= e1 <= e2
    ensures NextStock(stock, isOpen, s1, e1, now, d1).price <= NextStock(stock, isOpen, s2, e2, now, d2).price
  {
    var vol := TickVolatility(stock.volatility, isOpen);
    var w1 := WalkedPrice(stock.price, vol, s1, d1.walk);
    var w2 := WalkedPrice(stock.price, vol, s2, d2.walk);
    assert NextStock(stock, isOpen, s1, e1, now, d1).price == FinalPrice(w1, e1);
    assert NextStock(stock, isOpen, s2, e2, now, d2).price == FinalPrice(w2, e2);
    WalkedPriceMonotone(stock.price, vol, s1, s2, d1.walk, d2.walk);
    FinalPriceMonotone(w1, w2, e1, e2);
  }

  lemma WalkedPriceMonotone(price: real, vol: real, s1: Sentiment, s2: Sentiment, x: real, y: real)
    requires price > 0.0 && vol > 0.0 && x <= y && SentimentImpact(s1) <= SentimentImpact(s2)
    ensures MinPrice <= WalkedPrice(price, vol, s1, x) <= WalkedPrice(price, vol, s2, y)
  {
    PriceChangeMonotone(price, vol, x, y);
  }

  /** The walk's move grows with the draw. */
  lemma PriceChangeMonotone(price: real, vol: real, x: real, y: real)
    requires price > 0.0 && vol > 0.0 && x <= y
    ensures PriceChange(price, vol, x) <= PriceChange(price, vol, y)
  {
    var a := Drift + (x - 0.5) * vol * 2.0;
    var b := Drift + (y - 0.5) * vol * 2.0;
    NonNegativeProduct(y - x, vol);
    assert b - a == (y - x) * vol * 2.0;
    NonNegativeProduct(price, b - a);
    assert price * b - price * a == price * (b - a);
  }

  lemma FinalPriceMonotone(a: real, b: real, e1: real, e2: real)
    requires MinPrice <= a <= b && -1.0 <= e1 <= e2
    ensures FinalPrice(a, e1) <= FinalPrice(b, e2)
  {
    var f, g := 1.0 + e1, 1.0 + e2;
    NonNegativeProduct(a, g - f);
    NonNegativeProduct(b - a, g);
    assert a * g - a * f == a * (g - f);
    assert b * g - a * g == (b - a) * g;
    assert a * f <= b * g;
  }

  /** A tick's volume bump lies in [0, 100000). */
  lemma NextStockVolume(stock: Stock, isOpen: bool, sentiment: Sentiment, eventImpact: real, now: int, d: StockDraws)
    requires |stock.priceHistory| > 0 && IsDraw(d.volumeBump)
    ensures stock.volume <= NextStock(stock, isOpen, sentiment, eventImpact, now, d).volume < stock.volume + 100000
  {
    assert 0.0 <= d.volumeBump * 100000.0 < 100000.0;
  }

  // ---------------------------------------------------------------------
  // Events

  /** An event is running until `duration` minutes after its timestamp. */
  predicate IsActive(e: MarketEvent, now: int) {
    now < e.timestamp + e.duration * MsPerMinute
  }

  predicate Affects(e: MarketEvent, symbol: string, now: int) {
    IsActive(e, now) && symbol in e.affectedSymbols
  }

  /** The combined impact, as a fraction, of the running events that list
      `symbol`: each contributes its percentage over 100. */
  function EventImpact(events: seq<MarketEvent>, symbol: string, now: int): real
    decreases |events|
  {
    if |events| == 0 then 0.0
    else
      var last := events[|events| - 1];
      EventImpact(events[..|events| - 1], symbol, now) + (if Affects(last, symbol, now) then last.priceImpact / 100.0 else 0.0)
  }

  /** The running events, in their order. */
  function ActiveEvents(events: seq<MarketEvent>, now: int): (r: seq<MarketEvent>)
    ensures |r| <= |events|
    decreases |events|
  {
    if |events| == 0 then []
    else
      var last := events[|events| - 1];
      ActiveEvents(events[..|events| - 1], now) + (if IsActive(last, now) then [last] else [])
  }

  /** The running events are exactly the events that are running. */
  lemma {:induction false} ActiveEventsMembers(events: seq<MarketEvent>, now: int)
    ensures forall e :: e in ActiveEvents(events, now) <==> e in events && IsActive(e, now)
    decreases |events|
  {
    if |events| > 0 {
      var init := events[..|events| - 1];
      ActiveEventsMembers(init, now);
      assert events == init + [events[|events| - 1]];
    }
  }

  /** Pruning keeps the order: it distributes over concatenation. */
  lemma {:induction false} ActiveEventsConcat(a: seq<MarketEvent>, b: seq<MarketEvent>, now: int)
    ensures ActiveEvents(a + b, now) == ActiveEvents(a, now) + ActiveEvents(b, now)
    decreases |b|
  {
    if |b| == 0 {
      assert a + b == a;
    } else {
      var init := b[..|b| - 1];
      var last := b[|b| - 1];
      var tail := if IsActive(last, now) then [last] else [];
      assert (a + b)[..|a + b| - 1] == a + init && (a + b)[|a + b| - 1] == last;
      ActiveEventsConcat(a, init, now);
      calc {
        ActiveEvents(a + b, now);
        ActiveEvents(a + init, now) + tail;
        (ActiveEvents(a, now) + ActiveEvents(init, now)) + tail;
        ActiveEvents(a, now) + (ActiveEvents(init, now) + tail);
        ActiveEvents(a, now) + ActiveEvents(b, now);
      }
    }
  }

  /** Pruning twice prunes nothing more. */
  lemma {:induction false} ActiveEventsIdempotent(events: seq<MarketEvent>, now: int)
    ensures ActiveEvents(ActiveEvents(events, now), now) == ActiveEvents(events, now)
    decreases |events|
  {
    if |events| > 0 {
      var init := events[..|events| - 1];
      var last := events[|events| - 1];
      ActiveEventsIdempotent(init, now);
      var tail := if IsActive(last, now) then [last] else [];
      ActiveEventsConcat(ActiveEvents(init, now), tail, now);
      if IsActive(last, now) {
        assert ActiveEvents(tail, now) == ActiveEvents([], now) + [last];
      }
    }
  }

  /** Pruning expired events does not change any stock's impact, so the
      pruning done while the first stock is priced does not affect the
      others. */
  lemma {:induction false} EventImpactOfActive(events: seq<MarketEvent>, symbol: string, now: int)
    ensures EventImpact(ActiveEvents(events, now), symbol, now) == EventImpact(events, symbol, now)
    decreases |events|
  {
    if |events| > 0 {
      var init := events[..|events| - 1];
      var last := events[|events| - 1];
      EventImpactOfActive(init, symbol, now);
      if IsActive(last, now) {
        var r := ActiveEvents(init, now) + [last];
        assert r[..|r| - 1] == ActiveEvents(init, now) && r[|r| - 1] == last;
      } else {
        assert ActiveEvents(events, now) == ActiveEvents(init, now) + [] == ActiveEvents(init, now);
      }
    }
  }

  /** A stock that no running event lists has no event impact. */
  lemma {:induction false} EventImpactUnaffected(events: seq<MarketEvent>, symbol: string, now: int)
    requires forall k :: 0 <= k < |events| ==> !Affects(events[k], symbol, now)
    ensures EventImpact(events, symbol, now) == 0.0
    decreases |events|
  {
    if |events| > 0 {
      EventImpactUnaffected(events[..|events| - 1], symbol, now);
    }
  }

  /** A new event adds its impact to each stock it lists while it runs. */
  lemma EventImpactAppend(events: seq<MarketEvent>, e: MarketEvent, symbol: string, now: int)
    ensures EventImpact(events + [e], symbol, now) ==
      EventImpact(events, symbol, now) + (if Affects(e, symbol, now) then e.priceImpact / 100.0 else 0.0)
  {
    assert (events + [e])[..|events|] == events;
  }

  // ---------------------------------------------------------------------
  // Generating an event and its news

  const EventTypes: seq<EventType> := [Earnings, Merger, Crash, Rally, Regulation, ProductLaunch]

  /** The type a draw picks: each of the six types covers a sixth of [0, 1). */
  function EventTypeOf(draw: real): EventType
    requires IsDraw(draw)
  {
    EventTypes[(draw * 6.0).Floor]
  }

  /** Between 1 and 5 stocks are affected. */
  function AffectedCount(draw: real): (r: int)
    requires IsDraw(draw)
    ensures 1 <= r <= 5
  {
    (draw * 5.0).Floor + 1
  }

  datatype EventTemplate = EventTemplate(title: string, description: string, priceImpact: real, duration: int)

  /** The template of an event type, with its impact drawn from `draw`. */
  function Template(kind: EventType, draw: real): EventTemplate {
    match kind
    case Earnings => EventTemplate("Strong Earnings Report", "Company beats analyst expectations", draw * 5.0 + 2.0, 120)
    case Merger => EventTemplate("Merger Announcement", "Major acquisition in progress", draw * 8.0 + 3.0, 240)
    case Crash => EventTemplate("Market Correction", "Sudden price decline", -(draw * 10.0 + 5.0), 180)
    case Rally => EventTemplate("Market Rally", "Strong bullish momentum", draw * 6.0 + 3.0, 150)
    case Regulation => EventTemplate("New Regulation", "Government policy changes", -(draw * 4.0 + 1.0), 200)
    case ProductLaunch => EventTemplate("Product Launch", "New product announcement", draw * 7.0 + 2.0, 180)
  }

  /** Crashes and regulation push prices down, every other event pushes
      them up, by a percentage within the type's range; every event runs
      for two to four hours. */
  lemma TemplateImpact(kind: EventType, draw: real)
    requires IsDraw(draw)
    ensures var t := Template(kind, draw);
      (t.priceImpact < 0.0 <==> kind == Crash || kind == Regulation)
      && (t.priceImpact > 0.0 <==> !(kind == Crash || kind == Regulation))
      && 1.0 <= Abs(t.priceImpact) < 15.0
      && 120 <= t.duration <= 240
      && (kind == Crash ==> 5.0 <= Abs(t.priceImpact))
  {
  }

  /** A permutation of the indices `0 .. n-1`. */
  predicate IsPermutation(p: seq<int>, n: int) {
    |p| == n
    && (forall k :: 0 <= k < |p| ==> 0 <= p[k] < n)
    && (forall a, b :: 0 <= a < b < |p| ==> p[a] != p[b])
  }

  /** getRandomStocks: the first `count` stocks of a shuffle, or all of them
      when there are fewer. */
  function RandomStocks(stocks: seq<Stock>, count: int, shuffle: seq<int>): (r: seq<Stock>)
    requires IsPermutation(shuffle, |stocks|) && count >= 0
    ensures |r| == MinInt(count, |stocks|)
    ensures forall k :: 0 <= k < |r| ==> r[k] in stocks
  {
    seq(MinInt(count, |stocks|), k requires 0 <= k < MinInt(count, |stocks|) => stocks[shuffle[k]])
  }

  /** The symbols of the affected stocks. */
  function Symbols(stocks: seq<Stock>): (r: seq<string>)
    ensures |r| == |stocks|
    ensures forall k :: 0 <= k < |r| ==> r[k] == stocks[k].symbol
  {
    seq(|stocks|, k requires 0 <= k < |stocks| => stocks[k].symbol)
  }

  predicate DistinctSymbols(stocks: seq<Stock>) {
    forall a, b :: 0 <= a < b < |stocks| ==> stocks[a].symbol != stocks[b].symbol
  }

  predicate DistinctStrings(s: seq<string>) {
    forall a, b :: 0 <= a < b < |s| ==> s[a] != s[b]
  }

  /** The event generateMarketEvent creates at `now`. */
  function NewEvent(stocks: seq<Stock>, now: int, d: EventDraws): MarketEvent
    requires IsDraw(d.typeDraw) && IsDraw(d.countDraw) && IsPermutation(d.shuffle, |stocks|)
  {
    var kind := EventTypeOf(d.typeDraw);
    var t := Template(kind, d.impactDraw);
    MarketEvent(kind, t.title, t.description, now,
                Symbols(RandomStocks(stocks, AffectedCount(d.countDraw), d.shuffle)),
                t.priceImpact, t.duration)
  }

  /** A new event lists between one and five stocks (all of them when the
      market has fewer), each a listed stock and none twice when the
      listed symbols are distinct; it is running when created, so the
      stocks it lists feel it in the same tick. */
  lemma NewEventSound(stocks: seq<Stock>, now: int, d: EventDraws)
    requires IsDraw(d.typeDraw) && IsDraw(d.countDraw) && IsDraw(d.impactDraw) && IsPermutation(d.shuffle, |stocks|)
    ensures var e := NewEvent(stocks, now, d);
      1 <= |e.affectedSymbols| <= 5 || (|stocks| == 0 && e.affectedSymbols == [])
    ensures var e := NewEvent(stocks, now, d);
      |e.affectedSymbols| == MinInt(AffectedCount(d.countDraw), |stocks|)
      && (forall k :: 0 <= k < |e.affectedSymbols| ==> e.affectedSymbols[k] in Symbols(stocks))
      && (DistinctSymbols(stocks) ==> DistinctStrings(e.affectedSymbols))
      && e.timestamp == now && IsActive(e, now)
      && (e.priceImpact < 0.0 <==> e.kind == Crash || e.kind == Regulation)
  {
    var e := NewEvent(stocks, now, d);
    var picked := RandomStocks(stocks, AffectedCount(d.countDraw), d.shuffle);
    TemplateImpact(EventTypeOf(d.typeDraw), d.impactDraw);
    assert e.affectedSymbols == Symbols(picked);
    forall k | 0 <= k < |e.affectedSymbols|
      ensures e.affectedSymbols[k] in Symbols(stocks)
    {
      var j := d.shuffle[k];
      assert picked[k] == stocks[j] && Symbols(stocks)[j] == stocks[j].symbol;
    }
    if DistinctSymbols(stocks) {
      forall a, b | 0 <= a < b < |e.affectedSymbols|
        ensures e.affectedSymbols[a] != e.affectedSymbols[b]
      {
        var i, j := d.shuffle[a], d.shuffle[b];
        assert picked[a] == stocks[i] && picked[b] == stocks[j] && i != j;
        if i < j {
          assert stocks[i].symbol != stocks[j].symbol;
        } else {
          assert stocks[j].symbol != stocks[i].symbol;
        }
      }
    }
  }

  /** generateNews: the news item reporting an event. */
  function NewsOf(e: MarketEvent): (n: NewsItem)
    ensures n.title == e.title && n.content == e.description && n.timestamp == e.timestamp
    ensures n.affectedSymbols == e.affectedSymbols
  {
    NewsItem(e.title, e.description, e.timestamp, e.affectedSymbols,
             if e.priceImpact > 0.0 then PositiveImpact else NegativeImpact,
             if Abs(e.priceImpact) > 5.0 then HighSeverity
             else if Abs(e.priceImpact) > 2.0 then MediumSeverity
             else LowSeverity)
  }

  /** The news of an event is positive exactly when the event raises
      prices, and never neutral; its severity grows with the size of the
      impact, above 2% medium and above 5% high. */
  lemma NewsOfClassification(e: MarketEvent)
    ensures NewsOf(e).impact == PositiveImpact <==> e.priceImpact > 0.0
    ensures NewsOf(e).impact == NegativeImpact <==> e.priceImpact <= 0.0
    ensures NewsOf(e).severity == HighSeverity <==> Abs(e.priceImpact) > 5.0
    ensures NewsOf(e).severity == MediumSeverity <==> 2.0 < Abs(e.priceImpact) <= 5.0
    ensures NewsOf(e).severity == LowSeverity <==> Abs(e.priceImpact) <= 2.0
  {
  }

  /** A larger impact is never reported as less severe. */
  lemma SeverityMonotone(e1: MarketEvent, e2: MarketEvent)
    requires Abs(e1.priceImpact) <= Abs(e2.priceImpact)
    ensures SeverityRank(NewsOf(e1).severity) <= SeverityRank(NewsOf(e2).severity)
  {
  }

  function SeverityRank(s: Severity): int {
    match s
    case LowSeverity => 0
    case MediumSeverity => 1
    case HighSeverity => 2
  }

  /** A generated crash is bad news of high severity, except when its draw
      is exactly 0: its impact is then -5%, reported as medium. */
  lemma CrashNews(stocks: seq<Stock>, now: int, d: EventDraws)
    requires IsDraw(d.typeDraw) && IsDraw(d.countDraw) && IsDraw(d.impactDraw) && IsPermutation(d.shuffle, |stocks|)
    requires EventTypeOf(d.typeDraw) == Crash
    ensures NewsOf(NewEvent(stocks, now, d)).impact == NegativeImpact
    ensures NewsOf(NewEvent(stocks, now, d)).severity == (if d.impactDraw == 0.0 then MediumSeverity else HighSeverity)
  {
  }

  /** The news feed after a new item: the item first, then the previous
      items, keeping at most 50. */
  function PrependNews(news: seq<NewsItem>, item: NewsItem): (r: seq<NewsItem>)
    ensures |r| == MinInt(|news| + 1, NewsCap)
    ensures r[0] == item && r[1..] == news[..|r| - 1]
  {
    ([item] + news)[..MinInt(|news| + 1, NewsCap)]
  }

  // ---------------------------------------------------------------------
  // A tick, as a function of the state before it

  /** The events a tick's stocks see: the old ones, plus the new event when
      the roll falls under the event probability. */
  function TickEvents(stocks: seq<Stock>, events: seq<MarketEvent>, now: int, d: TickDraws, probability: real): seq<MarketEvent>
    requires IsDraw(d.event.typeDraw) && IsDraw(d.event.countDraw) && IsPermutation(d.event.shuffle, |stocks|)
  {
    if d.eventRoll < probability then events + [NewEvent(stocks, now, d.event)] else events
  }

  /** Every stock moved one tick against the same events and clock. */
  function TickStocks(stocks: seq<Stock>, isOpen: bool, sentiment: Sentiment, events: seq<MarketEvent>, now: int,
                      perStock: seq<StockDraws>): (r: seq<Stock>)
    requires |perStock| == |stocks|
    requires forall i :: 0 <= i < |stocks| ==> |stocks[i].priceHistory| > 0
    ensures |r| == |stocks|
  {
    seq(|stocks|, i requires 0 <= i < |stocks| =>
      NextStock(stocks[i], isOpen, sentiment, EventImpact(events, stocks[i].symbol, now), now, perStock[i]))
  }

  lemma TickStocksSnoc(stocks: seq<Stock>, x: Stock, isOpen: bool, sentiment: Sentiment, events: seq<MarketEvent>,
                       now: int, perStock: seq<StockDraws>, dx: StockDraws)
    requires |perStock| == |stocks|
    requires forall i :: 0 <= i < |stocks| ==> |stocks[i].priceHistory| > 0
    requires |x.priceHistory| > 0
    ensures TickStocks(stocks + [x], isOpen, sentiment, events, now, perStock + [dx]) ==
      TickStocks(stocks, isOpen, sentiment, events, now, perStock)
      + [NextStock(x, isOpen, sentiment, EventImpact(events, x.symbol, now), now, dx)]
  {
    var s := stocks + [x];
    assert forall i :: 0 <= i < |s| ==> |s[i].priceHistory| > 0;
  }

  /** One step of the map over the stocks: the events the step sees, pruned
      or not, give the stock the same impact, and pruning them again changes
      nothing. */
  lemma TickStep(stocks: seq<Stock>, perStock: seq<StockDraws>, i: int, isOpen: bool, sentiment: Sentiment,
                 seen: seq<MarketEvent>, current: seq<MarketEvent>, now: int)
    requires 0 <= i < |stocks| == |perStock|
    requires forall k :: 0 <= k < |stocks| ==> |stocks[k].priceHistory| > 0
    requires current == seen || current == ActiveEvents(seen, now)
    ensures ActiveEvents(current, now) == ActiveEvents(seen, now)
    ensures TickStocks(stocks[..i + 1], isOpen, sentiment, seen, now, perStock[..i + 1]) ==
      TickStocks(stocks[..i], isOpen, sentiment, seen, now, perStock[..i])
      + [NextStock(stocks[i], isOpen, sentiment, EventImpact(current, stocks[i].symbol, now), now, perStock[i])]
  {
    EventImpactOfActive(seen, stocks[i].symbol, now);
    ActiveEventsIdempotent(seen, now);
    assert stocks[..i + 1] == stocks[..i] + [stocks[i]];
    assert perStock[..i + 1] == perStock[..i] + [perStock[i]];
    TickStocksSnoc(stocks[..i], stocks[i], isOpen, sentiment, seen, now, perStock[..i], perStock[i]);
  }

  /** A tick keeps the stocks, their order and their symbols; every price is
      at least 0.01, and distinct symbols stay distinct. */
  lemma TickStocksKeepListing(stocks: seq<Stock>, isOpen: bool, sentiment: Sentiment, events: seq<MarketEvent>, now: int,
                              perStock: seq<StockDraws>)
    requires |perStock| == |stocks|
    requires forall i :: 0 <= i < |stocks| ==> |stocks[i].priceHistory| > 0
    ensures var r := TickStocks(stocks, isOpen, sentiment, events, now, perStock);
      (forall i :: 0 <= i < |r| ==>
        r[i].symbol == stocks[i].symbol && r[i].previousClose == stocks[i].previousClose
        && r[i].volatility == stocks[i].volatility && r[i].price >= MinPrice
        && |r[i].priceHistory| > 0)
      && (DistinctSymbols(stocks) ==> DistinctSymbols(r))
  {
    var r := TickStocks(stocks, isOpen, sentiment, events, now, perStock);
    forall i | 0 <= i < |r|
      ensures |r[i].priceHistory| > 0
    {
      var s := stocks[i];
      assert |s.priceHistory| > 0;
    }
  }

  /** Every stock has a price history, and none is longer than the cap plus
      the point a tick appends. */
  predicate HistoriesBounded(stocks: seq<Stock>) {
    forall i :: 0 <= i < |stocks| ==> 0 < |stocks[i].priceHistory| <= HistoryCap + 1
  }

  /** A tick keeps every history non-empty and within the cap plus one. */
  lemma TickStocksBoundHistories(stocks: seq<Stock>, isOpen: bool, sentiment: Sentiment, events: seq<MarketEvent>,
                                 now: int, perStock: seq<StockDraws>)
    requires |perStock| == |stocks| && HistoriesBounded(stocks)
    ensures HistoriesBounded(TickStocks(stocks, isOpen, sentiment, events, now, perStock))
  {
    var r := TickStocks(stocks, isOpen, sentiment, events, now, perStock);
    forall i | 0 <= i < |r|
      ensures 0 < |r[i].priceHistory| <= HistoryCap + 1
    {
      var s, d := stocks[i], perStock[i];
      var newPrice := WalkedPrice(s.price, TickVolatility(s.volatility, isOpen), sentiment, d.walk);
      var finalPrice := FinalPrice(newPrice, EventImpact(events, s.symbol, now));
      assert r[i] == NextStock(s, isOpen, sentiment, EventImpact(events, s.symbol, now), now, d);
      assert r[i].priceHistory == ThrottledHistory(s.priceHistory, now, TickPoint(now, s.price, finalPrice, d.pointVolume));
      ThrottledHistorySpec(s.priceHistory, now, s.price, finalPrice, d.pointVolume);
    }
  }

  /** The stocks initializeStocks lists, a year of daily points each, are
      within the bound the engine starts from. */
  lemma InitialStocksBounded(now: int, draws: seq<seq<Stocks.DayDraws>>)
    requires |draws| == |Catalog.InitialStocks|
    requires forall i :: 0 <= i < |draws| ==> |draws[i]| == Stocks.DefaultDays + 1
    ensures HistoriesBounded(Stocks.InitializeStocks(now, draws))
  {
  }

  // ---------------------------------------------------------------------
  // The engine

  class MarketEngine {
    var stocks: seq<Stock>
    var marketState: MarketState
    var events: seq<MarketEvent>
    var news: seq<NewsItem>
    /** The chance of an event per tick. */
    const eventProbability: real

    /** The news feed never exceeds its cap, and every stock has a history
        (the tick reads its last point) of at most 1001 points. */
    predicate Valid()
      reads this
    {
      |news| <= NewsCap && HistoriesBounded(stocks)
    }

    /** The constructor and initializeMarketState. */
    constructor (stocks: seq<Stock>, clock: WallClock)
      requires HistoriesBounded(stocks)
      ensures Valid()
      ensures this.stocks == stocks && events == [] && news == [] && eventProbability == 0.001
      ensures marketState == MarketState(IsMarketOpen(clock), clock.now, clock.todayOpen, clock.todayClose, clock.now, Neutral)
    {
      this.stocks := stocks;
      marketState := MarketState(IsMarketOpen(clock), clock.now, clock.todayOpen, clock.todayClose, clock.now, Neutral);
      events := [];
      news := [];
      eventProbability := 0.001;
    }

    /** updatePrices: stamp the clock, maybe generate an event, then move
        every stock one tick. */
    method UpdatePrices(clock: WallClock, d: TickDraws) returns (r: seq<Stock>)
      requires Valid()
      requires |d.perStock| == |stocks|
      requires IsDraw(d.event.typeDraw) && IsDraw(d.event.countDraw) && IsPermutation(d.event.shuffle, |stocks|)
      modifies this
      ensures Valid()
      ensures marketState == old(marketState).(isOpen := IsMarketOpen(clock), currentTime := clock.now,
                                               lastUpdateTime := clock.now)
      ensures var seen := TickEvents(old(stocks), old(events), clock.now, d, eventProbability);
        && stocks == TickStocks(old(stocks), IsMarketOpen(clock), old(marketState).marketSentiment, seen, clock.now, d.perStock)
        && events == (if |old(stocks)| > 0 then ActiveEvents(seen, clock.now) else seen)
      ensures news == if d.eventRoll < eventProbability
        then PrependNews(old(news), NewsOf(NewEvent(old(stocks), clock.now, d.event))) else old(news)
      ensures r == stocks
    {
      var now := clock.now;
      marketState := marketState.(currentTime := now);
      marketState := marketState.(isOpen := IsMarketOpen(clock));
      marketState := marketState.(lastUpdateTime := now);
      if d.eventRoll < eventProbability {
        GenerateMarketEvent(now, d.event);
      }
      ghost var seen := events;
      ghost var before := stocks;
      stocks := UpdateEachStock(now, d.perStock);
      TickStocksBoundHistories(before, marketState.isOpen, marketState.marketSentiment, seen, now, d.perStock);
      r := stocks;
    }

    /** `this.stocks.map(stock => this.updateStockPrice(stock))`: every stock
        moved one tick, in order, against the current events; the first
        stock's update prunes the expired events. */
    method UpdateEachStock(now: int, perStock: seq<StockDraws>) returns (updated: seq<Stock>)
      requires |perStock| == |stocks|
      requires forall i :: 0 <= i < |stocks| ==> |stocks[i].priceHistory| > 0
      modifies this
      ensures stocks == old(stocks) && marketState == old(marketState) && news == old(news)
      ensures updated == TickStocks(stocks, marketState.isOpen, marketState.marketSentiment, old(events), now, perStock)
      ensures forall i :: 0 <= i < |updated| ==> |updated[i].priceHistory| > 0
      ensures events == if |stocks| > 0 then ActiveEvents(old(events), now) else old(events)
    {
      ghost var seen := events;
      updated := [];
      var i := 0;
      while i < |stocks|
        invariant 0 <= i <= |stocks|
        invariant stocks == old(stocks) && marketState == old(marketState) && news == old(news)
        invariant events == if i == 0 then seen else ActiveEvents(seen, now)
        invariant updated == TickStocks(stocks[..i], marketState.isOpen, marketState.marketSentiment, seen, now, perStock[..i])
      {
        ghost var current := events;
        var next := UpdateStockPrice(stocks[i], now, perStock[i]);
        TickStep(stocks, perStock, i, marketState.isOpen, marketState.marketSentiment, seen, current, now);
        updated := updated + [next];
        i := i + 1;
      }
      assert stocks[..i] == stocks && perStock[..i] == perStock;
      TickStocksKeepListing(stocks, marketState.isOpen, marketState.marketSentiment, seen, now, perStock);
    }

    /** updateStockPrice, against the current events, which it prunes. */
    method UpdateStockPrice(stock: Stock, now: int, d: StockDraws) returns (r: Stock)
      requires |stock.priceHistory| > 0
      modifies this
      ensures r == NextStock(stock, marketState.isOpen, marketState.marketSentiment, EventImpact(old(events), stock.symbol, now), now, d)
      ensures events == ActiveEvents(old(events), now)
      ensures stocks == old(stocks) && marketState == old(marketState) && news == old(news)
    {
      var baseVolatility := BaseVolatility(stock.volatility);
      var volatility := if marketState.isOpen then baseVolatility else baseVolatility * 0.3;
      // the random walk with its drift, and the sentiment
      var newPrice := WalkedPrice(stock.price, volatility, marketState.marketSentiment, d.walk);
      var eventImpact := GetEventImpact(stock.symbol, now);
      var finalPrice := FinalPrice(newPrice, eventImpact);
      var lastPoint := stock.priceHistory[|stock.priceHistory| - 1];
      var newPriceHistory := stock.priceHistory;
      if now - lastPoint.timestamp >= PointInterval {
        var newPoint := TickPoint(now, stock.price, finalPrice, d.pointVolume);
        newPriceHistory := KeepLast(stock.priceHistory, HistoryCap) + [newPoint];
      }
      var dayChange := finalPrice - stock.previousClose;
      var dayChangePercent := Quotient(dayChange, stock.previousClose) * 100.0;
      r := stock.(price := finalPrice, dayChange := dayChange, dayChangePercent := dayChangePercent,
                  priceHistory := newPriceHistory, volume := stock.volume + (d.volumeBump * 100000.0).Floor);
    }

    /** getEventImpact: the summed impact of the running events listing
        `symbol`; expired events are dropped. */
    method GetEventImpact(symbol: string, now: int) returns (totalImpact: real)
      modifies this
      ensures totalImpact == EventImpact(old(events), symbol, now)
      ensures events == ActiveEvents(old(events), now)
      ensures stocks == old(stocks) && marketState == old(marketState) && news == old(news)
    {
      totalImpact := 0.0;
      var i := 0;
      while i < |events|
        invariant 0 <= i <= |events|
        invariant totalImpact == EventImpact(events[..i], symbol, now)
      {
        var event := events[i];
        var isActive := now < event.timestamp + event.duration * MsPerMinute;
        var isAffected := symbol in event.affectedSymbols;
        if isActive && isAffected {
          totalImpact := totalImpact + event.priceImpact / 100.0;
        }
        assert events[..i + 1][..i] == events[..i];
        i := i + 1;
      }
      assert events[..i] == events;
      events := ActiveEvents(events, now);
    }

    /** generateMarketEvent: a new event over a random pick of the stocks,
        appended to the events and reported in the news. */
    method GenerateMarketEvent(now: int, d: EventDraws)
      requires |news| <= NewsCap
      requires IsDraw(d.typeDraw) && IsDraw(d.countDraw) && IsPermutation(d.shuffle, |stocks|)
      modifies this
      ensures stocks == old(stocks) && marketState == old(marketState)
      ensures events == old(events) + [NewEvent(old(stocks), now, d)]
      ensures news == PrependNews(old(news), NewsOf(NewEvent(old(stocks), now, d)))
    {
      var kind := EventTypes[(d.typeDraw * 6.0).Floor];
      var affectedCount := (d.countDraw * 5.0).Floor + 1;
      var affectedSymbols := Symbols(RandomStocks(stocks, affectedCount, d.shuffle));
      var template := Template(kind, d.impactDraw);
      var event := MarketEvent(kind, template.title, template.description, now, affectedSymbols,
                               template.priceImpact, template.duration);
      assert event == NewEvent(stocks, now, d);
      events := events + [event];
      GenerateNews(event);
    }

    /** generateNews: report the event at the head of the news feed,
        keeping the 50 most recent items. */
    method GenerateNews(event: MarketEvent)
      modifies this
      ensures news == PrependNews(old(news), NewsOf(event))
      ensures stocks == old(stocks) && marketState == old(marketState) && events == old(events)
    {
      var item := NewsOf(event);
      news := [item] + news;
      news := news[..MinInt(|news|, NewsCap)];
    }

    /** setMarketSentiment. */
    method SetMarketSentiment(sentiment: Sentiment)
      modifies this
      ensures marketState == old(marketState).(marketSentiment := sentiment)
      ensures stocks == old(stocks) && events == old(events) && news == old(news)
    {
      marketState := marketState.(marketSentiment := sentiment);
    }
  }

  /** The module-level singleton slot of getMarketEngine and
      resetMarketEngine. */
  class EngineSlot {
    var instance: MarketEngine?

    constructor ()
      ensures instance == null
    {
      instance := null;
    }

    /** getMarketEngine: create the engine on the first call that passes
        stocks; afterwards always return that engine. Before an engine
        exists, a call without stocks returns null. */
    method GetMarketEngine(stocks: Option<seq<Stock>>, clock: WallClock) returns (e: MarketEngine?)
      requires stocks.Some? ==> HistoriesBounded(stocks.value)
      modifies this
      ensures old(instance) != null ==> e == old(instance) && instance == old(instance)
      ensures old(instance) == null && stocks.None? ==> e == null && instance == null
      ensures old(instance) == null && stocks.Some? ==>
        e != null && fresh(e) && instance == e && e.stocks == stocks.value && e.Valid()
        && e.events == [] && e.news == [] && e.eventProbability == 0.001
        && e.marketState == MarketState(IsMarketOpen(clock), clock.now, clock.todayOpen, clock.todayClose, clock.now, Neutral)
    {
      if instance == null && stocks.Some? {
        instance := new MarketEngine(stocks.value, clock);
      }
      e := instance;
    }

    /** resetMarketEngine. */
    method ResetMarketEngine()
      modifies this
      ensures instance == null
    {
      instance := null;
    }
  }
}
