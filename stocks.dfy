/** The synthetic price history the market starts from and the listing of
    the catalog (app/lib/stocks.ts). `Math.random()` and `Date.now()` are parameters: a
    history is generated from one `DayDraws` record per day and one clock
    reading. */
module Stocks {
  import opened Types
  import opened Numeric
  import opened Catalog

  // ---------------------------------------------------------------------
  // Initial price history

  const MsPerDay: int := 24 * 60 * 60 * 1000
  const DefaultDays: int := 365

  /** The daily volatility of each volatility class. */
  function DailyVolatility(v: Volatility): (r: real)
    ensures 0.0 < r <= 0.04
  {
    match v
    case LowVolatility => 0.01
    case MediumVolatility => 0.02
    case HighVolatility => 0.04
  }

  /** The five `Math.random()` draws one simulated day consumes, in the order
      the loop body takes them. */
  datatype DayDraws = DayDraws(open: real, change: real, high: real, low: real, volume: real)

  predicate ValidDayDraws(d: DayDraws) {
    IsDraw(d.open) && IsDraw(d.change) && IsDraw(d.high) && IsDraw(d.low) && IsDraw(d.volume)
  }

  /** The candle that opens at `prev` scaled by `fOpen`, closes at the open
      scaled by `fClose`, and whose high and low are the larger and smaller
      of the two scaled by `fHigh` and `fLow`. */
  function Candle(prev: real, fOpen: real, fClose: real, fHigh: real, fLow: real, timestamp: int, volume: int): (p: PricePoint)
    ensures p.timestamp == timestamp && p.price == p.close && p.volume == volume
  {
    var open := prev * fOpen;
    var close := open * fClose;
    PricePoint(timestamp, close, open, Max(open, close) * fHigh, Min(open, close) * fLow, close, volume)
  }

  // The factors one day's draws apply: the open moves from the previous
  // close by up to a quarter of the volatility either way, the day's change
  // is biased slightly upward, and the high and low widen the candle by up
  // to half the volatility.

  function OpenFactor(vol: real, d: DayDraws): real {
    1.0 + (d.open - 0.5) * vol * 0.5
  }

  function CloseFactor(vol: real, d: DayDraws): real {
    1.0 + (d.change - 0.48) * vol
  }

  function HighFactor(vol: real, d: DayDraws): real {
    1.0 + d.high * vol * 0.5
  }

  function LowFactor(vol: real, d: DayDraws): real {
    1.0 - d.low * vol * 0.5
  }

  function DayVolume(d: DayDraws): int {
    (d.volume * 50000000.0 + 10000000.0).Floor
  }

  /** The candle of one day that opens near `prev`, the previous close. */
  function DayPoint(prev: real, vol: real, timestamp: int, d: DayDraws): (p: PricePoint)
    ensures p.timestamp == timestamp && p.price == p.close
  {
    Candle(prev, OpenFactor(vol, d), CloseFactor(vol, d), HighFactor(vol, d), LowFactor(vol, d), timestamp, DayVolume(d))
  }

  /** A candle whose shape is consistent: it trades at its close, its low and
      high bracket its open and close, its prices are positive and its volume
      lies in the generated range. */
  predicate WellFormedPoint(p: PricePoint) {
    p.price == p.close
    && 0.0 < p.low <= Min(p.open, p.close)
    && Max(p.open, p.close) <= p.high
    && 10000000 <= p.volume < 60000000
  }

  /** A draw shifted by `c` and scaled by a volatility of at most 0.04 stays
      within `[-0.04 * c, 0.04 * (1 - c)]`. */
  lemma ScaledDraw(x: real, c: real, vol: real)
    requires IsDraw(x) && 0.0 <= c <= 1.0 && 0.0 < vol <= 0.04
    ensures -0.04 * c <= (x - c) * vol <= 0.04 * (1.0 - c)
  {
    var t := x - c;
    if t >= 0.0 {
      NonNegativeProduct(t, vol);
      NonNegativeProduct(t, 0.04 - vol);
      assert t * vol <= t * 0.04;
    } else {
      NonNegativeProduct(-t, vol);
      NonNegativeProduct(-t, 0.04 - vol);
      assert t * 0.04 <= t * vol;
    }
  }

  /** A candle scaled from a positive price by positive open and close
      factors, a high factor of at least 1 and a low factor in (0, 1], is
      well formed when its volume is in range. */
  lemma CandleShape(prev: real, fOpen: real, fClose: real, fHigh: real, fLow: real, timestamp: int, volume: int)
    requires prev > 0.0 && fOpen > 0.0 && fClose > 0.0 && fHigh >= 1.0 && 0.0 < fLow <= 1.0
    requires 10000000 <= volume < 60000000
    ensures WellFormedPoint(Candle(prev, fOpen, fClose, fHigh, fLow, timestamp, volume))
    ensures Candle(prev, fOpen, fClose, fHigh, fLow, timestamp, volume).open > 0.0
  {
    var open := prev * fOpen;
    var close := open * fClose;
    assert open > 0.0;
    assert close > 0.0;
    var hi := Max(open, close);
    var lo := Min(open, close);
    NonNegativeProduct(hi, fHigh - 1.0);
    assert hi * fHigh - hi == hi * (fHigh - 1.0);
    assert hi <= hi * fHigh;
    NonNegativeProduct(lo, 1.0 - fLow);
    assert lo - lo * fLow == lo * (1.0 - fLow);
    assert lo * fLow <= lo;
    assert lo * fLow > 0.0;
  }

  /** The factors valid draws produce keep a candle well formed. */
  lemma DayFactors(vol: real, d: DayDraws)
    requires 0.0 < vol <= 0.04 && ValidDayDraws(d)
    ensures OpenFactor(vol, d) > 0.0 && CloseFactor(vol, d) > 0.0
    ensures HighFactor(vol, d) >= 1.0 && 0.0 < LowFactor(vol, d) <= 1.0
    ensures 10000000 <= DayVolume(d) < 60000000
  {
    ScaledDraw(d.open, 0.5, vol);
    ScaledDraw(d.change, 0.48, vol);
    ScaledDraw(d.high, 0.0, vol);
    ScaledDraw(d.low, 0.0, vol);
    assert 10000000.0 <= d.volume * 50000000.0 + 10000000.0 < 60000000.0;
    assert 1.0 + (d.open - 0.5) * vol * 0.5 > 0.0;
    assert 1.0 + (d.change - 0.48) * vol > 0.0;
    assert 0.0 <= d.high * vol <= 0.04;
    assert 0.0 <= d.low * vol <= 0.04;
  }

  /** A day built from valid draws on a positive previous close is a
      well-formed candle with a positive open. */
  lemma DayPointWellFormed(prev: real, vol: real, timestamp: int, d: DayDraws)
    requires prev > 0.0 && 0.0 < vol <= 0.04 && ValidDayDraws(d)
    ensures WellFormedPoint(DayPoint(prev, vol, timestamp, d))
    ensures DayPoint(prev, vol, timestamp, d).open > 0.0
  {
    DayFactors(vol, d);
    CandleShape(prev, OpenFactor(vol, d), CloseFactor(vol, d), HighFactor(vol, d), LowFactor(vol, d), timestamp, DayVolume(d));
  }

  /** One step of the walk. */
  lemma WalkStep(prev: real, vol: real, now: int, draws: seq<DayDraws>)
    requires |draws| > 0
    ensures Walk(prev, vol, now, draws) ==
      [DayPoint(prev, vol, now - (|draws| - 1) * MsPerDay, draws[0])]
      + Walk(DayPoint(prev, vol, now - (|draws| - 1) * MsPerDay, draws[0]).close, vol, now, draws[1..])
  {
  }

  /** The history a walk from `prev` produces, one candle per draw record;
      the last candle is stamped `now` and each earlier one a day before the
      next. */
  function Walk(prev: real, vol: real, now: int, draws: seq<DayDraws>): (r: seq<PricePoint>)
    ensures |r| == |draws|
    decreases |draws|
  {
    if |draws| == 0 then []
    else
      var p := DayPoint(prev, vol, now - (|draws| - 1) * MsPerDay, draws[0]);
      [p] + Walk(p.close, vol, now, draws[1..])
  }

  /** Candle k is stamped `|draws| - 1 - k` days before `now`: the stamps rise
      strictly, a day apart, and the last one is `now`. */
  lemma {:induction false} WalkTimestamps(prev: real, vol: real, now: int, draws: seq<DayDraws>)
    ensures forall k :: 0 <= k < |draws| ==>
      Walk(prev, vol, now, draws)[k].timestamp == now - (|draws| - 1 - k) * MsPerDay
    decreases |draws|
  {
    if |draws| > 0 {
      WalkTimestamps(DayPoint(prev, vol, now - (|draws| - 1) * MsPerDay, draws[0]).close, vol, now, draws[1..]);
    }
  }

  /** The walk is continuous: candle 0 opens from `prev` and every later candle
      opens from the close of the one before it, using its own day's draws. */
  lemma {:induction false} WalkContinuity(prev: real, vol: real, now: int, draws: seq<DayDraws>)
    requires |draws| > 0
    ensures Walk(prev, vol, now, draws)[0] == DayPoint(prev, vol, now - (|draws| - 1) * MsPerDay, draws[0])
    ensures forall k :: 0 < k < |draws| ==>
      Walk(prev, vol, now, draws)[k] ==
        DayPoint(Walk(prev, vol, now, draws)[k - 1].close, vol, now - (|draws| - 1 - k) * MsPerDay, draws[k])
    decreases |draws|
  {
    var r := Walk(prev, vol, now, draws);
    var p := DayPoint(prev, vol, now - (|draws| - 1) * MsPerDay, draws[0]);
    if |draws| > 1 {
      var rest := draws[1..];
      WalkContinuity(p.close, vol, now, rest);
      forall k | 0 < k < |draws|
        ensures r[k] == DayPoint(r[k - 1].close, vol, now - (|draws| - 1 - k) * MsPerDay, draws[k])
      {
        assert r[k] == Walk(p.close, vol, now, rest)[k - 1];
        if k > 1 {
          assert r[k - 1] == Walk(p.close, vol, now, rest)[k - 2];
        }
      }
    }
  }

  /** From a positive start and valid draws, every candle is well formed. */
  lemma {:induction false} WalkWellFormed(prev: real, vol: real, now: int, draws: seq<DayDraws>)
    requires prev > 0.0 && 0.0 < vol <= 0.04
    requires forall k :: 0 <= k < |draws| ==> ValidDayDraws(draws[k])
    ensures forall k :: 0 <= k < |draws| ==> WellFormedPoint(Walk(prev, vol, now, draws)[k])
    decreases |draws|
  {
    if |draws| > 0 {
      var p := DayPoint(prev, vol, now - (|draws| - 1) * MsPerDay, draws[0]);
      DayPointWellFormed(prev, vol, now - (|draws| - 1) * MsPerDay, draws[0]);
      WalkWellFormed(p.close, vol, now, draws[1..]);
    }
  }

  /** One turn of the history loop: the candle of day `|history|` joins the
      history and the walk goes on from its close. */
  lemma WalkAdvance(history: seq<PricePoint>, price: real, vol: real, now: int, draws: seq<DayDraws>)
    requires |history| < |draws|
    ensures var p := DayPoint(price, vol, now - (|draws| - 1 - |history|) * MsPerDay, draws[|history|]);
      history + Walk(price, vol, now, draws[|history|..])
      == (history + [p]) + Walk(p.close, vol, now, draws[|history| + 1..])
  {
    var rest := draws[|history|..];
    WalkStep(price, vol, now, rest);
    assert rest[1..] == draws[|history| + 1..];
  }

  /** generateInitialPriceHistory: the walk from 80% of the current price over
      `days + 1` days ending today. */
  method GenerateInitialPriceHistory(currentPrice: real, volatility: Volatility, days: int, now: int, draws: seq<DayDraws>)
    returns (history: seq<PricePoint>)
    requires |draws| == if days >= 0 then days + 1 else 0
    ensures history == Walk(currentPrice * 0.8, DailyVolatility(volatility), now, draws)
  {
    var dailyVolatility := DailyVolatility(volatility);
    var price := currentPrice * 0.8;
    history := [];
    var i := days;
    while i >= 0
      invariant days >= 0 ==> i >= -1
      invariant |history| == days - i <= |draws|
      invariant history + Walk(price, dailyVolatility, now, draws[|history|..])
        == Walk(currentPrice * 0.8, dailyVolatility, now, draws)
    {
      var timestamp := now - i * MsPerDay;
      // open, close, high, low and volume of the day, as DayPoint computes them
      var point := DayPoint(price, dailyVolatility, timestamp, draws[|history|]);
      assert |draws| - 1 - |history| == i;
      WalkAdvance(history, price, dailyVolatility, now, draws);
      history := history + [point];
      price := point.close;
      i := i - 1;
    }
    assert draws[|history|..] == [];
  }

  // ---------------------------------------------------------------------
  // initializeStocks

  /** The listed stock of a catalog row with the given history. */
  function ListedStock(e: CatalogEntry, history: seq<PricePoint>): Stock {
    var dayChange := e.price - e.previousClose;
    Stock(e.symbol, e.name, e.price, e.previousClose, dayChange, Quotient(dayChange, e.previousClose) * 100.0,
          e.volume, e.marketCap, e.sector, e.volatility, history, e.description)
  }

  predicate DistinctStockSymbols(s: seq<Stock>) {
    forall i, j :: 0 <= i < j < |s| ==> s[i].symbol != s[j].symbol
  }

  /** One stock per row of `catalog`, in catalog order, each with a year of
      history drawn from its own draws. */
  function ListCatalog(catalog: seq<CatalogEntry>, now: int, draws: seq<seq<DayDraws>>): (r: seq<Stock>)
    requires |draws| == |catalog|
    requires forall i :: 0 <= i < |draws| ==> |draws[i]| == DefaultDays + 1
    ensures |r| == |catalog|
    ensures forall i :: 0 <= i < |r| ==>
      r[i].symbol == catalog[i].symbol && r[i].price == catalog[i].price
      && r[i].previousClose == catalog[i].previousClose && r[i].volatility == catalog[i].volatility
      && |r[i].priceHistory| == DefaultDays + 1
      && r[i].dayChange == catalog[i].price - catalog[i].previousClose
  {
    seq(|catalog|, i requires 0 <= i < |catalog| =>
      var e := catalog[i];
      ListedStock(e, Walk(e.price * 0.8, DailyVolatility(e.volatility), now, draws[i])))
  }

  /** initializeStocks. */
  function InitializeStocks(now: int, draws: seq<seq<DayDraws>>): seq<Stock>
    requires |draws| == |InitialStocks|
    requires forall i :: 0 <= i < |draws| ==> |draws[i]| == DefaultDays + 1
  {
    ListCatalog(InitialStocks, now, draws)
  }

  /** A stock listed from a row with positive prices and a year of valid
      draws quotes a positive price with a consistent day change percent and
      has a well-formed history ending `now`. */
  predicate SoundListing(s: Stock, now: int) {
    s.price > 0.0 && s.dayChangePercent * s.previousClose == s.dayChange * 100.0
    && |s.priceHistory| == DefaultDays + 1
    && s.priceHistory[DefaultDays].timestamp == now
    && (forall k :: 0 <= k <= DefaultDays ==> WellFormedPoint(s.priceHistory[k]))
  }

  lemma ListedStockSound(e: CatalogEntry, now: int, draws: seq<DayDraws>)
    requires e.price > 0.0 && e.previousClose > 0.0
    requires |draws| == DefaultDays + 1
    requires forall k :: 0 <= k < |draws| ==> ValidDayDraws(draws[k])
    ensures SoundListing(ListedStock(e, Walk(e.price * 0.8, DailyVolatility(e.volatility), now, draws)), now)
  {
    var vol := DailyVolatility(e.volatility);
    WalkTimestamps(e.price * 0.8, vol, now, draws);
    WalkWellFormed(e.price * 0.8, vol, now, draws);
  }

  /** Listing a catalog with positive prices and distinct symbols yields
      stocks with distinct symbols, each listed soundly. */
  lemma ListCatalogSound(catalog: seq<CatalogEntry>, now: int, draws: seq<seq<DayDraws>>)
    requires PricesPositive(catalog) && DistinctSymbols(catalog)
    requires |draws| == |catalog|
    requires forall i :: 0 <= i < |draws| ==> |draws[i]| == DefaultDays + 1
    requires forall i, k :: 0 <= i < |draws| && 0 <= k < |draws[i]| ==> ValidDayDraws(draws[i][k])
    ensures DistinctStockSymbols(ListCatalog(catalog, now, draws))
    ensures forall i :: 0 <= i < |catalog| ==> SoundListing(ListCatalog(catalog, now, draws)[i], now)
  {
    var r := ListCatalog(catalog, now, draws);
    forall i | 0 <= i < |catalog|
      ensures SoundListing(r[i], now)
    {
      ListedStockSound(catalog[i], now, draws[i]);
    }
  }

  /** The initial market: 53 stocks with distinct symbols, each listed
      soundly. */
  lemma InitializeStocksSound(now: int, draws: seq<seq<DayDraws>>)
    requires |draws| == |InitialStocks|
    requires forall i :: 0 <= i < |draws| ==> |draws[i]| == DefaultDays + 1
    requires forall i, k :: 0 <= i < |draws| && 0 <= k < |draws[i]| ==> ValidDayDraws(draws[i][k])
    ensures |InitializeStocks(now, draws)| == 53
    ensures DistinctStockSymbols(InitializeStocks(now, draws))
    ensures forall i :: 0 <= i < 53 ==> SoundListing(InitializeStocks(now, draws)[i], now)
  {
    CatalogWellFormed();
    ListCatalogSound(InitialStocks, now, draws);
  }
}
