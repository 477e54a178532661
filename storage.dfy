/** The persisted state of the simulator (app/lib/storage.ts): the
    portfolio, the transaction log, the watchlist and the user's statistics,
    and the trades that change them.

    The browser's localStorage becomes the fields of a `Store`: reading a key
    that holds nothing yields the default value, which is what the fields
    hold after a reset. `Date.now()` is a `now` parameter. */
module Storage {
  import opened Types
  import opened Numeric
  import opened Wrappers

  /** The fee on every trade: 0.1% of its value. */
  const FeeRate: real := 0.001
  const InitialCash: real := 100000.0

  // ---------------------------------------------------------------------
  // Portfolio

  function DefaultPortfolio(): Portfolio {
    Portfolio(InitialCash, [], InitialCash, 0.0, 0.0, 0.0, 0.0, InitialCash)
  }

  /** The holding `find` returns: the first one with `symbol`. */
  function FindHolding(hs: seq<Holding>, symbol: string): (r: Option<Holding>)
    ensures r.None? <==> forall i :: 0 <= i < |hs| ==> hs[i].symbol != symbol
    ensures r.Some? ==> r.value in hs && r.value.symbol == symbol
    decreases |hs|
  {
    if |hs| == 0 then None
    else if hs[0].symbol == symbol then Some(hs[0])
    else FindHolding(hs[1..], symbol)
  }

  predicate UniqueSymbols(hs: seq<Holding>) {
    forall i, j :: 0 <= i < j < |hs| ==> hs[i].symbol != hs[j].symbol
  }

  /** The invariant trades keep: one holding per symbol, each of a positive
      number of shares whose total cost is its quantity at its average
      cost. */
  predicate ValidPortfolio(p: Portfolio) {
    UniqueSymbols(p.holdings) && forall i :: 0 <= i < |p.holdings| ==> SoundHolding(p.holdings[i])
  }

  predicate SoundHolding(h: Holding) {
    h.quantity > 0 && h.totalCost == h.quantity as real * h.averageCost
  }

  /** With unique symbols, the holding found is the one at its index. */
  lemma {:induction false} FindHoldingAt(hs: seq<Holding>, i: int)
    requires UniqueSymbols(hs) && 0 <= i < |hs|
    ensures FindHolding(hs, hs[i].symbol) == Some(hs[i])
    decreases |hs|
  {
    if i > 0 {
      FindHoldingAt(hs[1..], i - 1);
    }
  }

  /** The value of a trade of `quantity` shares at `price`. */
  function TradeValue(quantity: int, price: real): real {
    quantity as real * price
  }

  function Fee(quantity: int, price: real): real {
    TradeValue(quantity, price) * FeeRate
  }

  /** The holding a first purchase opens. */
  function NewHolding(symbol: string, quantity: int, price: real): Holding {
    Holding(symbol, quantity, price, price, TradeValue(quantity, price), TradeValue(quantity, price), 0.0, 0.0, 0.0, 0.0)
  }

  /** An existing holding after buying more of it: the shares and their
      cost are added, and the average cost is re-derived from them. */
  function AddShares(h: Holding, quantity: int, price: real): Holding {
    var newQuantity := h.quantity + quantity;
    var newTotalCost := h.totalCost + TradeValue(quantity, price);
    h.(quantity := newQuantity, averageCost := Quotient(newTotalCost, newQuantity as real),
       totalCost := newTotalCost, totalValue := newQuantity as real * price)
  }

  /** The holdings after buying: the holding of `symbol`, if any, absorbs the
      shares and their cost; otherwise a new holding is appended. */
  function BuyHoldings(hs: seq<Holding>, symbol: string, quantity: int, price: real): seq<Holding> {
    match FindHolding(hs, symbol)
    case Some(h) =>
      var g := AddShares(h, quantity, price);
      seq(|hs|, i requires 0 <= i < |hs| =>
        if hs[i].symbol == symbol
        then hs[i].(quantity := g.quantity, averageCost := g.averageCost, totalCost := g.totalCost, totalValue := g.totalValue)
        else hs[i])
    case None => hs + [NewHolding(symbol, quantity, price)]
  }

  /** executeBuy on a portfolio: refused (None) exactly when the cash does
      not cover the trade and its fee; otherwise the cash pays both and
      nothing but the cash and the holdings changes. */
  function Buy(p: Portfolio, symbol: string, quantity: int, price: real): (r: Option<Portfolio>)
    ensures r.None? <==> p.cash < TradeValue(quantity, price) + Fee(quantity, price)
    ensures r.Some? ==> r.value.cash == p.cash - (TradeValue(quantity, price) + Fee(quantity, price))
    ensures r.Some? ==> r.value.(cash := p.cash, holdings := p.holdings) == p
  {
    var totalCost := TradeValue(quantity, price);
    var fees := totalCost * FeeRate;
    var totalWithFees := totalCost + fees;
    if p.cash < totalWithFees then None
    else Some(p.(cash := p.cash - totalWithFees, holdings := BuyHoldings(p.holdings, symbol, quantity, price)))
  }

  /** The holdings without `symbol` (`filter`). */
  function RemoveSymbol(hs: seq<Holding>, symbol: string): (r: seq<Holding>)
    ensures |r| <= |hs|
    ensures forall i :: 0 <= i < |r| ==> r[i].symbol != symbol && r[i] in hs
    decreases |hs|
  {
    if |hs| == 0 then []
    else (if hs[0].symbol == symbol then [] else [hs[0]]) + RemoveSymbol(hs[1..], symbol)
  }

  /** A holding after selling part of it: the shares go, and the cost
      they carried at the average cost goes with them. */
  function RemoveShares(h: Holding, quantity: int, price: real): Holding {
    var newQuantity := h.quantity - quantity;
    h.(quantity := newQuantity, totalCost := h.totalCost - h.averageCost * quantity as real,
       totalValue := newQuantity as real * price)
  }

  /** The holdings after selling from holding `h`: a full sale drops the
      holding; a partial one takes the shares out of it. */
  function SellHoldings(hs: seq<Holding>, h: Holding, quantity: int, price: real): seq<Holding> {
    if h.quantity == quantity then RemoveSymbol(hs, h.symbol)
    else
      var g := RemoveShares(h, quantity, price);
      seq(|hs|, i requires 0 <= i < |hs| =>
        if hs[i].symbol == h.symbol
        then hs[i].(quantity := g.quantity, totalCost := g.totalCost, totalValue := g.totalValue)
        else hs[i])
  }

  /** executeSell on a portfolio: refused (None) exactly when there is no
      holding of `symbol` or it has fewer shares than `quantity`; otherwise
      the cash receives the trade's value less the fee and nothing but the
      cash and the holdings changes. */
  function Sell(p: Portfolio, symbol: string, quantity: int, price: real): (r: Option<Portfolio>)
    ensures r.None? <==> FindHolding(p.holdings, symbol).None? || FindHolding(p.holdings, symbol).value.quantity < quantity
    ensures r.Some? ==> r.value.cash == p.cash + (TradeValue(quantity, price) - Fee(quantity, price))
    ensures r.Some? ==> r.value.(cash := p.cash, holdings := p.holdings) == p
  {
    match FindHolding(p.holdings, symbol)
    case None => None
    case Some(h) =>
      if h.quantity < quantity then None
      else
        var totalValue := TradeValue(quantity, price);
        var fees := totalValue * FeeRate;
        Some(p.(cash := p.cash + (totalValue - fees), holdings := SellHoldings(p.holdings, h, quantity, price)))
  }

  /** The log entry of a trade. */
  function TradeRecord(kind: TradeType, symbol: string, stockName: string, quantity: int, price: real, now: int): (t: Transaction)
    ensures t.fees == t.totalValue * FeeRate && t.totalValue == t.quantity as real * t.price
  {
    Transaction(kind, symbol, stockName, quantity, price, now, TradeValue(quantity, price), Fee(quantity, price))
  }

  /** A first buy of a symbol appends a fresh holding of the shares at
      the price, and keeps the portfolio valid. */
  lemma BuyOpensHolding(p: Portfolio, symbol: string, quantity: int, price: real)
    requires ValidPortfolio(p) && quantity > 0 && Buy(p, symbol, quantity, price).Some?
    requires FindHolding(p.holdings, symbol).None?
    ensures var q := Buy(p, symbol, quantity, price).value;
      ValidPortfolio(q)
      && q.holdings == p.holdings + [NewHolding(symbol, quantity, price)]
      && FindHolding(q.holdings, symbol) == Some(NewHolding(symbol, quantity, price))
  {
    var q := Buy(p, symbol, quantity, price).value;
    var hs := p.holdings;
    var nh := NewHolding(symbol, quantity, price);
    assert q.holdings == hs + [nh];
    forall i, j | 0 <= i < j < |hs + [nh]|
      ensures (hs + [nh])[i].symbol != (hs + [nh])[j].symbol
    {
      if j == |hs| {
        assert hs[i].symbol != symbol;
      } else {
        assert hs[i].symbol != hs[j].symbol;
      }
    }
    forall i | 0 <= i < |hs + [nh]|
      ensures SoundHolding((hs + [nh])[i])
    {
      if i < |hs| {
        assert (hs + [nh])[i] == hs[i];
      }
    }
    FindHoldingAt(q.holdings, |hs|);
  }

  /** Adding shares to a sound holding keeps it sound, and its new average
      cost is the quantity-weighted average of the old one and the price. */
  lemma AddSharesSound(h: Holding, quantity: int, price: real)
    requires SoundHolding(h) && quantity > 0
    ensures var g := AddShares(h, quantity, price);
      SoundHolding(g)
      && g.quantity == h.quantity + quantity
      && g.totalCost == h.totalCost + TradeValue(quantity, price)
      && g.averageCost * g.quantity as real == h.quantity as real * h.averageCost + quantity as real * price
  {
    var g := AddShares(h, quantity, price);
    QuotientTimes(g.totalCost, g.quantity as real);
  }

  /** A buy of a symbol already held replaces that holding, in place, by
      the holding with the shares added; the portfolio stays valid. */
  lemma BuyAddsToHolding(p: Portfolio, symbol: string, quantity: int, price: real)
    requires ValidPortfolio(p) && quantity > 0 && Buy(p, symbol, quantity, price).Some?
    requires FindHolding(p.holdings, symbol).Some?
    ensures var q := Buy(p, symbol, quantity, price).value;
      ValidPortfolio(q)
      && |q.holdings| == |p.holdings|
      && FindHolding(q.holdings, symbol) == Some(AddShares(FindHolding(p.holdings, symbol).value, quantity, price))
  {
    var hs := p.holdings;
    var h := FindHolding(hs, symbol).value;
    var g := AddShares(h, quantity, price);
    var qs := Buy(p, symbol, quantity, price).value.holdings;
    assert qs == BuyHoldings(hs, symbol, quantity, price);
    var k :| 0 <= k < |hs| && hs[k] == h;
    assert |qs| == |hs|;
    AddSharesSound(h, quantity, price);
    assert qs[k] == g;
    forall i | 0 <= i < |hs| && i != k
      ensures qs[i] == hs[i]
    {
      assert hs[i].symbol != hs[k].symbol;
    }
    assert UniqueSymbols(qs) by {
      forall i, j | 0 <= i < j < |qs|
        ensures qs[i].symbol != qs[j].symbol
      {
        assert qs[i].symbol == hs[i].symbol && qs[j].symbol == hs[j].symbol;
      }
    }
    forall i | 0 <= i < |qs|
      ensures SoundHolding(qs[i])
    {
      if i != k {
        assert SoundHolding(hs[i]);
      }
    }
    FindHoldingAt(qs, k);
  }

  /** A buy leaves the holding of every other symbol as it was. */
  lemma BuyLeavesOthers(p: Portfolio, symbol: string, quantity: int, price: real, s: string)
    requires Buy(p, symbol, quantity, price).Some? && s != symbol
    ensures FindHolding(Buy(p, symbol, quantity, price).value.holdings, s) == FindHolding(p.holdings, s)
  {
    var hs := p.holdings;
    var qs := Buy(p, symbol, quantity, price).value.holdings;
    if FindHolding(hs, symbol).None? {
      FindHoldingAppend(hs, NewHolding(symbol, quantity, price), s);
    } else {
      FindHoldingSameSymbols(hs, qs, symbol, s);
    }
  }

  lemma {:induction false} FindHoldingAppend(hs: seq<Holding>, x: Holding, s: string)
    requires x.symbol != s
    ensures FindHolding(hs + [x], s) == FindHolding(hs, s)
    decreases |hs|
  {
    if |hs| == 0 {
      assert FindHolding([x], s) == FindHolding([x][1..], s);
    } else {
      assert (hs + [x])[1..] == hs[1..] + [x];
      FindHoldingAppend(hs[1..], x, s);
    }
  }

  /** Two holding lists with the same symbols, agreeing on every holding
      not of `symbol`, find the same holding for any other symbol. */
  lemma {:induction false} FindHoldingSameSymbols(a: seq<Holding>, b: seq<Holding>, symbol: string, s: string)
    requires |a| == |b| && s != symbol
    requires forall i :: 0 <= i < |a| ==> a[i].symbol == b[i].symbol
    requires forall i :: 0 <= i < |a| && a[i].symbol != symbol ==> a[i] == b[i]
    ensures FindHolding(a, s) == FindHolding(b, s)
    decreases |a|
  {
    if |a| > 0 {
      FindHoldingSameSymbols(a[1..], b[1..], symbol, s);
    }
  }

  // ---------------------------------------------------------------------
  // Selling

  /** Taking fewer shares than it holds out of a sound holding keeps it
      sound, at the same average cost. */
  lemma RemoveSharesSound(h: Holding, quantity: int, price: real)
    requires SoundHolding(h) && 0 < quantity < h.quantity
    ensures var g := RemoveShares(h, quantity, price);
      SoundHolding(g)
      && g.quantity == h.quantity - quantity
      && g.averageCost == h.averageCost
      && g.totalCost == h.totalCost - h.averageCost * quantity as real
  {
    var g := RemoveShares(h, quantity, price);
    calc {
      g.totalCost;
      h.quantity as real * h.averageCost - h.averageCost * quantity as real;
      (h.quantity - quantity) as real * h.averageCost;
    }
  }

  /** Filtering a symbol out keeps the symbols unique. */
  lemma {:induction false} RemoveSymbolUnique(hs: seq<Holding>, symbol: string)
    requires UniqueSymbols(hs)
    ensures UniqueSymbols(RemoveSymbol(hs, symbol))
    decreases |hs|
  {
    if |hs| > 0 {
      var tail := RemoveSymbol(hs[1..], symbol);
      RemoveSymbolUnique(hs[1..], symbol);
      if hs[0].symbol != symbol {
        var r := [hs[0]] + tail;
        assert RemoveSymbol(hs, symbol) == r;
        forall i, j | 0 <= i < j < |r|
          ensures r[i].symbol != r[j].symbol
        {
          if i == 0 {
            assert r[j] == tail[j - 1] && tail[j - 1] in hs[1..];
          } else {
            assert r[i] == tail[i - 1] && r[j] == tail[j - 1];
          }
        }
      } else {
        assert RemoveSymbol(hs, symbol) == tail;
      }
    }
  }

  /** Filtering a symbol out does not change which holding any other
      symbol finds. */
  lemma {:induction false} RemoveSymbolFind(hs: seq<Holding>, symbol: string, s: string)
    requires s != symbol
    ensures FindHolding(RemoveSymbol(hs, symbol), s) == FindHolding(hs, s)
    decreases |hs|
  {
    if |hs| > 0 {
      var tail := RemoveSymbol(hs[1..], symbol);
      RemoveSymbolFind(hs[1..], symbol, s);
      if hs[0].symbol == symbol {
        assert RemoveSymbol(hs, symbol) == tail;
      } else {
        var r := [hs[0]] + tail;
        assert RemoveSymbol(hs, symbol) == r;
        assert r[0] == hs[0] && r[1..] == tail;
      }
    }
  }

  /** Filtering a symbol out of holdings that lack it changes nothing. */
  lemma {:induction false} RemoveSymbolAbsent(hs: seq<Holding>, symbol: string)
    requires forall i :: 0 <= i < |hs| ==> hs[i].symbol != symbol
    ensures RemoveSymbol(hs, symbol) == hs
    decreases |hs|
  {
    if |hs| > 0 {
      RemoveSymbolAbsent(hs[1..], symbol);
      assert [hs[0]] + hs[1..] == hs;
    }
  }

  /** With unique symbols, filtering out a held symbol drops exactly one
      holding. */
  lemma {:induction false} RemoveSymbolCount(hs: seq<Holding>, symbol: string)
    requires UniqueSymbols(hs) && FindHolding(hs, symbol).Some?
    ensures |RemoveSymbol(hs, symbol)| == |hs| - 1
    decreases |hs|
  {
    if hs[0].symbol == symbol {
      forall i | 0 <= i < |hs[1..]|
        ensures hs[1..][i].symbol != symbol
      {
        assert hs[0].symbol != hs[i + 1].symbol;
      }
      RemoveSymbolAbsent(hs[1..], symbol);
    } else {
      RemoveSymbolCount(hs[1..], symbol);
    }
  }

  lemma {:induction false} RemoveSymbolAppend(a: seq<Holding>, b: seq<Holding>, symbol: string)
    ensures RemoveSymbol(a + b, symbol) == RemoveSymbol(a, symbol) + RemoveSymbol(b, symbol)
    decreases |a|
  {
    if |a| == 0 {
      assert a + b == b;
    } else {
      assert (a + b)[0] == a[0] && (a + b)[1..] == a[1..] + b;
      RemoveSymbolAppend(a[1..], b, symbol);
      assert RemoveSymbol(a + b, symbol)
        == (if a[0].symbol == symbol then [] else [a[0]]) + RemoveSymbol(a[1..] + b, symbol);
    }
  }

  /** Selling a whole position removes its holding, one holding fewer
      remains, and the portfolio stays valid. */
  lemma SellClosesHolding(p: Portfolio, symbol: string, quantity: int, price: real)
    requires ValidPortfolio(p) && Sell(p, symbol, quantity, price).Some?
    requires FindHolding(p.holdings, symbol).value.quantity == quantity
    ensures var q := Sell(p, symbol, quantity, price).value;
      ValidPortfolio(q)
      && FindHolding(q.holdings, symbol).None?
      && |q.holdings| == |p.holdings| - 1
  {
    var hs := p.holdings;
    var qs := Sell(p, symbol, quantity, price).value.holdings;
    assert qs == RemoveSymbol(hs, symbol);
    RemoveSymbolUnique(hs, symbol);
    RemoveSymbolCount(hs, symbol);
    forall i | 0 <= i < |qs|
      ensures SoundHolding(qs[i])
    {
      assert qs[i] in hs;
    }
  }

  /** Selling part of a position takes the shares and their cost out of
      its holding, in place, at an unchanged average cost; the portfolio
      stays valid. */
  lemma SellReducesHolding(p: Portfolio, symbol: string, quantity: int, price: real)
    requires ValidPortfolio(p) && quantity > 0 && Sell(p, symbol, quantity, price).Some?
    requires FindHolding(p.holdings, symbol).value.quantity != quantity
    ensures var q := Sell(p, symbol, quantity, price).value;
      ValidPortfolio(q)
      && |q.holdings| == |p.holdings|
      && FindHolding(q.holdings, symbol) == Some(RemoveShares(FindHolding(p.holdings, symbol).value, quantity, price))
  {
    var hs := p.holdings;
    var h := FindHolding(hs, symbol).value;
    var g := RemoveShares(h, quantity, price);
    var qs := Sell(p, symbol, quantity, price).value.holdings;
    assert qs == SellHoldings(hs, h, quantity, price);
    var k :| 0 <= k < |hs| && hs[k] == h;
    RemoveSharesSound(h, quantity, price);
    assert qs[k] == g;
    forall i | 0 <= i < |hs| && i != k
      ensures qs[i] == hs[i]
    {
      assert hs[i].symbol != hs[k].symbol;
    }
    assert UniqueSymbols(qs) by {
      forall i, j | 0 <= i < j < |qs|
        ensures qs[i].symbol != qs[j].symbol
      {
        assert qs[i].symbol == hs[i].symbol && qs[j].symbol == hs[j].symbol;
      }
    }
    forall i | 0 <= i < |qs|
      ensures SoundHolding(qs[i])
    {
      if i != k {
        assert SoundHolding(hs[i]);
      }
    }
    FindHoldingAt(qs, k);
  }

  /** A sale leaves the holding of every other symbol as it was. */
  lemma SellLeavesOthers(p: Portfolio, symbol: string, quantity: int, price: real, s: string)
    requires Sell(p, symbol, quantity, price).Some? && s != symbol
    ensures FindHolding(Sell(p, symbol, quantity, price).value.holdings, s) == FindHolding(p.holdings, s)
  {
    var hs := p.holdings;
    var h := FindHolding(hs, symbol).value;
    var qs := Sell(p, symbol, quantity, price).value.holdings;
    if h.quantity == quantity {
      RemoveSymbolFind(hs, symbol, s);
    } else {
      FindHoldingSameSymbols(hs, qs, symbol, s);
    }
  }

  /** Buying shares of a symbol not held and selling them all again at the
      same price restores the holdings and costs exactly the two fees. */
  lemma BuyThenSellRoundTrip(p: Portfolio, symbol: string, quantity: int, price: real)
    requires ValidPortfolio(p) && quantity > 0 && Buy(p, symbol, quantity, price).Some?
    requires FindHolding(p.holdings, symbol).None?
    ensures var q := Buy(p, symbol, quantity, price).value;
      Sell(q, symbol, quantity, price).Some?
      && Sell(q, symbol, quantity, price).value == p.(cash := p.cash - 2.0 * Fee(quantity, price))
  {
    var nh := NewHolding(symbol, quantity, price);
    BuyOpensHolding(p, symbol, quantity, price);
    var q := Buy(p, symbol, quantity, price).value;
    var r := Sell(q, symbol, quantity, price).value;
    assert r.holdings == RemoveSymbol(p.holdings + [nh], symbol);
    RemoveSymbolAppend(p.holdings, [nh], symbol);
    RemoveSymbolAbsent(p.holdings, symbol);
    assert RemoveSymbol([nh], symbol) == [];
  }

  /** A worked case of the weighted average: 10 shares bought at 100 and
      10 more at 120 average 110. */
  lemma WeightedAverageExample()
    ensures AddShares(Holding("ACME", 10, 100.0, 100.0, 1000.0, 1000.0, 0.0, 0.0, 0.0, 0.0), 10, 120.0).averageCost == 110.0
  {
    var g := AddShares(Holding("ACME", 10, 100.0, 100.0, 1000.0, 1000.0, 0.0, 0.0, 0.0, 0.0), 10, 120.0);
    QuotientTimes(2200.0, 20.0);
  }

  // ---------------------------------------------------------------------
  // Valuation (updatePortfolio)

  /** The stock `find` returns: the first one listed under `symbol`. The
      same search as `FindHolding`, over the other record type; `Stock` and
      `Holding` have no common supertype to search once. */
  function FindStock(stocks: seq<Stock>, symbol: string): (r: Option<Stock>)
    ensures r.None? <==> forall i :: 0 <= i < |stocks| ==> stocks[i].symbol != symbol
    ensures r.Some? ==> r.value in stocks && r.value.symbol == symbol
    decreases |stocks|
  {
    if |stocks| == 0 then None
    else if stocks[0].symbol == symbol then Some(stocks[0])
    else FindStock(stocks[1..], symbol)
  }

  /** A holding marked to the price of its stock. The stored total cost is
      left alone: the gain is measured against quantity times average
      cost. */
  function Marked(h: Holding, stock: Stock): Holding {
    var currentPrice := stock.price;
    var totalValue := h.quantity as real * currentPrice;
    var totalCost := h.quantity as real * h.averageCost;
    var gainLoss := totalValue - totalCost;
    var previousPrice := stock.previousClose;
    h.(currentPrice := currentPrice, totalValue := totalValue, gainLoss := gainLoss,
       gainLossPercent := Quotient(gainLoss, totalCost) * 100.0,
       dayChange := (currentPrice - previousPrice) * h.quantity as real,
       dayChangePercent := Quotient(currentPrice - previousPrice, previousPrice) * 100.0)
  }

  /** A holding marked to the price of its stock; a holding whose stock is
      not listed is kept as it is. */
  function Revalue(h: Holding, stocks: seq<Stock>): Holding {
    match FindStock(stocks, h.symbol)
    case None => h
    case Some(stock) => Marked(h, stock)
  }

  function RevalueAll(hs: seq<Holding>, stocks: seq<Stock>): (r: seq<Holding>)
    ensures |r| == |hs|
  {
    seq(|hs|, i requires 0 <= i < |hs| => Revalue(hs[i], stocks))
  }

  /** The sum of the holdings' market values. */
  function HoldingsValue(hs: seq<Holding>): real
    decreases |hs|
  {
    if |hs| == 0 then 0.0 else hs[0].totalValue + HoldingsValue(hs[1..])
  }

  /** The holdings valued at the price each stood at before today's change:
      a holding's day change per share taken back off its current price. */
  function PreviousHoldingsValue(hs: seq<Holding>): real
    decreases |hs|
  {
    if |hs| == 0 then 0.0
    else hs[0].quantity as real * (hs[0].currentPrice - Quotient(hs[0].dayChange, hs[0].quantity as real))
         + PreviousHoldingsValue(hs[1..])
  }

  function DayChangeSum(hs: seq<Holding>): real
    decreases |hs|
  {
    if |hs| == 0 then 0.0 else hs[0].dayChange + DayChangeSum(hs[1..])
  }

  /** updatePortfolio: every holding marked to market, and the portfolio's
      value, all-time return and day change recomputed from them. The cash,
      the initial value and the holdings' order, symbols, quantities, average
      and total costs are kept; a holding with no listed stock is kept whole;
      the day change percentage is 0 when the previous value is not
      positive. */
  function Valuation(p: Portfolio, stocks: seq<Stock>): (r: Portfolio)
    ensures r.cash == p.cash && r.initialValue == p.initialValue
    ensures |r.holdings| == |p.holdings|
    ensures forall i :: 0 <= i < |p.holdings| ==>
      var (h, g) := (p.holdings[i], r.holdings[i]);
      g.symbol == h.symbol && g.quantity == h.quantity && g.averageCost == h.averageCost && g.totalCost == h.totalCost
    ensures forall i :: 0 <= i < |p.holdings| && FindStock(stocks, p.holdings[i].symbol).None? ==> r.holdings[i] == p.holdings[i]
    ensures r.totalValue == p.cash + HoldingsValue(r.holdings)
    ensures r.allTimeReturn == r.totalValue - p.initialValue
    ensures r.dayChange == HoldingsValue(r.holdings) - PreviousHoldingsValue(r.holdings)
    ensures p.cash + PreviousHoldingsValue(r.holdings) <= 0.0 ==> r.dayChangePercent == 0.0
  {
    var holdings := RevalueAll(p.holdings, stocks);
    var totalValue := p.cash + HoldingsValue(holdings);
    var allTimeReturn := totalValue - p.initialValue;
    var previousTotalValue := p.cash + PreviousHoldingsValue(holdings);
    var dayChange := totalValue - previousTotalValue;
    p.(holdings := holdings, totalValue := totalValue, dayChange := dayChange,
       dayChangePercent := if previousTotalValue > 0.0 then Quotient(dayChange, previousTotalValue) * 100.0 else 0.0,
       allTimeReturn := allTimeReturn,
       allTimeReturnPercent := Quotient(allTimeReturn, p.initialValue) * 100.0)
  }

  /** A holding whose stock is listed, once revalued, is worth its shares
      at the stock's price and has moved by its shares times the stock's
      change since the previous close. */
  lemma RevalueListed(h: Holding, stocks: seq<Stock>, st: Stock)
    requires FindStock(stocks, h.symbol) == Some(st)
    ensures var g := Revalue(h, stocks);
      g.currentPrice == st.price
      && g.totalValue == h.quantity as real * st.price
      && g.gainLoss == g.totalValue - h.quantity as real * h.averageCost
      && g.dayChange == (st.price - st.previousClose) * h.quantity as real
  {
    assert Revalue(h, stocks) == Marked(h, st);
  }

  /** When each holding is worth its shares at its current price and holds
      shares, the value gained since the previous close is the sum of the
      holdings' day changes. */
  lemma {:induction false} ValueGainedIsDayChange(hs: seq<Holding>)
    requires forall i :: 0 <= i < |hs| ==> hs[i].quantity > 0 && hs[i].totalValue == hs[i].quantity as real * hs[i].currentPrice
    ensures HoldingsValue(hs) - PreviousHoldingsValue(hs) == DayChangeSum(hs)
    decreases |hs|
  {
    if |hs| > 0 {
      var h := hs[0];
      var q := h.quantity as real;
      var d := Quotient(h.dayChange, q);
      QuotientTimes(h.dayChange, q);
      assert h.totalValue - q * (h.currentPrice - d) == h.dayChange;
      ValueGainedIsDayChange(hs[1..]);
    }
  }

  /** Revalued holdings of listed stocks, each of some shares, are each
      worth their shares at their current price. */
  lemma RevalueAllListed(hs: seq<Holding>, stocks: seq<Stock>)
    requires forall i :: 0 <= i < |hs| ==> hs[i].quantity > 0 && FindStock(stocks, hs[i].symbol).Some?
    ensures var gs := RevalueAll(hs, stocks);
      forall i :: 0 <= i < |gs| ==> gs[i].quantity > 0 && gs[i].totalValue == gs[i].quantity as real * gs[i].currentPrice
  {
    var gs := RevalueAll(hs, stocks);
    forall i | 0 <= i < |gs|
      ensures gs[i].quantity > 0 && gs[i].totalValue == gs[i].quantity as real * gs[i].currentPrice
    {
      RevalueListed(hs[i], stocks, FindStock(stocks, hs[i].symbol).value);
    }
  }

  /** When every held stock is listed, the portfolio's day change is the sum
      of its holdings' day changes, each of which is its shares times its
      stock's change since the previous close (`RevalueListed`). */
  lemma DayChangeOfListedHoldings(p: Portfolio, stocks: seq<Stock>)
    requires ValidPortfolio(p)
    requires forall i :: 0 <= i < |p.holdings| ==> FindStock(stocks, p.holdings[i].symbol).Some?
    ensures Valuation(p, stocks).dayChange == DayChangeSum(Valuation(p, stocks).holdings)
  {
    var hs := RevalueAll(p.holdings, stocks);
    ListedHoldingsWorth(p, stocks);
    ValueGainedIsDayChange(hs);
    assert Valuation(p, stocks).holdings == hs;
  }

  lemma ListedHoldingsWorth(p: Portfolio, stocks: seq<Stock>)
    requires ValidPortfolio(p)
    requires forall i :: 0 <= i < |p.holdings| ==> FindStock(stocks, p.holdings[i].symbol).Some?
    ensures var gs := RevalueAll(p.holdings, stocks);
      forall i :: 0 <= i < |gs| ==> gs[i].quantity > 0 && gs[i].totalValue == gs[i].quantity as real * gs[i].currentPrice
  {
    forall i | 0 <= i < |p.holdings|
      ensures p.holdings[i].quantity > 0
    {
      assert SoundHolding(p.holdings[i]);
    }
    RevalueAllListed(p.holdings, stocks);
  }

  /** Valuation keeps a valid portfolio valid. */
  lemma ValuationKeepsValid(p: Portfolio, stocks: seq<Stock>)
    requires ValidPortfolio(p)
    ensures ValidPortfolio(Valuation(p, stocks))
  {
    var r := Valuation(p, stocks);
    forall i | 0 <= i < |r.holdings|
      ensures SoundHolding(r.holdings[i])
    {
      assert SoundHolding(p.holdings[i]);
    }
  }

  /** Valuing twice against the same prices is valuing once. */
  lemma ValuationIdempotent(p: Portfolio, stocks: seq<Stock>)
    ensures Valuation(Valuation(p, stocks), stocks) == Valuation(p, stocks)
  {
    var r := Valuation(p, stocks);
    var hs := RevalueAll(r.holdings, stocks);
    forall i | 0 <= i < |hs|
      ensures hs[i] == r.holdings[i]
    {
      assert r.holdings[i] == Revalue(p.holdings[i], stocks);
      RevalueIdempotent(p.holdings[i], stocks);
    }
    assert hs == r.holdings;
  }

  /** Marking a holding to the same prices twice is marking it once. */
  lemma RevalueIdempotent(h: Holding, stocks: seq<Stock>)
    ensures Revalue(Revalue(h, stocks), stocks) == Revalue(h, stocks)
  {
    match FindStock(stocks, h.symbol)
    case None =>
    case Some(st) =>
      var g := Marked(h, st);
      assert g.symbol == h.symbol && g.quantity == h.quantity && g.averageCost == h.averageCost;
      assert Revalue(g, stocks) == Marked(g, st);
  }

  /** The starting portfolio is already valued: valuation leaves it as it
      is. */
  lemma DefaultPortfolioValued(stocks: seq<Stock>)
    ensures Valuation(DefaultPortfolio(), stocks) == DefaultPortfolio()
  {
    var p := DefaultPortfolio();
    assert RevalueAll(p.holdings, stocks) == [];
  }

  // ---------------------------------------------------------------------
  // User statistics (updateUserStats)

  function DefaultUserStats(): UserStats {
    UserStats(1, 0, 1000, 0, 0, 0.0, 0.0, 0.0, 0.0, 0.0, 0, 0, [])
  }

  /** The experience a trade earns: a tenth of its profit or loss, at
      least 10. */
  function XpGain(profit: real): (r: int)
    ensures r >= 10
    ensures r >= (Abs(profit) / 10.0).Floor
    ensures r == 10 || r == (Abs(profit) / 10.0).Floor
  {
    MaxInt(10, (Abs(profit) / 10.0).Floor)
  }

  /** The statistics after recording a trade's profit, before any level-up:
      the trade is counted; a profit extends the streak and is added to the
      profits, anything else adds its size to the losses and ends the
      streak; the win rate, best and worst trade follow, and the experience
      grows by `XpGain`. */
  function Record(stats: UserStats, profit: real): (r: UserStats)
    ensures r.totalTrades == stats.totalTrades + 1
    ensures profit > 0.0 ==> r.currentStreak == stats.currentStreak + 1 && r.profitableTrades == stats.profitableTrades + 1
    ensures profit <= 0.0 ==> r.currentStreak == 0 && r.profitableTrades == stats.profitableTrades
    ensures r.bestStreak >= stats.bestStreak
    ensures profit > 0.0 ==> r.bestStreak >= r.currentStreak && (r.bestStreak == stats.bestStreak || r.bestStreak == r.currentStreak)
    ensures profit <= 0.0 ==> r.bestStreak == stats.bestStreak
    ensures r.bestTrade >= profit && r.bestTrade >= stats.bestTrade && (r.bestTrade == profit || r.bestTrade == stats.bestTrade)
    ensures r.worstTrade <= profit && r.worstTrade <= stats.worstTrade && (r.worstTrade == profit || r.worstTrade == stats.worstTrade)
    ensures profit > 0.0 ==> r.totalProfit == stats.totalProfit + profit && r.totalLoss == stats.totalLoss
    ensures profit <= 0.0 ==> r.totalLoss == stats.totalLoss - profit && r.totalProfit == stats.totalProfit
    ensures r.totalTrades != 0 ==> r.winRate * r.totalTrades as real == r.profitableTrades as real * 100.0
    ensures r.xp - stats.xp == XpGain(profit) >= 10
    ensures r.level == stats.level && r.xpToNextLevel == stats.xpToNextLevel && r.achievements == stats.achievements
  {
    var totalTrades := stats.totalTrades + 1;
    var s :=
      if profit > 0.0 then
        var streak := stats.currentStreak + 1;
        stats.(profitableTrades := stats.profitableTrades + 1, totalProfit := stats.totalProfit + profit,
               currentStreak := streak, bestStreak := MaxInt(stats.bestStreak, streak))
      else
        stats.(totalLoss := stats.totalLoss + Abs(profit), currentStreak := 0);
    s.(totalTrades := totalTrades,
       winRate := Quotient(s.profitableTrades as real, totalTrades as real) * 100.0,
       bestTrade := Max(stats.bestTrade, profit),
       worstTrade := Min(stats.worstTrade, profit),
       xp := stats.xp + XpGain(profit))
  }

  /** The threshold after a level-up: half as much again, rounded down. */
  function NextThreshold(xpToNextLevel: int): (r: int)
    requires xpToNextLevel >= 1
    ensures r >= xpToNextLevel
  {
    (xpToNextLevel as real * 1.5).Floor
  }

  /** The level-up loop: while the experience reaches the threshold, spend
      it on a level and raise the threshold. The loop only ends when the
      threshold is at least 1, which every reachable threshold is. */
  function LevelUp(stats: UserStats): (r: UserStats)
    requires stats.xpToNextLevel >= 1
    ensures r.xp < r.xpToNextLevel && r.xpToNextLevel >= stats.xpToNextLevel
    ensures r.level >= stats.level
    ensures stats.xp >= 0 ==> r.xp >= 0
    ensures r.level == stats.level <==> stats.xp < stats.xpToNextLevel
    ensures r.(xp := stats.xp, level := stats.level, xpToNextLevel := stats.xpToNextLevel) == stats
    decreases stats.xp
  {
    if stats.xp >= stats.xpToNextLevel then
      LevelUp(stats.(xp := stats.xp - stats.xpToNextLevel, level := stats.level + 1,
                     xpToNextLevel := NextThreshold(stats.xpToNextLevel)))
    else stats
  }

  /** What the stored statistics keep: a reachable level and threshold,
      non-negative experience below the threshold, and the best streak at
      least the current one. */
  predicate ValidStats(s: UserStats) {
    s.level >= 1 && s.xpToNextLevel >= 1 && 0 <= s.xp < s.xpToNextLevel
    && 0 <= s.currentStreak <= s.bestStreak
    && 0 <= s.profitableTrades <= s.totalTrades
  }

  /** updateUserStats on values: recording a trade and levelling up keeps
      the statistics valid, counts the trade and never lowers the level. */
  lemma {:induction false} UpdateStatsValid(stats: UserStats, profit: real)
    requires ValidStats(stats)
    ensures var r := LevelUp(Record(stats, profit));
      ValidStats(r)
      && r.totalTrades == stats.totalTrades + 1
      && r.level >= stats.level
      && (profit > 0.0 <==> r.currentStreak == stats.currentStreak + 1)
  {
    var s := Record(stats, profit);
    assert s.xp >= 0;
  }

  /** A trade earns a level exactly when its experience reaches the
      threshold. */
  lemma LevelUpWhenThresholdReached(stats: UserStats, profit: real)
    requires ValidStats(stats)
    ensures LevelUp(Record(stats, profit)).level > stats.level <==> stats.xp + XpGain(profit) >= stats.xpToNextLevel
  {
  }

  /** The starting statistics are valid. */
  lemma DefaultUserStatsValid()
    ensures ValidStats(DefaultUserStats())
  {
  }

  // ---------------------------------------------------------------------
  // Watchlist

  predicate Watched(w: seq<WatchlistItem>, symbol: string) {
    exists i :: 0 <= i < |w| && w[i].symbol == symbol
  }

  predicate UniqueWatch(w: seq<WatchlistItem>) {
    forall i, j :: 0 <= i < j < |w| ==> w[i].symbol != w[j].symbol
  }

  /** addToWatchlist: a symbol already watched leaves the list as it is;
      otherwise an item stamped `now` is appended. */
  function Watch(w: seq<WatchlistItem>, symbol: string, now: int): (r: seq<WatchlistItem>)
    ensures Watched(r, symbol)
    ensures Watched(w, symbol) ==> r == w
    ensures !Watched(w, symbol) ==> r == w + [WatchlistItem(symbol, now)]
  {
    if Watched(w, symbol) then w
    else
      var r := w + [WatchlistItem(symbol, now)];
      assert r[|w|].symbol == symbol;
      r
  }

  /** removeFromWatchlist: the items of other symbols, in order. The same
      filter as `RemoveSymbol`, over watchlist items rather than holdings. */
  function Unwatch(w: seq<WatchlistItem>, symbol: string): (r: seq<WatchlistItem>)
    ensures |r| <= |w|
    ensures forall i :: 0 <= i < |r| ==> r[i].symbol != symbol && r[i] in w
    decreases |w|
  {
    if |w| == 0 then []
    else (if w[0].symbol == symbol then [] else [w[0]]) + Unwatch(w[1..], symbol)
  }

  /** Removal keeps exactly the items of other symbols. */
  lemma {:induction false} UnwatchMembers(w: seq<WatchlistItem>, symbol: string, x: WatchlistItem)
    ensures x in Unwatch(w, symbol) <==> x in w && x.symbol != symbol
    decreases |w|
  {
    if |w| > 0 {
      UnwatchMembers(w[1..], symbol, x);
      assert w == [w[0]] + w[1..];
    }
  }

  /** Adding is idempotent. */
  lemma WatchIdempotent(w: seq<WatchlistItem>, symbol: string, now: int, later: int)
    ensures Watch(Watch(w, symbol, now), symbol, later) == Watch(w, symbol, now)
  {
  }

  /** Adding never creates a second item for a symbol. */
  lemma WatchKeepsUnique(w: seq<WatchlistItem>, symbol: string, now: int)
    requires UniqueWatch(w)
    ensures UniqueWatch(Watch(w, symbol, now))
  {
    if !Watched(w, symbol) {
      var r := w + [WatchlistItem(symbol, now)];
      forall i, j | 0 <= i < j < |r|
        ensures r[i].symbol != r[j].symbol
      {
        if j == |w| {
          assert w[i].symbol != symbol;
        }
      }
    }
  }

  /** Removal keeps the order of what it keeps: removing from a
      concatenation removes from each part. */
  lemma {:induction false} UnwatchAppend(a: seq<WatchlistItem>, b: seq<WatchlistItem>, symbol: string)
    ensures Unwatch(a + b, symbol) == Unwatch(a, symbol) + Unwatch(b, symbol)
    decreases |a|
  {
    if |a| == 0 {
      assert a + b == b;
    } else {
      assert (a + b)[0] == a[0] && (a + b)[1..] == a[1..] + b;
      UnwatchAppend(a[1..], b, symbol);
      assert Unwatch(a + b, symbol)
        == (if a[0].symbol == symbol then [] else [a[0]]) + Unwatch(a[1..] + b, symbol);
    }
  }

  /** Removing a symbol that is not watched changes nothing. */
  lemma {:induction false} UnwatchAbsent(w: seq<WatchlistItem>, symbol: string)
    requires !Watched(w, symbol)
    ensures Unwatch(w, symbol) == w
    decreases |w|
  {
    if |w| > 0 {
      UnwatchAbsent(w[1..], symbol);
      assert [w[0]] + w[1..] == w;
    }
  }

  /** Adding a symbol not watched and removing it again restores the
      list. */
  lemma WatchThenUnwatch(w: seq<WatchlistItem>, symbol: string, now: int)
    requires !Watched(w, symbol)
    ensures Unwatch(Watch(w, symbol, now), symbol) == w
  {
    UnwatchAppend(w, [WatchlistItem(symbol, now)], symbol);
    UnwatchAbsent(w, symbol);
    assert Unwatch([WatchlistItem(symbol, now)], symbol) == [];
  }

  // ---------------------------------------------------------------------
  // The store

  /** The four records the simulator persists; a missing record reads as
      its default, which is what a fresh or reset store holds. Preferences
      and challenges are not part of this model. */
  class Store {
    var portfolio: Portfolio
    var transactions: seq<Transaction>
    var watchlist: seq<WatchlistItem>
    var stats: UserStats

    predicate Valid()
      reads this
    {
      ValidPortfolio(portfolio) && UniqueWatch(watchlist) && ValidStats(stats)
    }

    constructor()
      ensures portfolio == DefaultPortfolio() && transactions == [] && watchlist == [] && stats == DefaultUserStats()
      ensures Valid()
    {
      portfolio := DefaultPortfolio();
      transactions := [];
      watchlist := [];
      stats := DefaultUserStats();
    }

    /** updatePortfolio: the stored portfolio valued at the given stocks. */
    method UpdatePortfolio(stocks: seq<Stock>) returns (r: Portfolio)
      requires Valid()
      modifies this
      ensures portfolio == Valuation(old(portfolio), stocks) && r == portfolio
      ensures transactions == old(transactions) && watchlist == old(watchlist) && stats == old(stats)
      ensures Valid()
    {
      ValuationKeepsValid(portfolio, stocks);
      portfolio := Valuation(portfolio, stocks);
      r := portfolio;
    }

    /** addTransaction: the newest trade goes first. */
    method AddTransaction(t: Transaction)
      modifies this
      ensures transactions == [t] + old(transactions)
      ensures portfolio == old(portfolio) && watchlist == old(watchlist) && stats == old(stats)
    {
      transactions := [t] + transactions;
    }

    /** executeBuy: a refused buy changes nothing; an accepted one stores
        the new portfolio and logs exactly one trade. */
    method ExecuteBuy(symbol: string, stockName: string, quantity: int, price: real, now: int) returns (ok: bool)
      requires Valid() && quantity > 0
      modifies this
      ensures ok <==> Buy(old(portfolio), symbol, quantity, price).Some?
      ensures ok ==> (portfolio == Buy(old(portfolio), symbol, quantity, price).value
        && transactions == [TradeRecord(BuyTrade, symbol, stockName, quantity, price, now)] + old(transactions))
      ensures !ok ==> (portfolio == old(portfolio) && transactions == old(transactions))
      ensures watchlist == old(watchlist) && stats == old(stats)
      ensures Valid()
    {
      var r := Buy(portfolio, symbol, quantity, price);
      if r.None? {
        return false;
      }
      if FindHolding(portfolio.holdings, symbol).None? {
        BuyOpensHolding(portfolio, symbol, quantity, price);
      } else {
        BuyAddsToHolding(portfolio, symbol, quantity, price);
      }
      portfolio := r.value;
      AddTransaction(TradeRecord(BuyTrade, symbol, stockName, quantity, price, now));
      ok := true;
    }

    /** executeSell: a refused sale changes nothing; an accepted one stores
        the new portfolio and logs exactly one trade. */
    method ExecuteSell(symbol: string, stockName: string, quantity: int, price: real, now: int) returns (ok: bool)
      requires Valid() && quantity > 0
      modifies this
      ensures ok <==> Sell(old(portfolio), symbol, quantity, price).Some?
      ensures ok ==> (portfolio == Sell(old(portfolio), symbol, quantity, price).value
        && transactions == [TradeRecord(SellTrade, symbol, stockName, quantity, price, now)] + old(transactions))
      ensures !ok ==> (portfolio == old(portfolio) && transactions == old(transactions))
      ensures watchlist == old(watchlist) && stats == old(stats)
      ensures Valid()
    {
      var r := Sell(portfolio, symbol, quantity, price);
      if r.None? {
        return false;
      }
      if FindHolding(portfolio.holdings, symbol).value.quantity == quantity {
        SellClosesHolding(portfolio, symbol, quantity, price);
      } else {
        SellReducesHolding(portfolio, symbol, quantity, price);
      }
      portfolio := r.value;
      AddTransaction(TradeRecord(SellTrade, symbol, stockName, quantity, price, now));
      ok := true;
    }

    method AddToWatchlist(symbol: string, now: int)
      requires Valid()
      modifies this
      ensures watchlist == Watch(old(watchlist), symbol, now)
      ensures portfolio == old(portfolio) && transactions == old(transactions) && stats == old(stats)
      ensures Valid()
    {
      WatchKeepsUnique(watchlist, symbol, now);
      if Watched(watchlist, symbol) {
        return;
      }
      watchlist := watchlist + [WatchlistItem(symbol, now)];
    }

    method RemoveFromWatchlist(symbol: string)
      requires Valid()
      modifies this
      ensures watchlist == Unwatch(old(watchlist), symbol)
      ensures portfolio == old(portfolio) && transactions == old(transactions) && stats == old(stats)
      ensures Valid()
    {
      UnwatchKeepsUnique(watchlist, symbol);
      watchlist := Unwatch(watchlist, symbol);
    }

    /** updateUserStats: record the trade, then level up in a loop. */
    method UpdateUserStats(profit: real)
      requires Valid()
      modifies this
      ensures stats == LevelUp(Record(old(stats), profit))
      ensures portfolio == old(portfolio) && transactions == old(transactions) && watchlist == old(watchlist)
      ensures Valid()
    {
      var s := stats;
      var totalTrades := s.totalTrades + 1;
      if profit > 0.0 {
        var streak := s.currentStreak + 1;
        s := s.(profitableTrades := s.profitableTrades + 1, totalProfit := s.totalProfit + profit,
                currentStreak := streak, bestStreak := MaxInt(s.bestStreak, streak));
      } else {
        s := s.(totalLoss := s.totalLoss + Abs(profit), currentStreak := 0);
      }
      s := s.(totalTrades := totalTrades,
              winRate := Quotient(s.profitableTrades as real, totalTrades as real) * 100.0,
              bestTrade := Max(stats.bestTrade, profit),
              worstTrade := Min(stats.worstTrade, profit),
              xp := stats.xp + XpGain(profit));
      assert s == Record(stats, profit);
      ghost var recorded := s;
      while s.xp >= s.xpToNextLevel
        invariant s.xpToNextLevel >= 1
        invariant LevelUp(s) == LevelUp(recorded)
        decreases s.xp
      {
        s := s.(xp := s.xp - s.xpToNextLevel, level := s.level + 1, xpToNextLevel := NextThreshold(s.xpToNextLevel));
      }
      UpdateStatsValid(stats, profit);
      stats := s;
    }

    /** resetAllData: every record back to its default. */
    method ResetAllData()
      modifies this
      ensures portfolio == DefaultPortfolio() && transactions == [] && watchlist == [] && stats == DefaultUserStats()
      ensures Valid()
    {
      portfolio := DefaultPortfolio();
      transactions := [];
      watchlist := [];
      stats := DefaultUserStats();
      DefaultUserStatsValid();
    }
  }

  /** Removal never creates a second item for a symbol. */
  lemma {:induction false} UnwatchKeepsUnique(w: seq<WatchlistItem>, symbol: string)
    requires UniqueWatch(w)
    ensures UniqueWatch(Unwatch(w, symbol))
    decreases |w|
  {
    if |w| > 0 {
      var tail := Unwatch(w[1..], symbol);
      UnwatchKeepsUnique(w[1..], symbol);
      if w[0].symbol != symbol {
        var r := [w[0]] + tail;
        assert Unwatch(w, symbol) == r;
        forall i, j | 0 <= i < j < |r|
          ensures r[i].symbol != r[j].symbol
        {
          if i == 0 {
            assert r[j] == tail[j - 1] && tail[j - 1] in w[1..];
          } else {
            assert r[i] == tail[i - 1] && r[j] == tail[j - 1];
          }
        }
      } else {
        assert Unwatch(w, symbol) == tail;
      }
    }
  }
}
