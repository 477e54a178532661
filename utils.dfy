/** The pure helpers of app/lib/utils.ts: validation, the order total,
    colour and arrow choice by sign, the chart window, stock sorting, the
    achievement check, sector colours, and the unit that the number and
    time formatters choose. A JavaScript number is a `real` (no NaN, no
    infinities); only the choice of suffix or unit of a formatter is
    modelled, not the digits it prints. */
module Utils {
  import opened Types
  import opened Wrappers

  // ---------------------------------------------------------------------
  // Validation and order totals

  /** isValidQuantity: a positive whole number of shares. */
  predicate IsValidQuantity(quantity: real) {
    quantity > 0.0 && quantity == quantity.Floor as real
  }

  /** isValidPrice: a positive price (a real is never NaN). */
  predicate IsValidPrice(price: real) {
    price > 0.0
  }

  /** The valid quantities are exactly the whole numbers from 1 up. */
  lemma ValidQuantityIsCount(quantity: real)
    ensures IsValidQuantity(quantity) ==> quantity.Floor >= 1 && quantity.Floor as real == quantity
  {
  }

  lemma CountIsValidQuantity(n: int)
    ensures IsValidQuantity(n as real) <==> n >= 1
  {
    assert (n as real).Floor == n;
  }

  /** calculateOrderTotal: the value of the shares, with the 0.1% fee on top
      when `fees` is set. */
  function OrderTotal(quantity: real, price: real, fees: bool): real {
    var total := quantity * price;
    if fees then total * 1.001 else total
  }

  /** The total with fees is the total without, plus a fee of 0.1% of it;
      an order of a valid quantity at a valid price costs something. */
  lemma OrderTotalWithFee(quantity: real, price: real)
    ensures OrderTotal(quantity, price, false) == quantity * price
    ensures OrderTotal(quantity, price, true) == OrderTotal(quantity, price, false) + OrderTotal(quantity, price, false) * 0.001
    ensures IsValidQuantity(quantity) && IsValidPrice(price) ==>
      OrderTotal(quantity, price, true) > OrderTotal(quantity, price, false) > 0.0
  {
    if quantity > 0.0 && price > 0.0 {
      assert quantity * price > 0.0;
    }
  }

  // ---------------------------------------------------------------------
  // Colours and arrows by sign

  function Sign(value: real): (r: int)
    ensures r == 1 <==> value > 0.0
    ensures r == -1 <==> value < 0.0
    ensures r == 0 <==> value == 0.0
  {
    if value > 0.0 then 1 else if value < 0.0 then -1 else 0
  }

  function ChangeColor(value: real): string {
    if value > 0.0 then "text-market-green"
    else if value < 0.0 then "text-market-red"
    else "text-gray-500"
  }

  function ChangeBgColor(value: real): string {
    if value > 0.0 then "bg-market-green/10"
    else if value < 0.0 then "bg-market-red/10"
    else "bg-gray-500/10"
  }

  function ChangeArrow(value: real): string {
    if value > 0.0 then "↑"
    else if value < 0.0 then "↓"
    else "→"
  }

  /** Each of the three helpers gives the same output for two values
      exactly when the values have the same sign, so it shows the sign and
      nothing more. */
  lemma SignDecidesStyle(v: real, w: real)
    ensures ChangeColor(v) == ChangeColor(w) <==> Sign(v) == Sign(w)
    ensures ChangeBgColor(v) == ChangeBgColor(w) <==> Sign(v) == Sign(w)
    ensures ChangeArrow(v) == ChangeArrow(w) <==> Sign(v) == Sign(w)
  {
    assert |"text-market-green"| == 17 && |"text-market-red"| == 15 && |"text-gray-500"| == 13;
    assert |"bg-market-green/10"| == 18 && |"bg-market-red/10"| == 16 && |"bg-gray-500/10"| == 14;
    assert "↑"[0] != "↓"[0] && "↓"[0] != "→"[0] && "↑"[0] != "→"[0];
  }

  // ---------------------------------------------------------------------
  // Chart window

  const MsPerDay: int := 24 * 60 * 60 * 1000

  /** The days of history a timeframe shows; None for 'ALL'. Any other
      name shows one day, as '1D' does. */
  function WindowDays(timeframe: string): Option<int> {
    if timeframe == "1D" then Some(1)
    else if timeframe == "1W" then Some(7)
    else if timeframe == "1M" then Some(30)
    else if timeframe == "3M" then Some(90)
    else if timeframe == "1Y" then Some(365)
    else if timeframe == "ALL" then None
    else Some(1)
  }

  /** The points stamped at or after `start`, in order (`filter`). */
  function Since(history: seq<PricePoint>, start: int): (r: seq<PricePoint>)
    ensures |r| <= |history|
    ensures forall i :: 0 <= i < |r| ==> r[i].timestamp >= start && r[i] in history
    decreases |history|
  {
    if |history| == 0 then []
    else (if history[0].timestamp >= start then [history[0]] else []) + Since(history[1..], start)
  }

  /** getChartDataForTimeframe: the whole history for 'ALL', otherwise the
      points of the window that ends at `now`. */
  function ChartData(history: seq<PricePoint>, timeframe: string, now: int): seq<PricePoint> {
    match WindowDays(timeframe)
    case None => history
    case Some(days) => Since(history, now - days * MsPerDay)
  }

  /** A point is kept exactly when it lies in the window. */
  lemma {:induction false} SinceMembers(history: seq<PricePoint>, start: int, p: PricePoint)
    ensures p in Since(history, start) <==> p in history && p.timestamp >= start
    decreases |history|
  {
    if |history| > 0 {
      SinceMembers(history[1..], start, p);
      assert history == [history[0]] + history[1..];
    }
  }

  /** The window keeps the order of the points: the window of a
      concatenation is the concatenation of the windows. */
  lemma {:induction false} SinceAppend(a: seq<PricePoint>, b: seq<PricePoint>, start: int)
    ensures Since(a + b, start) == Since(a, start) + Since(b, start)
    decreases |a|
  {
    if |a| == 0 {
      assert a + b == b;
    } else {
      assert (a + b)[0] == a[0] && (a + b)[1..] == a[1..] + b;
      SinceAppend(a[1..], b, start);
      assert Since(a + b, start)
        == (if a[0].timestamp >= start then [a[0]] else []) + Since(a[1..] + b, start);
    }
  }

  predicate Increasing(history: seq<PricePoint>) {
    forall i, j :: 0 <= i < j < |history| ==> history[i].timestamp < history[j].timestamp
  }

  /** Of a history in time order, a window is its most recent points. */
  lemma {:induction false} SinceIsSuffix(history: seq<PricePoint>, start: int)
    requires Increasing(history)
    ensures Since(history, start) == history[|history| - |Since(history, start)|..]
    decreases |history|
  {
    if |history| > 0 {
      if history[0].timestamp >= start {
        SinceFromOldestSuffix(history, start);
      } else {
        IncreasingTail(history);
        SinceIsSuffix(history[1..], start);
        SinceSkipsOldest(history, start);
      }
    }
  }

  lemma SinceFromOldestSuffix(history: seq<PricePoint>, start: int)
    requires Increasing(history) && |history| > 0 && history[0].timestamp >= start
    ensures Since(history, start) == history[|history| - |Since(history, start)|..]
  {
    SinceFromOldest(history, start);
    assert history[0..] == history;
  }

  /** A point older than the window leaves the window as the tail's, so a
      suffix of the tail is a suffix of the history. */
  lemma SinceSkipsOldest(history: seq<PricePoint>, start: int)
    requires |history| > 0 && history[0].timestamp < start
    requires Since(history[1..], start) == history[1..][|history| - 1 - |Since(history[1..], start)|..]
    ensures Since(history, start) == history[|history| - |Since(history, start)|..]
  {
    var tail := Since(history[1..], start);
    assert Since(history, start) == tail;
    TailSuffix(history, |tail|);
  }

  lemma IncreasingTail(history: seq<PricePoint>)
    requires Increasing(history) && |history| > 0
    ensures Increasing(history[1..])
  {
    var rest := history[1..];
    forall i, j | 0 <= i < j < |rest|
      ensures rest[i].timestamp < rest[j].timestamp
    {
      assert rest[i] == history[i + 1] && rest[j] == history[j + 1];
    }
  }

  /** A suffix of the tail is the suffix of the same length. */
  lemma TailSuffix(history: seq<PricePoint>, k: int)
    requires 0 <= k < |history|
    ensures history[1..][|history| - 1 - k..] == history[|history| - k..]
  {
  }

  /** When the oldest point of a history in time order is in the window,
      all of it is. */
  lemma SinceFromOldest(history: seq<PricePoint>, start: int)
    requires Increasing(history) && |history| > 0 && history[0].timestamp >= start
    ensures Since(history, start) == history
  {
    forall i | 0 <= i < |history|
      ensures history[i].timestamp >= start
    {
      if i > 0 {
        assert history[0].timestamp < history[i].timestamp;
      }
    }
    SinceAll(history, start);
  }

  lemma {:induction false} SinceAll(history: seq<PricePoint>, start: int)
    requires forall i :: 0 <= i < |history| ==> history[i].timestamp >= start
    ensures Since(history, start) == history
    decreases |history|
  {
    if |history| > 0 {
      SinceAll(history[1..], start);
      assert [history[0]] + history[1..] == history;
    }
  }

  /** 'ALL' shows the history as it is; an unknown timeframe shows what
      '1D' shows; a named window shows exactly the points not older than
      its length. */
  lemma ChartDataWindows(history: seq<PricePoint>, timeframe: string, now: int, p: PricePoint)
    ensures ChartData(history, "ALL", now) == history
    ensures timeframe !in {"1D", "1W", "1M", "3M", "1Y", "ALL"} ==> ChartData(history, timeframe, now) == ChartData(history, "1D", now)
    ensures timeframe != "ALL" ==>
      (p in ChartData(history, timeframe, now) <==> p in history && p.timestamp >= now - WindowDays(timeframe).value * MsPerDay)
  {
    assert WindowDays("ALL") == None && WindowDays("1D") == Some(1);
    if timeframe !in {"1D", "1W", "1M", "3M", "1Y", "ALL"} {
      assert WindowDays(timeframe) == Some(1);
    }
    if timeframe != "ALL" {
      SinceMembers(history, now - WindowDays(timeframe).value * MsPerDay, p);
    }
  }

  // ---------------------------------------------------------------------
  // Sorting

  datatype SortOrder = Ascending | Descending

  datatype SortKey = BySymbol | ByName | ByPrice | ByChange | ByVolume | ByMarketCap

  /** The sort keys `sortStocks` knows; any other name compares every two
      stocks as equal. */
  function KeyNamed(sortBy: string): Option<SortKey> {
    if sortBy == "symbol" then Some(BySymbol)
    else if sortBy == "name" then Some(ByName)
    else if sortBy == "price" then Some(ByPrice)
    else if sortBy == "change" then Some(ByChange)
    else if sortBy == "volume" then Some(ByVolume)
    else if sortBy == "marketCap" then Some(ByMarketCap)
    else None
  }

  datatype KeyValue = Text(text: string) | Number(number: real)

  function KeyOf(s: Stock, key: SortKey): KeyValue {
    match key
    case BySymbol => Text(s.symbol)
    case ByName => Text(s.name)
    case ByPrice => Number(s.price)
    case ByChange => Number(s.dayChangePercent)
    case ByVolume => Number(s.volume as real)
    case ByMarketCap => Number(s.marketCap as real)
  }

  /** The order `localeCompare` stands for: here, the lexicographic order
      of character codes. */
  predicate TextLess(a: string, b: string)
    decreases |a|
  {
    if |a| == 0 then |b| > 0
    else if |b| == 0 then false
    else if a[0] < b[0] then true
    else if a[0] == b[0] then TextLess(a[1..], b[1..])
    else false
  }

  lemma {:induction false} TextLessTrichotomy(a: string, b: string)
    ensures TextLess(a, b) || TextLess(b, a) || a == b
    ensures !(TextLess(a, b) && TextLess(b, a))
    decreases |a|
  {
    if |a| > 0 && |b| > 0 && a[0] == b[0] {
      TextLessTrichotomy(a[1..], b[1..]);
      if a[1..] == b[1..] {
        assert a == [a[0]] + a[1..] && b == [b[0]] + b[1..];
      }
    }
  }

  lemma {:induction false} TextLessTransitive(a: string, b: string, c: string)
    requires TextLess(a, b) && TextLess(b, c)
    ensures TextLess(a, c)
    decreases |a|
  {
    if |a| > 0 && a[0] == b[0] && b[0] == c[0] {
      TextLessTransitive(a[1..], b[1..], c[1..]);
    }
  }

  predicate KeyLess(a: KeyValue, b: KeyValue) {
    match (a, b)
    case (Text(x), Text(y)) => TextLess(x, y)
    case (Number(x), Number(y)) => x < y
    case _ => false
  }

  /** Stock `a` goes strictly before stock `b`: the comparator of
      `sortStocks` is negative on them. An unknown key (None) never puts one
      stock before another. */
  predicate Precedes(a: Stock, b: Stock, key: Option<SortKey>, order: SortOrder) {
    match key
    case None => false
    case Some(k) =>
      if order == Ascending then KeyLess(KeyOf(a, k), KeyOf(b, k)) else KeyLess(KeyOf(b, k), KeyOf(a, k))
  }

  /** Not being less is transitive in the text order. */
  lemma TextNotLessTransitive(x: string, y: string, z: string)
    requires !TextLess(x, y) && !TextLess(y, z)
    ensures !TextLess(x, z)
  {
    TextLessTrichotomy(x, y);
    TextLessTrichotomy(y, z);
    TextLessTrichotomy(x, z);
    if TextLess(y, x) && TextLess(z, y) {
      TextLessTransitive(z, y, x);
    }
  }

  /** Not going before is transitive: the comparator is a total preorder,
      which is what a sort needs. */
  lemma NotPrecedesTransitive(a: Stock, b: Stock, c: Stock, key: Option<SortKey>, order: SortOrder)
    requires !Precedes(a, b, key, order) && !Precedes(b, c, key, order)
    ensures !Precedes(a, c, key, order)
  {
    if key.Some? {
      var (ka, kb, kc) := (KeyOf(a, key.value), KeyOf(b, key.value), KeyOf(c, key.value));
      if ka.Text? {
        if order == Ascending {
          TextNotLessTransitive(ka.text, kb.text, kc.text);
        } else {
          TextNotLessTransitive(kc.text, kb.text, ka.text);
        }
      }
    }
  }

  predicate Ordered(r: seq<Stock>, key: Option<SortKey>, order: SortOrder) {
    forall i, j :: 0 <= i < j < |r| ==> !Precedes(r[j], r[i], key, order)
  }

  /** One step of a stable insertion sort: `x` goes after every stock it
      does not strictly precede, searching from the back. */
  function Insert(r: seq<Stock>, x: Stock, key: Option<SortKey>, order: SortOrder): seq<Stock>
    decreases |r|
  {
    if |r| == 0 then [x]
    else if Precedes(x, r[|r| - 1], key, order) then Insert(r[..|r| - 1], x, key, order) + [r[|r| - 1]]
    else r + [x]
  }

  /** The stable sort `Array.prototype.sort` performs. */
  function Sort(s: seq<Stock>, key: Option<SortKey>, order: SortOrder): seq<Stock>
    decreases |s|
  {
    if |s| == 0 then [] else Insert(Sort(s[..|s| - 1], key, order), s[|s| - 1], key, order)
  }

  lemma {:induction false} InsertPermutes(r: seq<Stock>, x: Stock, key: Option<SortKey>, order: SortOrder)
    ensures multiset(Insert(r, x, key, order)) == multiset(r) + multiset{x}
    decreases |r|
  {
    if |r| > 0 && Precedes(x, r[|r| - 1], key, order) {
      InsertPermutes(r[..|r| - 1], x, key, order);
      assert r == r[..|r| - 1] + [r[|r| - 1]];
    }
  }

  /** Inserting into an ordered list keeps it ordered; whatever the new
      stock is placed after, it does not precede. */
  lemma {:induction false} InsertOrdered(r: seq<Stock>, x: Stock, key: Option<SortKey>, order: SortOrder)
    requires Ordered(r, key, order)
    ensures Ordered(Insert(r, x, key, order), key, order)
    decreases |r|
  {
    var q := Insert(r, x, key, order);
    if |r| == 0 {
    } else if Precedes(x, r[|r| - 1], key, order) {
      var init := r[..|r| - 1];
      var last := r[|r| - 1];
      InsertOrdered(init, x, key, order);
      var p := Insert(init, x, key, order);
      InsertPermutes(init, x, key, order);
      forall i | 0 <= i < |p|
        ensures !Precedes(last, p[i], key, order)
      {
        assert p[i] in multiset(init) + multiset{x};
        if p[i] == x {
          if Precedes(last, x, key, order) {
            PrecedesAsymmetric(x, last, key, order);
          }
        } else {
          var k :| 0 <= k < |init| && init[k] == p[i];
          assert r[k] == p[i];
        }
      }
      assert q == p + [last];
    } else {
      forall i | 0 <= i < |r|
        ensures !Precedes(x, r[i], key, order)
      {
        if i < |r| - 1 {
          NotPrecedesTransitive(x, r[|r| - 1], r[i], key, order);
        }
      }
    }
  }

  lemma PrecedesAsymmetric(a: Stock, b: Stock, key: Option<SortKey>, order: SortOrder)
    requires Precedes(a, b, key, order)
    ensures !Precedes(b, a, key, order)
  {
    var k := key.value;
    if KeyOf(a, k).Text? {
      TextLessTrichotomy(KeyOf(a, k).text, KeyOf(b, k).text);
    }
  }

  /** The sort is a permutation of its input, ordered by the comparator. */
  lemma {:induction false} SortCorrect(s: seq<Stock>, key: Option<SortKey>, order: SortOrder)
    ensures multiset(Sort(s, key, order)) == multiset(s)
    ensures Ordered(Sort(s, key, order), key, order)
    decreases |s|
  {
    if |s| > 0 {
      var init := s[..|s| - 1];
      SortCorrect(init, key, order);
      InsertPermutes(Sort(init, key, order), s[|s| - 1], key, order);
      InsertOrdered(Sort(init, key, order), s[|s| - 1], key, order);
      assert s == init + [s[|s| - 1]];
    }
  }

  /** With a comparator that finds every two stocks equal, the stable sort
      leaves them as they are. */
  lemma {:induction false} SortUnkeyedIsIdentity(s: seq<Stock>, order: SortOrder)
    ensures Sort(s, None, order) == s
    decreases |s|
  {
    if |s| > 0 {
      SortUnkeyedIsIdentity(s[..|s| - 1], order);
      assert s[..|s| - 1] + [s[|s| - 1]] == s;
    }
  }

  /** sortStocks: a sorted copy of the stocks by the named key, in the
      given direction; the caller's sequence is a value and stays as it
      was. */
  function SortStocks(stocks: seq<Stock>, sortBy: string, order: SortOrder): (r: seq<Stock>)
    ensures multiset(r) == multiset(stocks) && |r| == |stocks|
    ensures Ordered(r, KeyNamed(sortBy), order)
    ensures KeyNamed(sortBy).None? ==> r == stocks
  {
    SortCorrect(stocks, KeyNamed(sortBy), order);
    SortUnkeyedIsIdentity(stocks, order);
    var r := Sort(stocks, KeyNamed(sortBy), order);
    assert |r| == |multiset(r)| == |multiset(stocks)| == |stocks|;
    r
  }

  // ---------------------------------------------------------------------
  // Achievements

  const AchievementIds: seq<string> :=
    ["first-trade", "active-trader", "veteran-trader", "profit-master", "hot-streak", "big-win"]

  /** The threshold of each achievement. */
  predicate Earned(stats: UserStats, id: string) {
    if id == "first-trade" then stats.totalTrades >= 1
    else if id == "active-trader" then stats.totalTrades >= 10
    else if id == "veteran-trader" then stats.totalTrades >= 100
    else if id == "profit-master" then stats.winRate >= 60.0 && stats.totalTrades >= 20
    else if id == "hot-streak" then stats.currentStreak >= 5
    else if id == "big-win" then stats.bestTrade >= 10000.0
    else false
  }

  /** The ids of `ids`, in order, that the statistics have earned and do
      not hold yet. */
  function NewlyEarned(stats: UserStats, ids: seq<string>): (r: seq<string>)
    ensures |r| <= |ids|
    ensures forall i :: 0 <= i < |r| ==> r[i] in ids
    decreases |ids|
  {
    if |ids| == 0 then []
    else
      (if Earned(stats, ids[0]) && ids[0] !in stats.achievements then [ids[0]] else [])
      + NewlyEarned(stats, ids[1..])
  }

  lemma {:induction false} NewlyEarnedMembers(stats: UserStats, ids: seq<string>, id: string)
    ensures id in NewlyEarned(stats, ids) <==> id in ids && Earned(stats, id) && id !in stats.achievements
    decreases |ids|
  {
    if |ids| > 0 {
      NewlyEarnedMembers(stats, ids[1..], id);
      assert ids == [ids[0]] + ids[1..];
    }
  }

  predicate Distinct(ids: seq<string>) {
    forall i, j :: 0 <= i < j < |ids| ==> ids[i] != ids[j]
  }

  lemma {:induction false} NewlyEarnedDistinct(stats: UserStats, ids: seq<string>)
    requires Distinct(ids)
    ensures Distinct(NewlyEarned(stats, ids))
    decreases |ids|
  {
    if |ids| > 0 {
      var tail := NewlyEarned(stats, ids[1..]);
      NewlyEarnedDistinct(stats, ids[1..]);
      var r := NewlyEarned(stats, ids);
      if Earned(stats, ids[0]) && ids[0] !in stats.achievements {
        assert r == [ids[0]] + tail;
        assert ids[0] !in ids[1..];
        forall i, j | 0 <= i < j < |r|
          ensures r[i] != r[j]
        {
          if i == 0 {
            assert r[j] == tail[j - 1] && r[j] in tail;
          } else {
            assert r[i] == tail[i - 1] && r[j] == tail[j - 1];
          }
        }
      } else {
        assert r == tail;
      }
    }
  }

  /** checkAchievements: every newly earned achievement, in table order. */
  function CheckAchievements(stats: UserStats): seq<string> {
    NewlyEarned(stats, AchievementIds)
  }

  /** An id is awarded exactly when it is an achievement whose threshold
      the statistics meet and which is not already held; none is awarded
      twice. */
  lemma CheckAchievementsSound(stats: UserStats, id: string)
    ensures id in CheckAchievements(stats) <==> id in AchievementIds && Earned(stats, id) && id !in stats.achievements
    ensures Distinct(CheckAchievements(stats))
  {
    forall i, j | 0 <= i < j < |AchievementIds|
      ensures AchievementIds[i] != AchievementIds[j]
    {
      if i == 1 && j == 3 {
        assert AchievementIds[i][0] != AchievementIds[j][0];
      } else {
        assert |AchievementIds[i]| != |AchievementIds[j]|;
      }
    }
    NewlyEarnedMembers(stats, AchievementIds, id);
    NewlyEarnedDistinct(stats, AchievementIds);
  }

  // ---------------------------------------------------------------------
  // Sector colours

  const SectorColors: map<string, string> := map[
    "Technology" := "#3b82f6",
    "Healthcare" := "#10b981",
    "Finance" := "#f59e0b",
    "Energy" := "#ef4444",
    "Consumer Goods" := "#8b5cf6",
    "Industrial" := "#6366f1",
    "Communications" := "#ec4899",
    "Real Estate" := "#14b8a6"]

  const FallbackColor: string := "#64748b"

  /** getSectorColor: the sector's colour, or the fallback grey. */
  function SectorColor(sector: string): (r: string)
    ensures sector in SectorColors ==> r == SectorColors[sector]
    ensures sector !in SectorColors ==> r == FallbackColor
  {
    if sector in SectorColors then SectorColors[sector] else FallbackColor
  }

  /** Only an unknown sector is shown in the fallback grey: no listed
      sector shares its colour. */
  lemma FallbackOnlyForUnknownSectors(sector: string)
    ensures SectorColor(sector) == FallbackColor <==> sector !in SectorColors
  {
    if sector in SectorColors {
      assert SectorColors[sector][1] != FallbackColor[1] || SectorColors[sector][2] != FallbackColor[2];
    }
  }

  // ---------------------------------------------------------------------
  // Units of the formatters

  datatype Magnitude = Trillions | Billions | Millions | Thousands | Ones

  function Scale(m: Magnitude): real {
    match m
    case Trillions => 1000000000000.0
    case Billions => 1000000000.0
    case Millions => 1000000.0
    case Thousands => 1000.0
    case Ones => 1.0
  }

  function Suffix(m: Magnitude): string {
    match m
    case Trillions => "T"
    case Billions => "B"
    case Millions => "M"
    case Thousands => "K"
    case Ones => ""
  }

  /** formatLargeNumber's suffix: that of the largest scale not above the
      value (a value under a thousand is printed as currency). */
  function LargeNumberMagnitude(value: real): (m: Magnitude)
    ensures m != Ones ==> Scale(m) <= value
    ensures forall k :: k != Ones && Scale(k) <= value ==> Scale(k) <= Scale(m)
  {
    if value >= 1000000000000.0 then Trillions
    else if value >= 1000000000.0 then Billions
    else if value >= 1000000.0 then Millions
    else if value >= 1000.0 then Thousands
    else Ones
  }

  /** formatVolume's suffix: the same, with billions the largest unit. */
  function VolumeMagnitude(value: real): (m: Magnitude)
    ensures m != Trillions
    ensures m != Ones ==> Scale(m) <= value
    ensures forall k :: k != Ones && k != Trillions && Scale(k) <= value ==> Scale(k) <= Scale(m)
  {
    if value >= 1000000000.0 then Billions
    else if value >= 1000000.0 then Millions
    else if value >= 1000.0 then Thousands
    else Ones
  }

  /** The number printed before a suffix is at least 1 and, below the
      largest unit, under 1000. */
  lemma MantissaInRange(value: real)
    ensures var m := LargeNumberMagnitude(value);
      m != Ones ==> 1.0 <= value / Scale(m) && (m != Trillions ==> value / Scale(m) < 1000.0)
    ensures var m := VolumeMagnitude(value);
      m != Ones ==> 1.0 <= value / Scale(m) && (m != Billions ==> value / Scale(m) < 1000.0)
  {
  }

  /** formatPercent's sign: a '+' before a value that is not negative (a
      negative value carries its own minus sign). */
  function PercentPrefix(value: real): (r: string)
    ensures r == "+" <==> value >= 0.0
    ensures r == "" <==> value < 0.0
  {
    if value >= 0.0 then "+" else ""
  }

  datatype TimeUnit = DaysAgo | HoursAgo | MinutesAgo | SecondsAgo

  function UnitMs(u: TimeUnit): int {
    match u
    case DaysAgo => 86400000
    case HoursAgo => 3600000
    case MinutesAgo => 60000
    case SecondsAgo => 1000
  }

  /** formatRelativeTime: the count and unit of `<count><unit> ago`. The
      floored seconds, minutes, hours and days are derived from each other
      as in the source (a floor of a non-negative divisor is Dafny's `/`). */
  function RelativeTime(timestamp: int, now: int): (int, TimeUnit) {
    var seconds := (now - timestamp) / 1000;
    var minutes := seconds / 60;
    var hours := minutes / 60;
    var days := hours / 24;
    if days > 0 then (days, DaysAgo)
    else if hours > 0 then (hours, HoursAgo)
    else if minutes > 0 then (minutes, MinutesAgo)
    else (seconds, SecondsAgo)
  }

  /** The count is the elapsed time floored to whole units, and the unit
      is the largest that makes it non-zero: below days it is under a day,
      below hours under an hour, below minutes under a minute. */
  lemma RelativeTimeUnit(timestamp: int, now: int)
    ensures var (count, unit) := RelativeTime(timestamp, now);
      count == (now - timestamp) / UnitMs(unit)
      && (unit != SecondsAgo ==> count >= 1)
      && (unit != DaysAgo ==> now - timestamp < 86400000)
      && (unit == MinutesAgo || unit == SecondsAgo ==> now - timestamp < 3600000)
      && (unit == SecondsAgo ==> now - timestamp < 60000)
  {
  }
}
