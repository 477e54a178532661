/** The stock catalog INITIAL_STOCKS (app/lib/stocks.ts) and its
    invariants. */
module Catalog {
  import opened Types

  /** A catalog row: a stock without its history and day change. */
  datatype CatalogEntry = Entry(
    symbol: string,
    name: string,
    price: real,
    previousClose: real,
    volume: int,
    marketCap: int,
    sector: string,
    volatility: Volatility,
    description: string)

  // The catalog, in source order, in chunks small enough for the verifier
  // to reason about one chunk at a time.

  const TechnologyA: seq<CatalogEntry> := [
    Entry("AAPL", "Apple Inc.", 178.50, 175.30, 52000000, 2800000000000, "Technology", MediumVolatility, "Consumer electronics and software giant"),
    Entry("MSFT", "Microsoft Corporation", 378.25, 375.80, 28000000, 2810000000000, "Technology", MediumVolatility, "Software, cloud computing, and AI leader"),
    Entry("GOOGL", "Alphabet Inc.", 142.15, 140.90, 24000000, 1780000000000, "Technology", MediumVolatility, "Search engine and digital advertising leader"),
    Entry("AMZN", "Amazon.com Inc.", 178.35, 176.20, 48000000, 1840000000000, "Technology", HighVolatility, "E-commerce and cloud computing giant"),
    Entry("META", "Meta Platforms Inc.", 488.75, 485.20, 16000000, 1240000000000, "Technology", HighVolatility, "Social media and virtual reality company"),
    Entry("NVDA", "NVIDIA Corporation", 875.28, 868.50, 42000000, 2160000000000, "Technology", HighVolatility, "Graphics processing and AI chip manufacturer"),
    Entry("TSLA", "Tesla Inc.", 242.84, 238.45, 95000000, 770000000000, "Technology", HighVolatility, "Electric vehicles and clean energy")
  ]

  const TechnologyB: seq<CatalogEntry> := [
    Entry("NFLX", "Netflix Inc.", 485.30, 482.15, 8500000, 210000000000, "Technology", HighVolatility, "Streaming entertainment service"),
    Entry("INTC", "Intel Corporation", 43.25, 42.80, 38000000, 180000000000, "Technology", MediumVolatility, "Semiconductor chip manufacturer"),
    Entry("AMD", "Advanced Micro Devices", 168.45, 165.90, 52000000, 272000000000, "Technology", HighVolatility, "Semiconductor and processor company"),
    Entry("ORCL", "Oracle Corporation", 118.50, 117.25, 12000000, 325000000000, "Technology", LowVolatility, "Enterprise software and cloud solutions"),
    Entry("ADBE", "Adobe Inc.", 562.75, 558.40, 3200000, 258000000000, "Technology", MediumVolatility, "Creative and marketing software"),
    Entry("CRM", "Salesforce Inc.", 285.60, 282.90, 6800000, 278000000000, "Technology", MediumVolatility, "Cloud-based CRM software"),
    Entry("CSCO", "Cisco Systems", 52.35, 51.90, 18000000, 212000000000, "Technology", LowVolatility, "Networking hardware and software")
  ]

  const Healthcare: seq<CatalogEntry> := [
    Entry("JNJ", "Johnson & Johnson", 156.80, 156.20, 8500000, 385000000000, "Healthcare", LowVolatility, "Pharmaceutical and consumer health products"),
    Entry("UNH", "UnitedHealth Group", 524.30, 521.85, 3200000, 490000000000, "Healthcare", LowVolatility, "Health insurance and care services"),
    Entry("PFE", "Pfizer Inc.", 28.45, 28.15, 42000000, 160000000000, "Healthcare", MediumVolatility, "Pharmaceutical manufacturer"),
    Entry("ABBV", "AbbVie Inc.", 172.90, 171.50, 6500000, 305000000000, "Healthcare", LowVolatility, "Biopharmaceutical company"),
    Entry("TMO", "Thermo Fisher Scientific", 548.25, 545.60, 1800000, 214000000000, "Healthcare", LowVolatility, "Life sciences and laboratory equipment"),
    Entry("MRNA", "Moderna Inc.", 95.60, 92.80, 12000000, 37000000000, "Healthcare", HighVolatility, "Biotechnology and mRNA therapeutics"),
    Entry("LLY", "Eli Lilly and Company", 785.40, 778.90, 3500000, 745000000000, "Healthcare", MediumVolatility, "Pharmaceutical research and development")
  ]

  const Finance: seq<CatalogEntry> := [
    Entry("JPM", "JPMorgan Chase & Co.", 185.75, 184.30, 12000000, 540000000000, "Finance", MediumVolatility, "Banking and financial services"),
    Entry("BAC", "Bank of America Corp", 38.45, 38.10, 48000000, 305000000000, "Finance", MediumVolatility, "Banking and financial services"),
    Entry("WFC", "Wells Fargo & Company", 56.80, 56.25, 22000000, 205000000000, "Finance", MediumVolatility, "Banking and financial services"),
    Entry("GS", "Goldman Sachs Group", 458.30, 455.60, 3200000, 155000000000, "Finance", MediumVolatility, "Investment banking and securities"),
    Entry("MS", "Morgan Stanley", 102.45, 101.80, 8500000, 172000000000, "Finance", MediumVolatility, "Investment banking and wealth management"),
    Entry("V", "Visa Inc.", 278.90, 276.50, 7200000, 578000000000, "Finance", LowVolatility, "Payment processing technology"),
    Entry("MA", "Mastercard Inc.", 462.35, 459.80, 3800000, 438000000000, "Finance", LowVolatility, "Payment processing technology"),
    Entry("PYPL", "PayPal Holdings", 78.25, 77.40, 14000000, 82000000000, "Finance", HighVolatility, "Digital payments platform")
  ]

  const Energy: seq<CatalogEntry> := [
    Entry("XOM", "Exxon Mobil Corporation", 112.45, 111.30, 18000000, 465000000000, "Energy", MediumVolatility, "Oil and gas exploration and production"),
    Entry("CVX", "Chevron Corporation", 158.70, 157.25, 9500000, 295000000000, "Energy", MediumVolatility, "Oil and gas multinational"),
    Entry("COP", "ConocoPhillips", 124.35, 123.10, 7800000, 155000000000, "Energy", MediumVolatility, "Exploration and production company"),
    Entry("SLB", "Schlumberger Limited", 52.80, 52.15, 12000000, 74000000000, "Energy", MediumVolatility, "Oilfield services company"),
    Entry("NEE", "NextEra Energy", 78.45, 77.90, 8200000, 157000000000, "Energy", LowVolatility, "Electric power and renewable energy")
  ]

  const ConsumerGoods: seq<CatalogEntry> := [
    Entry("WMT", "Walmart Inc.", 72.85, 72.30, 9500000, 590000000000, "Consumer Goods", LowVolatility, "Retail corporation"),
    Entry("PG", "Procter & Gamble", 165.40, 164.75, 6800000, 395000000000, "Consumer Goods", LowVolatility, "Consumer goods corporation"),
    Entry("KO", "The Coca-Cola Company", 61.25, 60.85, 14000000, 264000000000, "Consumer Goods", LowVolatility, "Beverage manufacturer"),
    Entry("PEP", "PepsiCo Inc.", 172.90, 172.15, 5200000, 238000000000, "Consumer Goods", LowVolatility, "Food and beverage corporation"),
    Entry("COST", "Costco Wholesale", 865.50, 860.25, 2100000, 384000000000, "Consumer Goods", LowVolatility, "Membership warehouse club"),
    Entry("NKE", "Nike Inc.", 108.75, 107.50, 8500000, 168000000000, "Consumer Goods", MediumVolatility, "Athletic footwear and apparel"),
    Entry("MCD", "McDonald's Corporation", 292.40, 290.85, 3200000, 212000000000, "Consumer Goods", LowVolatility, "Fast food restaurant chain"),
    Entry("SBUX", "Starbucks Corporation", 98.65, 97.90, 7800000, 113000000000, "Consumer Goods", MediumVolatility, "Coffeehouse chain")
  ]

  const Industrial: seq<CatalogEntry> := [
    Entry("BA", "Boeing Company", 178.45, 176.80, 8500000, 109000000000, "Industrial", HighVolatility, "Aerospace manufacturer"),
    Entry("CAT", "Caterpillar Inc.", 328.75, 326.40, 3200000, 172000000000, "Industrial", MediumVolatility, "Construction and mining equipment"),
    Entry("GE", "General Electric", 168.90, 167.25, 5800000, 185000000000, "Industrial", MediumVolatility, "Industrial conglomerate"),
    Entry("MMM", "3M Company", 102.35, 101.70, 4200000, 57000000000, "Industrial", LowVolatility, "Diversified technology company"),
    Entry("HON", "Honeywell International", 208.45, 206.90, 3100000, 139000000000, "Industrial", LowVolatility, "Industrial conglomerate")
  ]

  const Communications: seq<CatalogEntry> := [
    Entry("T", "AT&T Inc.", 21.85, 21.65, 32000000, 156000000000, "Communications", LowVolatility, "Telecommunications company"),
    Entry("VZ", "Verizon Communications", 42.30, 42.05, 18000000, 177000000000, "Communications", LowVolatility, "Telecommunications conglomerate"),
    Entry("DIS", "Walt Disney Company", 112.45, 111.30, 12000000, 205000000000, "Communications", MediumVolatility, "Entertainment and media conglomerate"),
    Entry("CMCSA", "Comcast Corporation", 44.75, 44.35, 16000000, 182000000000, "Communications", LowVolatility, "Telecommunications conglomerate")
  ]

  const RealEstate: seq<CatalogEntry> := [
    Entry("AMT", "American Tower Corp", 218.50, 217.25, 2100000, 101000000000, "Real Estate", LowVolatility, "Real estate investment trust"),
    Entry("PLD", "Prologis Inc.", 132.75, 131.90, 3400000, 120000000000, "Real Estate", LowVolatility, "Logistics real estate")
  ]

  /** INITIAL_STOCKS. */
  const InitialStocks: seq<CatalogEntry> :=
    TechnologyA + TechnologyB + Healthcare + Finance + Energy + ConsumerGoods + Industrial + Communications + RealEstate

  predicate PricesPositive(s: seq<CatalogEntry>) {
    forall i :: 0 <= i < |s| ==> s[i].price > 0.0 && s[i].previousClose > 0.0
  }

  predicate DistinctSymbols(s: seq<CatalogEntry>) {
    forall i, j :: 0 <= i < j < |s| ==> s[i].symbol != s[j].symbol
  }

  /** No symbol of `a` occurs in `b`. */
  predicate Apart(a: seq<CatalogEntry>, b: seq<CatalogEntry>) {
    forall i, j :: 0 <= i < |a| && 0 <= j < |b| ==> a[i].symbol != b[j].symbol
  }

  lemma PositiveConcat(a: seq<CatalogEntry>, b: seq<CatalogEntry>)
    requires PricesPositive(a) && PricesPositive(b)
    ensures PricesPositive(a + b)
  {
    forall i | 0 <= i < |a + b|
      ensures (a + b)[i].price > 0.0 && (a + b)[i].previousClose > 0.0
    {
      if i >= |a| {
        assert (a + b)[i] == b[i - |a|];
      }
    }
  }

  lemma ApartLeft(a: seq<CatalogEntry>, b: seq<CatalogEntry>, c: seq<CatalogEntry>)
    requires Apart(a, c) && Apart(b, c)
    ensures Apart(a + b, c)
  {
    forall i, j | 0 <= i < |a + b| && 0 <= j < |c|
      ensures (a + b)[i].symbol != c[j].symbol
    {
      if i >= |a| {
        assert (a + b)[i] == b[i - |a|];
      }
    }
  }

  lemma DistinctConcat(a: seq<CatalogEntry>, b: seq<CatalogEntry>)
    requires DistinctSymbols(a) && DistinctSymbols(b) && Apart(a, b)
    ensures DistinctSymbols(a + b)
  {
    forall i, j | 0 <= i < j < |a + b|
      ensures (a + b)[i].symbol != (a + b)[j].symbol
    {
      if j < |a| {
      } else if i < |a| {
        assert (a + b)[j] == b[j - |a|];
      } else {
        assert (a + b)[i] == b[i - |a|] && (a + b)[j] == b[j - |a|];
      }
    }
  }

  // The facts below are checked chunk by chunk, and pairwise between chunks,
  // only to keep each proof obligation small: stated over the whole
  // 53-row table at once they exceed the solver's resource budget.
  // `CatalogWellFormed` assembles them with the concatenation lemmas above.

  lemma TechnologyAPositive()
    ensures PricesPositive(TechnologyA)
  {}

  lemma TechnologyADistinct()
    ensures DistinctSymbols(TechnologyA)
  {}

  lemma TechnologyBPositive()
    ensures PricesPositive(TechnologyB)
  {}

  lemma TechnologyBDistinct()
    ensures DistinctSymbols(TechnologyB)
  {}

  lemma HealthcarePositive()
    ensures PricesPositive(Healthcare)
  {}

  lemma HealthcareDistinct()
    ensures DistinctSymbols(Healthcare)
  {}

  lemma FinancePositive()
    ensures PricesPositive(Finance)
  {}

  lemma FinanceDistinct()
    ensures DistinctSymbols(Finance)
  {}

  lemma EnergyPositive()
    ensures PricesPositive(Energy)
  {}

  lemma EnergyDistinct()
    ensures DistinctSymbols(Energy)
  {}

  lemma ConsumerGoodsPositive()
    ensures PricesPositive(ConsumerGoods)
  {}

  lemma ConsumerGoodsDistinct()
    ensures DistinctSymbols(ConsumerGoods)
  {}

  lemma IndustrialPositive()
    ensures PricesPositive(Industrial)
  {}

  lemma IndustrialDistinct()
    ensures DistinctSymbols(Industrial)
  {}

  lemma CommunicationsPositive()
    ensures PricesPositive(Communications)
  {}

  lemma CommunicationsDistinct()
    ensures DistinctSymbols(Communications)
  {}

  lemma RealEstatePositive()
    ensures PricesPositive(RealEstate)
  {}

  lemma RealEstateDistinct()
    ensures DistinctSymbols(RealEstate)
  {}

  lemma TechnologyAApartTechnologyB()
    ensures Apart(TechnologyA, TechnologyB)
  {}

  lemma TechnologyAApartHealthcare()
    ensures Apart(TechnologyA, Healthcare)
  {}

  lemma TechnologyBApartHealthcare()
    ensures Apart(TechnologyB, Healthcare)
  {}

  lemma TechnologyAApartFinance()
    ensures Apart(TechnologyA, Finance)
  {}

  lemma TechnologyBApartFinance()
    ensures Apart(TechnologyB, Finance)
  {}

  lemma HealthcareApartFinance()
    ensures Apart(Healthcare, Finance)
  {}

  lemma TechnologyAApartEnergy()
    ensures Apart(TechnologyA, Energy)
  {}

  lemma TechnologyBApartEnergy()
    ensures Apart(TechnologyB, Energy)
  {}

  lemma HealthcareApartEnergy()
    ensures Apart(Healthcare, Energy)
  {}

  lemma FinanceApartEnergy()
    ensures Apart(Finance, Energy)
  {}

  lemma TechnologyAApartConsumerGoods()
    ensures Apart(TechnologyA, ConsumerGoods)
  {}

  lemma TechnologyBApartConsumerGoods()
    ensures Apart(TechnologyB, ConsumerGoods)
  {}

  lemma HealthcareApartConsumerGoods()
    ensures Apart(Healthcare, ConsumerGoods)
  {}

  lemma FinanceApartConsumerGoods()
    ensures Apart(Finance, ConsumerGoods)
  {}

  lemma EnergyApartConsumerGoods()
    ensures Apart(Energy, ConsumerGoods)
  {}

  lemma TechnologyAApartIndustrial()
    ensures Apart(TechnologyA, Industrial)
  {}

  lemma TechnologyBApartIndustrial()
    ensures Apart(TechnologyB, Industrial)
  {}

  lemma HealthcareApartIndustrial()
    ensures Apart(Healthcare, Industrial)
  {}

  lemma FinanceApartIndustrial()
    ensures Apart(Finance, Industrial)
  {}

  lemma EnergyApartIndustrial()
    ensures Apart(Energy, Industrial)
  {}

  lemma ConsumerGoodsApartIndustrial()
    ensures Apart(ConsumerGoods, Industrial)
  {}

  lemma TechnologyAApartCommunications()
    ensures Apart(TechnologyA, Communications)
  {}

  lemma TechnologyBApartCommunications()
    ensures Apart(TechnologyB, Communications)
  {}

  lemma HealthcareApartCommunications()
    ensures Apart(Healthcare, Communications)
  {}

  lemma FinanceApartCommunications()
    ensures Apart(Finance, Communications)
  {}

  lemma EnergyApartCommunications()
    ensures Apart(Energy, Communications)
  {}

  lemma ConsumerGoodsApartCommunications()
    ensures Apart(ConsumerGoods, Communications)
  {}

  lemma IndustrialApartCommunications()
    ensures Apart(Industrial, Communications)
  {}

  lemma TechnologyAApartRealEstate()
    ensures Apart(TechnologyA, RealEstate)
  {}

  lemma TechnologyBApartRealEstate()
    ensures Apart(TechnologyB, RealEstate)
  {}

  lemma HealthcareApartRealEstate()
    ensures Apart(Healthcare, RealEstate)
  {}

  lemma FinanceApartRealEstate()
    ensures Apart(Finance, RealEstate)
  {}

  lemma EnergyApartRealEstate()
    ensures Apart(Energy, RealEstate)
  {}

  lemma ConsumerGoodsApartRealEstate()
    ensures Apart(ConsumerGoods, RealEstate)
  {}

  lemma IndustrialApartRealEstate()
    ensures Apart(Industrial, RealEstate)
  {}

  lemma CommunicationsApartRealEstate()
    ensures Apart(Communications, RealEstate)
  {}

  /** Every catalog entry has positive prices, no symbol is listed twice, and
      there are 53 stocks. */
  lemma CatalogWellFormed()
    ensures |InitialStocks| == 53
    ensures PricesPositive(InitialStocks)
    ensures DistinctSymbols(InitialStocks)
  {
    TechnologyAPositive();
    TechnologyADistinct();
    TechnologyBPositive();
    TechnologyBDistinct();
    HealthcarePositive();
    HealthcareDistinct();
    FinancePositive();
    FinanceDistinct();
    EnergyPositive();
    EnergyDistinct();
    ConsumerGoodsPositive();
    ConsumerGoodsDistinct();
    IndustrialPositive();
    IndustrialDistinct();
    CommunicationsPositive();
    CommunicationsDistinct();
    RealEstatePositive();
    RealEstateDistinct();
    TechnologyAApartTechnologyB();
    TechnologyAApartHealthcare();
    TechnologyBApartHealthcare();
    TechnologyAApartFinance();
    TechnologyBApartFinance();
    HealthcareApartFinance();
    TechnologyAApartEnergy();
    TechnologyBApartEnergy();
    HealthcareApartEnergy();
    FinanceApartEnergy();
    TechnologyAApartConsumerGoods();
    TechnologyBApartConsumerGoods();
    HealthcareApartConsumerGoods();
    FinanceApartConsumerGoods();
    EnergyApartConsumerGoods();
    TechnologyAApartIndustrial();
    TechnologyBApartIndustrial();
    HealthcareApartIndustrial();
    FinanceApartIndustrial();
    EnergyApartIndustrial();
    ConsumerGoodsApartIndustrial();
    TechnologyAApartCommunications();
    TechnologyBApartCommunications();
    HealthcareApartCommunications();
    FinanceApartCommunications();
    EnergyApartCommunications();
    ConsumerGoodsApartCommunications();
    IndustrialApartCommunications();
    TechnologyAApartRealEstate();
    TechnologyBApartRealEstate();
    HealthcareApartRealEstate();
    FinanceApartRealEstate();
    EnergyApartRealEstate();
    ConsumerGoodsApartRealEstate();
    IndustrialApartRealEstate();
    CommunicationsApartRealEstate();
    PositiveConcat(TechnologyA, TechnologyB);
    DistinctConcat(TechnologyA, TechnologyB);
    ApartLeft(TechnologyA, TechnologyB, Healthcare);
    PositiveConcat(TechnologyA + TechnologyB, Healthcare);
    DistinctConcat(TechnologyA + TechnologyB, Healthcare);
    ApartLeft(TechnologyA, TechnologyB, Finance);
    ApartLeft(TechnologyA + TechnologyB, Healthcare, Finance);
    PositiveConcat(TechnologyA + TechnologyB + Healthcare, Finance);
    DistinctConcat(TechnologyA + TechnologyB + Healthcare, Finance);
    ApartLeft(TechnologyA, TechnologyB, Energy);
    ApartLeft(TechnologyA + TechnologyB, Healthcare, Energy);
    ApartLeft(TechnologyA + TechnologyB + Healthcare, Finance, Energy);
    PositiveConcat(TechnologyA + TechnologyB + Healthcare + Finance, Energy);
    DistinctConcat(TechnologyA + TechnologyB + Healthcare + Finance, Energy);
    ApartLeft(TechnologyA, TechnologyB, ConsumerGoods);
    ApartLeft(TechnologyA + TechnologyB, Healthcare, ConsumerGoods);
    ApartLeft(TechnologyA + TechnologyB + Healthcare, Finance, ConsumerGoods);
    ApartLeft(TechnologyA + TechnologyB + Healthcare + Finance, Energy, ConsumerGoods);
    PositiveConcat(TechnologyA + TechnologyB + Healthcare + Finance + Energy, ConsumerGoods);
    DistinctConcat(TechnologyA + TechnologyB + Healthcare + Finance + Energy, ConsumerGoods);
    ApartLeft(TechnologyA, TechnologyB, Industrial);
    ApartLeft(TechnologyA + TechnologyB, Healthcare, Industrial);
    ApartLeft(TechnologyA + TechnologyB + Healthcare, Finance, Industrial);
    ApartLeft(TechnologyA + TechnologyB + Healthcare + Finance, Energy, Industrial);
    ApartLeft(TechnologyA + TechnologyB + Healthcare + Finance + Energy, ConsumerGoods, Industrial);
    PositiveConcat(TechnologyA + TechnologyB + Healthcare + Finance + Energy + ConsumerGoods, Industrial);
    DistinctConcat(TechnologyA + TechnologyB + Healthcare + Finance + Energy + ConsumerGoods, Industrial);
    ApartLeft(TechnologyA, TechnologyB, Communications);
    ApartLeft(TechnologyA + TechnologyB, Healthcare, Communications);
    ApartLeft(TechnologyA + TechnologyB + Healthcare, Finance, Communications);
    ApartLeft(TechnologyA + TechnologyB + Healthcare + Finance, Energy, Communications);
    ApartLeft(TechnologyA + TechnologyB + Healthcare + Finance + Energy, ConsumerGoods, Communications);
    ApartLeft(TechnologyA + TechnologyB + Healthcare + Finance + Energy + ConsumerGoods, Industrial, Communications);
    PositiveConcat(TechnologyA + TechnologyB + Healthcare + Finance + Energy + ConsumerGoods + Industrial, Communications);
    DistinctConcat(TechnologyA + TechnologyB + Healthcare + Finance + Energy + ConsumerGoods + Industrial, Communications);
    ApartLeft(TechnologyA, TechnologyB, RealEstate);
    ApartLeft(TechnologyA + TechnologyB, Healthcare, RealEstate);
    ApartLeft(TechnologyA + TechnologyB + Healthcare, Finance, RealEstate);
    ApartLeft(TechnologyA + TechnologyB + Healthcare + Finance, Energy, RealEstate);
    ApartLeft(TechnologyA + TechnologyB + Healthcare + Finance + Energy, ConsumerGoods, RealEstate);
    ApartLeft(TechnologyA + TechnologyB + Healthcare + Finance + Energy + ConsumerGoods, Industrial, RealEstate);
    ApartLeft(TechnologyA + TechnologyB + Healthcare + Finance + Energy + ConsumerGoods + Industrial, Communications, RealEstate);
    PositiveConcat(TechnologyA + TechnologyB + Healthcare + Finance + Energy + ConsumerGoods + Industrial + Communications, RealEstate);
    DistinctConcat(TechnologyA + TechnologyB + Healthcare + Finance + Energy + ConsumerGoods + Industrial + Communications, RealEstate);
  }
}
