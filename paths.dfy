/**
 * The URL constants of src/tradier_api/tradier_types.py: the four base URLs
 * and the ApiPaths template table.
 *
 * ApiPaths is a Python Enum whose members are defined by string
 * concatenation. Inside the class body an earlier member's name still denotes
 * its plain string, so `ORDERS_BASE = ACCOUNTS_BASE + "/orders"` concatenates
 * strings. When two members end up with equal strings the later one is an
 * alias: a lookup by value returns the FIRST-declared member with that
 * string, and the alias's name is that member's name.
 */
module Paths {

  datatype Option<T> = None | Some(value: T)

  predicate StartsWith(s: string, prefix: string)
  {
    |prefix| <= |s| && s[..|prefix|] == prefix
  }

  // ---------------------------------------------------------------- BaseURL

  datatype BaseUrl = Api | Sandbox | Stream | WebSocket

  /** BaseURL.<member>.value */
  function BaseUrlValue(b: BaseUrl): string
  {
    match b
    case Api => "https://api.tradier.com"
    case Sandbox => "https://sandbox.tradier.com"
    case Stream => "https://stream.tradier.com"
    case WebSocket => "wss://ws.tradier.com"
  }

  /** Only the WebSocket base uses the wss:// scheme; the other three use https://. */
  lemma BaseUrlSchemes(b: BaseUrl)
    ensures StartsWith(BaseUrlValue(b), "wss://") <==> b == WebSocket
    ensures StartsWith(BaseUrlValue(b), "https://") <==> b != WebSocket
  {
    var v := BaseUrlValue(b);
    if b == WebSocket {
      assert v[..6] == "wss://";
      assert v[0] != "https://"[0];
    } else {
      assert v[..8] == "https://";
      assert v[0] != "wss://"[0];
    }
  }

  /** The four base URLs are pairwise distinct, so none of them is an Enum alias. */
  lemma BaseUrlsDistinct(b: BaseUrl, c: BaseUrl)
    requires b != c
    ensures BaseUrlValue(b) != BaseUrlValue(c)
  {
    assert |BaseUrlValue(b)| != |BaseUrlValue(c)|;
  }

  /**
   * The members of ApiPaths, grouped as the class body's comments group them.
   * The Enum itself is flat; the grouping only keeps each table small.
   */
  datatype ApiPath =
    | Base(base: BasePath)
    | Auth(auth: AuthPath)
    | Account(account: AccountPath)
    | Trade(trade: TradePath)
    | MarketData(marketData: MarketDataPath)
    | Fundamental(fundamental: FundamentalPath)
    | Streaming(streaming: StreamingPath)
    | WebSocketEvents(webSocketEvents: WebSocketPath)
    | Watchlist(watchlist: WatchlistPath)

  /** Base paths for parameterized URLs */
  datatype BasePath = OAuthBase | AccountsBase | OrdersBase | MarketsBase | OptionsBase | FundamentalsBase | WatchlistsBase
  /** Authentication endpoints */
  datatype AuthPath = GetAuthorization | CreateToken | RefreshToken
  /** Account endpoints */
  datatype AccountPath = GetProfile | GetBalances | GetPositions | GetHistory | GetGainLoss | GetOrders | GetAnOrder
  /** Trade endpoints */
  datatype TradePath = ModifyOrder | CancelOrder | PlaceOrder | PlaceEquityOrder | PlaceOptionOrder | PlaceMultilegOrder | PlaceComboOrder | PlaceOtoOrder | PlaceOcoOrder | PlaceOtocoOrder
  /** Market Data endpoints */
  datatype MarketDataPath = GetQuotes | GetOptionChains | GetOptionStrikes | GetOptionExpirations | LookupOptionSymbols | GetHistoricalPrices | GetTimeAndSales | GetEtbList | GetClock | GetCalendar | SearchCompanies | LookupSymbol
  /** Fundamental endpoints */
  datatype FundamentalPath = GetCompany | GetCorporateCalendar | GetDividends | GetCorporateActions | GetRatios | GetFinancialReports | GetPriceStats
  /** Streaming endpoints */
  datatype StreamingPath = CreateMarketSession | CreateAccountSession | GetStreamingQuotes
  /** WebSocket endpoints */
  datatype WebSocketPath = GetStreamingMarketEvents | GetStreamingAccountEvents
  /** Watchlist endpoints */
  datatype WatchlistPath = GetWatchlists | GetWatchlist | CreateWatchlist | UpdateWatchlist | DeleteWatchlist | AddWatchlistSymbol | DeleteWatchlistSymbol

  // ------------------------------------------------------ declaration order

  function BaseIndex(x: BasePath): nat
  {
    match x
    case OAuthBase => 0
    case AccountsBase => 1
    case OrdersBase => 2
    case MarketsBase => 3
    case OptionsBase => 4
    case FundamentalsBase => 5
    case WatchlistsBase => 6
  }

  function AuthIndex(x: AuthPath): nat
  {
    match x
    case GetAuthorization => 0
    case CreateToken => 1
    case RefreshToken => 2
  }

  function AccountIndex(x: AccountPath): nat
  {
    match x
    case GetProfile => 0
    case GetBalances => 1
    case GetPositions => 2
    case GetHistory => 3
    case GetGainLoss => 4
    case GetOrders => 5
    case GetAnOrder => 6
  }

  function TradeIndex(x: TradePath): nat
  {
    match x
    case ModifyOrder => 0
    case CancelOrder => 1
    case PlaceOrder => 2
    case PlaceEquityOrder => 3
    case PlaceOptionOrder => 4
    case PlaceMultilegOrder => 5
    case PlaceComboOrder => 6
    case PlaceOtoOrder => 7
    case PlaceOcoOrder => 8
    case PlaceOtocoOrder => 9
  }

  function MarketDataIndex(x: MarketDataPath): nat
  {
    match x
    case GetQuotes => 0
    case GetOptionChains => 1
    case GetOptionStrikes => 2
    case GetOptionExpirations => 3
    case LookupOptionSymbols => 4
    case GetHistoricalPrices => 5
    case GetTimeAndSales => 6
    case GetEtbList => 7
    case GetClock => 8
    case GetCalendar => 9
    case SearchCompanies => 10
    case LookupSymbol => 11
  }

  function FundamentalIndex(x: FundamentalPath): nat
  {
    match x
    case GetCompany => 0
    case GetCorporateCalendar => 1
    case GetDividends => 2
    case GetCorporateActions => 3
    case GetRatios => 4
    case GetFinancialReports => 5
    case GetPriceStats => 6
  }

  function StreamingIndex(x: StreamingPath): nat
  {
    match x
    case CreateMarketSession => 0
    case CreateAccountSession => 1
    case GetStreamingQuotes => 2
  }

  function WebSocketEventsIndex(x: WebSocketPath): nat
  {
    match x
    case GetStreamingMarketEvents => 0
    case GetStreamingAccountEvents => 1
  }

  function WatchlistIndex(x: WatchlistPath): nat
  {
    match x
    case GetWatchlists => 0
    case GetWatchlist => 1
    case CreateWatchlist => 2
    case UpdateWatchlist => 3
    case DeleteWatchlist => 4
    case AddWatchlistSymbol => 5
    case DeleteWatchlistSymbol => 6
  }

  /** Each member's position in the class body, counting from 0. */
  function Position(p: ApiPath): nat
  {
    match p
    case Base(x) => BaseIndex(x)
    case Auth(x) => 7 + AuthIndex(x)
    case Account(x) => 10 + AccountIndex(x)
    case Trade(x) => 17 + TradeIndex(x)
    case MarketData(x) => 27 + MarketDataIndex(x)
    case Fundamental(x) => 39 + FundamentalIndex(x)
    case Streaming(x) => 46 + StreamingIndex(x)
    case WebSocketEvents(x) => 49 + WebSocketEventsIndex(x)
    case Watchlist(x) => 51 + WatchlistIndex(x)
  }

  const MemberCount: nat := 58

  /** The member declared at position `i`. */
  function At(i: nat): ApiPath
    requires i < MemberCount
  {
    if i < 7 then Base(if i == 0 then OAuthBase else if i == 1 then AccountsBase else if i == 2 then OrdersBase else if i == 3 then MarketsBase else if i == 4 then OptionsBase else if i == 5 then FundamentalsBase else WatchlistsBase)
    else if i < 10 then Auth(if i == 7 then GetAuthorization else if i == 8 then CreateToken else RefreshToken)
    else if i < 17 then Account(if i == 10 then GetProfile else if i == 11 then GetBalances else if i == 12 then GetPositions else if i == 13 then GetHistory else if i == 14 then GetGainLoss else if i == 15 then GetOrders else GetAnOrder)
    else if i < 27 then Trade(if i == 17 then ModifyOrder else if i == 18 then CancelOrder else if i == 19 then PlaceOrder else if i == 20 then PlaceEquityOrder else if i == 21 then PlaceOptionOrder else if i == 22 then PlaceMultilegOrder else if i == 23 then PlaceComboOrder else if i == 24 then PlaceOtoOrder else if i == 25 then PlaceOcoOrder else PlaceOtocoOrder)
    else if i < 39 then MarketData(if i == 27 then GetQuotes else if i == 28 then GetOptionChains else if i == 29 then GetOptionStrikes else if i == 30 then GetOptionExpirations else if i == 31 then LookupOptionSymbols else if i == 32 then GetHistoricalPrices else if i == 33 then GetTimeAndSales else if i == 34 then GetEtbList else if i == 35 then GetClock else if i == 36 then GetCalendar else if i == 37 then SearchCompanies else LookupSymbol)
    else if i < 46 then Fundamental(if i == 39 then GetCompany else if i == 40 then GetCorporateCalendar else if i == 41 then GetDividends else if i == 42 then GetCorporateActions else if i == 43 then GetRatios else if i == 44 then GetFinancialReports else GetPriceStats)
    else if i < 49 then Streaming(if i == 46 then CreateMarketSession else if i == 47 then CreateAccountSession else GetStreamingQuotes)
    else if i < 51 then WebSocketEvents(if i == 49 then GetStreamingMarketEvents else GetStreamingAccountEvents)
    else Watchlist(if i == 51 then GetWatchlists else if i == 52 then GetWatchlist else if i == 53 then CreateWatchlist else if i == 54 then UpdateWatchlist else if i == 55 then DeleteWatchlist else if i == 56 then AddWatchlistSymbol else DeleteWatchlistSymbol)
  }

  /** Position and At are inverse: the positions number the members 0 .. 57. */
  lemma PositionAt(i: nat)
    requires i < MemberCount
    ensures Position(At(i)) == i
  {
  }

  lemma AtPosition(p: ApiPath)
    ensures Position(p) < MemberCount && At(Position(p)) == p
  {
    match p
    case Base(x) =>
    case Auth(x) =>
    case Account(x) =>
    case Trade(x) =>
    case MarketData(x) =>
    case Fundamental(x) =>
    case Streaming(x) =>
    case WebSocketEvents(x) =>
    case Watchlist(x) =>
  }

  // ----------------------------------------------------------------- shapes

  function Slot(name: string): string
  {
    "{" + name + "}"
  }

  /**
   * How a member's string is put together: literal text, `{name}`
   * placeholders, and the concatenations of the class body.
   */
  datatype Shape = Text(text: string) | Hole(name: string) | Cat(left: Shape, right: Shape)

  function Render(e: Shape): string
  {
    match e
    case Text(t) => t
    case Hole(n) => Slot(n)
    case Cat(a, b) => Render(a) + Render(b)
  }

  /** The placeholder names of a shape, left to right. */
  function Holes(e: Shape): seq<string>
  {
    match e
    case Text(_) => []
    case Hole(n) => [n]
    case Cat(a, b) => Holes(a) + Holes(b)
  }

  /** No text opens a placeholder and no placeholder name closes one. */
  predicate WellFormed(e: Shape)
  {
    match e
    case Text(t) => '{' !in t
    case Hole(n) => '}' !in n
    case Cat(a, b) => WellFormed(a) && WellFormed(b)
  }

  function BaseShape(x: BasePath): Shape
    decreases BaseIndex(x)
  {
    match x
    case OAuthBase => Text("/v1/oauth")
    case AccountsBase => Cat(Text("/v1/accounts/"), Hole("account_id"))
    case OrdersBase => Cat(BaseShape(AccountsBase), Text("/orders"))
    case MarketsBase => Text("/v1/markets")
    case OptionsBase => Cat(BaseShape(MarketsBase), Text("/options"))
    case FundamentalsBase => Text("/beta/markets/fundamentals")
    case WatchlistsBase => Text("/v1/watchlists")
  }

  function AuthShape(x: AuthPath): Shape
  {
    match x
    case GetAuthorization => Cat(BaseShape(OAuthBase), Text("/authorize"))
    case CreateToken => Cat(BaseShape(OAuthBase), Text("/accesstoken"))
    case RefreshToken => Cat(BaseShape(OAuthBase), Text("/refreshtoken"))
  }

  function AccountShape(x: AccountPath): Shape
  {
    match x
    case GetProfile => Text("/v1/user/profile")
    case GetBalances => Cat(BaseShape(AccountsBase), Text("/balances"))
    case GetPositions => Cat(BaseShape(AccountsBase), Text("/positions"))
    case GetHistory => Cat(BaseShape(AccountsBase), Text("/history"))
    case GetGainLoss => Cat(BaseShape(AccountsBase), Text("/gainloss"))
    case GetOrders => BaseShape(OrdersBase)
    case GetAnOrder => Cat(BaseShape(OrdersBase), Cat(Text("/"), Hole("order_id")))
  }

  function TradeShape(x: TradePath): Shape
    decreases TradeIndex(x)
  {
    match x
    case ModifyOrder => Cat(BaseShape(OrdersBase), Cat(Text("/"), Hole("order_id")))
    case CancelOrder => Cat(BaseShape(OrdersBase), Cat(Text("/"), Hole("order_id")))
    case PlaceOrder => BaseShape(OrdersBase)
    case PlaceEquityOrder => TradeShape(PlaceOrder)
    case PlaceOptionOrder => TradeShape(PlaceOrder)
    case PlaceMultilegOrder => TradeShape(PlaceOrder)
    case PlaceComboOrder => TradeShape(PlaceOrder)
    case PlaceOtoOrder => TradeShape(PlaceOrder)
    case PlaceOcoOrder => TradeShape(PlaceOrder)
    case PlaceOtocoOrder => TradeShape(PlaceOrder)
  }

  function MarketDataShape(x: MarketDataPath): Shape
  {
    match x
    case GetQuotes => Cat(BaseShape(MarketsBase), Text("/quotes"))
    case GetOptionChains => Cat(BaseShape(OptionsBase), Text("/chains"))
    case GetOptionStrikes => Cat(BaseShape(OptionsBase), Text("/strikes"))
    case GetOptionExpirations => Cat(BaseShape(OptionsBase), Text("/expirations"))
    case LookupOptionSymbols => Cat(BaseShape(OptionsBase), Text("/symbols"))
    case GetHistoricalPrices => Cat(BaseShape(MarketsBase), Text("/history"))
    case GetTimeAndSales => Cat(BaseShape(MarketsBase), Text("/timesales"))
    case GetEtbList => Cat(BaseShape(MarketsBase), Text("/etb"))
    case GetClock => Cat(BaseShape(MarketsBase), Text("/clock"))
    case GetCalendar => Cat(BaseShape(MarketsBase), Text("/calendar"))
    case SearchCompanies => Cat(BaseShape(MarketsBase), Text("/search"))
    case LookupSymbol => Cat(BaseShape(MarketsBase), Text("/lookup"))
  }

  function FundamentalShape(x: FundamentalPath): Shape
  {
    match x
    case GetCompany => Cat(BaseShape(FundamentalsBase), Text("/company"))
    case GetCorporateCalendar => Cat(BaseShape(FundamentalsBase), Text("/calendar"))
    case GetDividends => Cat(BaseShape(FundamentalsBase), Text("/dividends"))
    case GetCorporateActions => Cat(BaseShape(FundamentalsBase), Text("/corporate_actions"))
    case GetRatios => Cat(BaseShape(FundamentalsBase), Text("/ratios"))
    case GetFinancialReports => Cat(BaseShape(FundamentalsBase), Text("/financials"))
    case GetPriceStats => Cat(BaseShape(FundamentalsBase), Text("/statistics"))
  }

  function StreamingShape(x: StreamingPath): Shape
  {
    match x
    case CreateMarketSession => Cat(BaseShape(MarketsBase), Text("/events/session"))
    case CreateAccountSession => Cat(BaseShape(AccountsBase), Text("/events/session"))
    case GetStreamingQuotes => Cat(BaseShape(MarketsBase), Text("/events"))
  }

  function WebSocketEventsShape(x: WebSocketPath): Shape
  {
    match x
    case GetStreamingMarketEvents => Cat(BaseShape(MarketsBase), Text("/events"))
    case GetStreamingAccountEvents => Cat(BaseShape(AccountsBase), Text("/events"))
  }

  function WatchlistShape(x: WatchlistPath): Shape
    decreases WatchlistIndex(x)
  {
    match x
    case GetWatchlists => BaseShape(WatchlistsBase)
    case GetWatchlist => Cat(BaseShape(WatchlistsBase), Cat(Text("/"), Hole("watchlist_id")))
    case CreateWatchlist => BaseShape(WatchlistsBase)
    case UpdateWatchlist => WatchlistShape(GetWatchlist)
    case DeleteWatchlist => WatchlistShape(GetWatchlist)
    case AddWatchlistSymbol => WatchlistShape(GetWatchlist)
    case DeleteWatchlistSymbol => WatchlistShape(GetWatchlist)
  }

  /** How the class body builds each member's string. */
  function ShapeOf(p: ApiPath): Shape
  {
    match p
    case Base(x) => BaseShape(x)
    case Auth(x) => AuthShape(x)
    case Account(x) => AccountShape(x)
    case Trade(x) => TradeShape(x)
    case MarketData(x) => MarketDataShape(x)
    case Fundamental(x) => FundamentalShape(x)
    case Streaming(x) => StreamingShape(x)
    case WebSocketEvents(x) => WebSocketEventsShape(x)
    case Watchlist(x) => WatchlistShape(x)
  }

  /** ApiPaths.<member>.value */
  function Template(p: ApiPath): string
  {
    Render(ShapeOf(p))
  }

  /** The placeholders each member's string names, in order. */
  function Slots(p: ApiPath): seq<string>
  {
    match p
    case Base(OAuthBase) => []
    case Base(AccountsBase) => ["account_id"]
    case Base(OrdersBase) => ["account_id"]
    case Base(MarketsBase) => []
    case Base(OptionsBase) => []
    case Base(FundamentalsBase) => []
    case Base(WatchlistsBase) => []
    case Auth(GetAuthorization) => []
    case Auth(CreateToken) => []
    case Auth(RefreshToken) => []
    case Account(GetProfile) => []
    case Account(GetBalances) => ["account_id"]
    case Account(GetPositions) => ["account_id"]
    case Account(GetHistory) => ["account_id"]
    case Account(GetGainLoss) => ["account_id"]
    case Account(GetOrders) => ["account_id"]
    case Account(GetAnOrder) => ["account_id", "order_id"]
    case Trade(ModifyOrder) => ["account_id", "order_id"]
    case Trade(CancelOrder) => ["account_id", "order_id"]
    case Trade(PlaceOrder) => ["account_id"]
    case Trade(PlaceEquityOrder) => ["account_id"]
    case Trade(PlaceOptionOrder) => ["account_id"]
    case Trade(PlaceMultilegOrder) => ["account_id"]
    case Trade(PlaceComboOrder) => ["account_id"]
    case Trade(PlaceOtoOrder) => ["account_id"]
    case Trade(PlaceOcoOrder) => ["account_id"]
    case Trade(PlaceOtocoOrder) => ["account_id"]
    case MarketData(GetQuotes) => []
    case MarketData(GetOptionChains) => []
    case MarketData(GetOptionStrikes) => []
    case MarketData(GetOptionExpirations) => []
    case MarketData(LookupOptionSymbols) => []
    case MarketData(GetHistoricalPrices) => []
    case MarketData(GetTimeAndSales) => []
    case MarketData(GetEtbList) => []
    case MarketData(GetClock) => []
    case MarketData(GetCalendar) => []
    case MarketData(SearchCompanies) => []
    case MarketData(LookupSymbol) => []
    case Fundamental(GetCompany) => []
    case Fundamental(GetCorporateCalendar) => []
    case Fundamental(GetDividends) => []
    case Fundamental(GetCorporateActions) => []
    case Fundamental(GetRatios) => []
    case Fundamental(GetFinancialReports) => []
    case Fundamental(GetPriceStats) => []
    case Streaming(CreateMarketSession) => []
    case Streaming(CreateAccountSession) => ["account_id"]
    case Streaming(GetStreamingQuotes) => []
    case WebSocketEvents(GetStreamingMarketEvents) => []
    case WebSocketEvents(GetStreamingAccountEvents) => ["account_id"]
    case Watchlist(GetWatchlists) => []
    case Watchlist(GetWatchlist) => ["watchlist_id"]
    case Watchlist(CreateWatchlist) => []
    case Watchlist(UpdateWatchlist) => ["watchlist_id"]
    case Watchlist(DeleteWatchlist) => ["watchlist_id"]
    case Watchlist(AddWatchlistSymbol) => ["watchlist_id"]
    case Watchlist(DeleteWatchlistSymbol) => ["watchlist_id"]
  }

  // The per-member facts below are case analyses over the enumeration. They
  // are cut into small numbered lemmas, a few members each, only so that each
  // proof stays within the solver's budget; each group's unnumbered lemma
  // gathers its parts, and ShapesWellFormed (further down) states the claim.

  lemma {:induction false} BaseShapesWellFormed0(x: BasePath)
    requires x == OAuthBase || x == AccountsBase
    ensures WellFormed(BaseShape(x))
    decreases BaseIndex(x)
  {
    match x
    case OAuthBase =>
    case AccountsBase =>
    case _ =>
  }

  lemma {:induction false} BaseShapesWellFormed1(x: BasePath)
    requires x == OrdersBase || x == MarketsBase
    ensures WellFormed(BaseShape(x))
    decreases BaseIndex(x)
  {
    match x
    case OrdersBase => BaseShapesWellFormed0(AccountsBase);
    case MarketsBase =>
    case _ =>
  }

  lemma {:induction false} BaseShapesWellFormed2(x: BasePath)
    requires x == OptionsBase || x == FundamentalsBase
    ensures WellFormed(BaseShape(x))
    decreases BaseIndex(x)
  {
    match x
    case OptionsBase => BaseShapesWellFormed1(MarketsBase);
    case FundamentalsBase =>
    case _ =>
  }

  lemma {:induction false} BaseShapesWellFormed3(x: BasePath)
    requires x == WatchlistsBase
    ensures WellFormed(BaseShape(x))
    decreases BaseIndex(x)
  {
    match x
    case WatchlistsBase =>
    case _ =>
  }

  lemma BaseShapesWellFormed(x: BasePath)
    ensures WellFormed(BaseShape(x))
  {
    match x
    case OAuthBase => BaseShapesWellFormed0(x);
    case AccountsBase => BaseShapesWellFormed0(x);
    case OrdersBase => BaseShapesWellFormed1(x);
    case MarketsBase => BaseShapesWellFormed1(x);
    case OptionsBase => BaseShapesWellFormed2(x);
    case FundamentalsBase => BaseShapesWellFormed2(x);
    case WatchlistsBase => BaseShapesWellFormed3(x);
  }

  lemma {:induction false} AuthShapesWellFormed0(x: AuthPath)
    requires x == GetAuthorization || x == CreateToken
    ensures WellFormed(AuthShape(x))
  {
    match x
    case GetAuthorization => BaseShapesWellFormed0(OAuthBase);
    case CreateToken => BaseShapesWellFormed0(OAuthBase);
    case _ =>
  }

  lemma {:induction false} AuthShapesWellFormed1(x: AuthPath)
    requires x == RefreshToken
    ensures WellFormed(AuthShape(x))
  {
    match x
    case RefreshToken => BaseShapesWellFormed0(OAuthBase);
    case _ =>
  }

  lemma AuthShapesWellFormed(x: AuthPath)
    ensures WellFormed(AuthShape(x))
  {
    match x
    case GetAuthorization => AuthShapesWellFormed0(x);
    case CreateToken => AuthShapesWellFormed0(x);
    case RefreshToken => AuthShapesWellFormed1(x);
  }

  lemma {:induction false} AccountShapesWellFormed0(x: AccountPath)
    requires x == GetProfile || x == GetBalances
    ensures WellFormed(AccountShape(x))
  {
    match x
    case GetProfile =>
    case GetBalances => BaseShapesWellFormed0(AccountsBase);
    case _ =>
  }

  lemma {:induction false} AccountShapesWellFormed1(x: AccountPath)
    requires x == GetPositions || x == GetHistory
    ensures WellFormed(AccountShape(x))
  {
    match x
    case GetPositions => BaseShapesWellFormed0(AccountsBase);
    case GetHistory => BaseShapesWellFormed0(AccountsBase);
    case _ =>
  }

  lemma {:induction false} AccountShapesWellFormed2(x: AccountPath)
    requires x == GetGainLoss || x == GetOrders
    ensures WellFormed(AccountShape(x))
  {
    match x
    case GetGainLoss => BaseShapesWellFormed0(AccountsBase);
    case GetOrders => BaseShapesWellFormed1(OrdersBase);
    case _ =>
  }

  lemma {:induction false} AccountShapesWellFormed3(x: AccountPath)
    requires x == GetAnOrder
    ensures WellFormed(AccountShape(x))
  {
    match x
    case GetAnOrder => BaseShapesWellFormed1(OrdersBase);
    case _ =>
  }

  lemma AccountShapesWellFormed(x: AccountPath)
    ensures WellFormed(AccountShape(x))
  {
    match x
    case GetProfile => AccountShapesWellFormed0(x);
    case GetBalances => AccountShapesWellFormed0(x);
    case GetPositions => AccountShapesWellFormed1(x);
    case GetHistory => AccountShapesWellFormed1(x);
    case GetGainLoss => AccountShapesWellFormed2(x);
    case GetOrders => AccountShapesWellFormed2(x);
    case GetAnOrder => AccountShapesWellFormed3(x);
  }

  lemma {:induction false} TradeShapesWellFormed0(x: TradePath)
    requires x == ModifyOrder || x == CancelOrder
    ensures WellFormed(TradeShape(x))
    decreases TradeIndex(x)
  {
    match x
    case ModifyOrder => BaseShapesWellFormed1(OrdersBase);
    case CancelOrder => BaseShapesWellFormed1(OrdersBase);
    case _ =>
  }

  lemma {:induction false} TradeShapesWellFormed1(x: TradePath)
    requires x == PlaceOrder || x == PlaceEquityOrder
    ensures WellFormed(TradeShape(x))
    decreases TradeIndex(x)
  {
    match x
    case PlaceOrder => BaseShapesWellFormed1(OrdersBase);
    case PlaceEquityOrder => TradeShapesWellFormed1(PlaceOrder);
    case _ =>
  }

  lemma {:induction false} TradeShapesWellFormed2(x: TradePath)
    requires x == PlaceOptionOrder || x == PlaceMultilegOrder
    ensures WellFormed(TradeShape(x))
    decreases TradeIndex(x)
  {
    match x
    case PlaceOptionOrder => TradeShapesWellFormed1(PlaceOrder);
    case PlaceMultilegOrder => TradeShapesWellFormed1(PlaceOrder);
    case _ =>
  }

  lemma {:induction false} TradeShapesWellFormed3(x: TradePath)
    requires x == PlaceComboOrder || x == PlaceOtoOrder
    ensures WellFormed(TradeShape(x))
    decreases TradeIndex(x)
  {
    match x
    case PlaceComboOrder => TradeShapesWellFormed1(PlaceOrder);
    case PlaceOtoOrder => TradeShapesWellFormed1(PlaceOrder);
    case _ =>
  }

  lemma {:induction false} TradeShapesWellFormed4(x: TradePath)
    requires x == PlaceOcoOrder || x == PlaceOtocoOrder
    ensures WellFormed(TradeShape(x))
    decreases TradeIndex(x)
  {
    match x
    case PlaceOcoOrder => TradeShapesWellFormed1(PlaceOrder);
    case PlaceOtocoOrder => TradeShapesWellFormed1(PlaceOrder);
    case _ =>
  }

  lemma TradeShapesWellFormed(x: TradePath)
    ensures WellFormed(TradeShape(x))
  {
    match x
    case ModifyOrder => TradeShapesWellFormed0(x);
    case CancelOrder => TradeShapesWellFormed0(x);
    case PlaceOrder => TradeShapesWellFormed1(x);
    case PlaceEquityOrder => TradeShapesWellFormed1(x);
    case PlaceOptionOrder => TradeShapesWellFormed2(x);
    case PlaceMultilegOrder => TradeShapesWellFormed2(x);
    case PlaceComboOrder => TradeShapesWellFormed3(x);
    case PlaceOtoOrder => TradeShapesWellFormed3(x);
    case PlaceOcoOrder => TradeShapesWellFormed4(x);
    case PlaceOtocoOrder => TradeShapesWellFormed4(x);
  }

  lemma {:induction false} MarketDataShapesWellFormed0(x: MarketDataPath)
    requires x == GetQuotes || x == GetOptionChains
    ensures WellFormed(MarketDataShape(x))
  {
    match x
    case GetQuotes => BaseShapesWellFormed1(MarketsBase);
    case GetOptionChains => BaseShapesWellFormed2(OptionsBase);
    case _ =>
  }

  lemma {:induction false} MarketDataShapesWellFormed1(x: MarketDataPath)
    requires x == GetOptionStrikes || x == GetOptionExpirations
    ensures WellFormed(MarketDataShape(x))
  {
    match x
    case GetOptionStrikes => BaseShapesWellFormed2(OptionsBase);
    case GetOptionExpirations => BaseShapesWellFormed2(OptionsBase);
    case _ =>
  }

  lemma {:induction false} MarketDataShapesWellFormed2(x: MarketDataPath)
    requires x == LookupOptionSymbols || x == GetHistoricalPrices
    ensures WellFormed(MarketDataShape(x))
  {
    match x
    case LookupOptionSymbols => BaseShapesWellFormed2(OptionsBase);
    case GetHistoricalPrices => BaseShapesWellFormed1(MarketsBase);
    case _ =>
  }

  lemma {:induction false} MarketDataShapesWellFormed3(x: MarketDataPath)
    requires x == GetTimeAndSales || x == GetEtbList
    ensures WellFormed(MarketDataShape(x))
  {
    match x
    case GetTimeAndSales => BaseShapesWellFormed1(MarketsBase);
    case GetEtbList => BaseShapesWellFormed1(MarketsBase);
    case _ =>
  }

  lemma {:induction false} MarketDataShapesWellFormed4(x: MarketDataPath)
    requires x == GetClock || x == GetCalendar
    ensures WellFormed(MarketDataShape(x))
  {
    match x
    case GetClock => BaseShapesWellFormed1(MarketsBase);
    case GetCalendar => BaseShapesWellFormed1(MarketsBase);
    case _ =>
  }

  lemma {:induction false} MarketDataShapesWellFormed5(x: MarketDataPath)
    requires x == SearchCompanies || x == LookupSymbol
    ensures WellFormed(MarketDataShape(x))
  {
    match x
    case SearchCompanies => BaseShapesWellFormed1(MarketsBase);
    case LookupSymbol => BaseShapesWellFormed1(MarketsBase);
    case _ =>
  }

  lemma MarketDataShapesWellFormed(x: MarketDataPath)
    ensures WellFormed(MarketDataShape(x))
  {
    match x
    case GetQuotes => MarketDataShapesWellFormed0(x);
    case GetOptionChains => MarketDataShapesWellFormed0(x);
    case GetOptionStrikes => MarketDataShapesWellFormed1(x);
    case GetOptionExpirations => MarketDataShapesWellFormed1(x);
    case LookupOptionSymbols => MarketDataShapesWellFormed2(x);
    case GetHistoricalPrices => MarketDataShapesWellFormed2(x);
    case GetTimeAndSales => MarketDataShapesWellFormed3(x);
    case GetEtbList => MarketDataShapesWellFormed3(x);
    case GetClock => MarketDataShapesWellFormed4(x);
    case GetCalendar => MarketDataShapesWellFormed4(x);
    case SearchCompanies => MarketDataShapesWellFormed5(x);
    case LookupSymbol => MarketDataShapesWellFormed5(x);
  }

  lemma {:induction false} FundamentalShapesWellFormed0(x: FundamentalPath)
    requires x == GetCompany || x == GetCorporateCalendar
    ensures WellFormed(FundamentalShape(x))
  {
    match x
    case GetCompany => BaseShapesWellFormed2(FundamentalsBase);
    case GetCorporateCalendar => BaseShapesWellFormed2(FundamentalsBase);
    case _ =>
  }

  lemma {:induction false} FundamentalShapesWellFormed1(x: FundamentalPath)
    requires x == GetDividends || x == GetCorporateActions
    ensures WellFormed(FundamentalShape(x))
  {
    match x
    case GetDividends => BaseShapesWellFormed2(FundamentalsBase);
    case GetCorporateActions => BaseShapesWellFormed2(FundamentalsBase);
    case _ =>
  }

  lemma {:induction false} FundamentalShapesWellFormed2(x: FundamentalPath)
    requires x == GetRatios || x == GetFinancialReports
    ensures WellFormed(FundamentalShape(x))
  {
    match x
    case GetRatios => BaseShapesWellFormed2(FundamentalsBase);
    case GetFinancialReports => BaseShapesWellFormed2(FundamentalsBase);
    case _ =>
  }

  lemma {:induction false} FundamentalShapesWellFormed3(x: FundamentalPath)
    requires x == GetPriceStats
    ensures WellFormed(FundamentalShape(x))
  {
    match x
    case GetPriceStats => BaseShapesWellFormed2(FundamentalsBase);
    case _ =>
  }

  lemma FundamentalShapesWellFormed(x: FundamentalPath)
    ensures WellFormed(FundamentalShape(x))
  {
    match x
    case GetCompany => FundamentalShapesWellFormed0(x);
    case GetCorporateCalendar => FundamentalShapesWellFormed0(x);
    case GetDividends => FundamentalShapesWellFormed1(x);
    case GetCorporateActions => FundamentalShapesWellFormed1(x);
    case GetRatios => FundamentalShapesWellFormed2(x);
    case GetFinancialReports => FundamentalShapesWellFormed2(x);
    case GetPriceStats => FundamentalShapesWellFormed3(x);
  }

  lemma {:induction false} StreamingShapesWellFormed0(x: StreamingPath)
    requires x == CreateMarketSession || x == CreateAccountSession
    ensures WellFormed(StreamingShape(x))
  {
    match x
    case CreateMarketSession => BaseShapesWellFormed1(MarketsBase);
    case CreateAccountSession => BaseShapesWellFormed0(AccountsBase);
    case _ =>
  }

  lemma {:induction false} StreamingShapesWellFormed1(x: StreamingPath)
    requires x == GetStreamingQuotes
    ensures WellFormed(StreamingShape(x))
  {
    match x
    case GetStreamingQuotes => BaseShapesWellFormed1(MarketsBase);
    case _ =>
  }

  lemma StreamingShapesWellFormed(x: StreamingPath)
    ensures WellFormed(StreamingShape(x))
  {
    match x
    case CreateMarketSession => StreamingShapesWellFormed0(x);
    case CreateAccountSession => StreamingShapesWellFormed0(x);
    case GetStreamingQuotes => StreamingShapesWellFormed1(x);
  }

  lemma {:induction false} WebSocketEventsShapesWellFormed(x: WebSocketPath)
    ensures WellFormed(WebSocketEventsShape(x))
  {
    match x
    case GetStreamingMarketEvents => BaseShapesWellFormed1(MarketsBase);
    case GetStreamingAccountEvents => BaseShapesWellFormed0(AccountsBase);
  }

  lemma {:induction false} WatchlistShapesWellFormed0(x: WatchlistPath)
    requires x == GetWatchlists || x == GetWatchlist
    ensures WellFormed(WatchlistShape(x))
    decreases WatchlistIndex(x)
  {
    match x
    case GetWatchlists => BaseShapesWellFormed3(WatchlistsBase);
    case GetWatchlist => BaseShapesWellFormed3(WatchlistsBase);
    case _ =>
  }

  lemma {:induction false} WatchlistShapesWellFormed1(x: WatchlistPath)
    requires x == CreateWatchlist || x == UpdateWatchlist
    ensures WellFormed(WatchlistShape(x))
    decreases WatchlistIndex(x)
  {
    match x
    case CreateWatchlist => BaseShapesWellFormed3(WatchlistsBase);
    case UpdateWatchlist => WatchlistShapesWellFormed0(GetWatchlist);
    case _ =>
  }

  lemma {:induction false} WatchlistShapesWellFormed2(x: WatchlistPath)
    requires x == DeleteWatchlist || x == AddWatchlistSymbol
    ensures WellFormed(WatchlistShape(x))
    decreases WatchlistIndex(x)
  {
    match x
    case DeleteWatchlist => WatchlistShapesWellFormed0(GetWatchlist);
    case AddWatchlistSymbol => WatchlistShapesWellFormed0(GetWatchlist);
    case _ =>
  }

  lemma {:induction false} WatchlistShapesWellFormed3(x: WatchlistPath)
    requires x == DeleteWatchlistSymbol
    ensures WellFormed(WatchlistShape(x))
    decreases WatchlistIndex(x)
  {
    match x
    case DeleteWatchlistSymbol => WatchlistShapesWellFormed0(GetWatchlist);
    case _ =>
  }

  lemma WatchlistShapesWellFormed(x: WatchlistPath)
    ensures WellFormed(WatchlistShape(x))
  {
    match x
    case GetWatchlists => WatchlistShapesWellFormed0(x);
    case GetWatchlist => WatchlistShapesWellFormed0(x);
    case CreateWatchlist => WatchlistShapesWellFormed1(x);
    case UpdateWatchlist => WatchlistShapesWellFormed1(x);
    case DeleteWatchlist => WatchlistShapesWellFormed2(x);
    case AddWatchlistSymbol => WatchlistShapesWellFormed2(x);
    case DeleteWatchlistSymbol => WatchlistShapesWellFormed3(x);
  }

  lemma {:induction false} BaseShapeHoles0(x: BasePath)
    requires x == OAuthBase || x == AccountsBase
    ensures Holes(BaseShape(x)) == Slots(Base(x))
    decreases BaseIndex(x)
  {
    match x
    case OAuthBase =>
    case AccountsBase =>
    case _ =>
  }

  lemma {:induction false} BaseShapeHoles1(x: BasePath)
    requires x == OrdersBase || x == MarketsBase
    ensures Holes(BaseShape(x)) == Slots(Base(x))
    decreases BaseIndex(x)
  {
    match x
    case OrdersBase => BaseShapeHoles0(AccountsBase);
    case MarketsBase =>
    case _ =>
  }

  lemma {:induction false} BaseShapeHoles2(x: BasePath)
    requires x == OptionsBase || x == FundamentalsBase
    ensures Holes(BaseShape(x)) == Slots(Base(x))
    decreases BaseIndex(x)
  {
    match x
    case OptionsBase => BaseShapeHoles1(MarketsBase);
    case FundamentalsBase =>
    case _ =>
  }

  lemma {:induction false} BaseShapeHoles3(x: BasePath)
    requires x == WatchlistsBase
    ensures Holes(BaseShape(x)) == Slots(Base(x))
    decreases BaseIndex(x)
  {
    match x
    case WatchlistsBase =>
    case _ =>
  }

  lemma BaseShapeHoles(x: BasePath)
    ensures Holes(BaseShape(x)) == Slots(Base(x))
  {
    match x
    case OAuthBase => BaseShapeHoles0(x);
    case AccountsBase => BaseShapeHoles0(x);
    case OrdersBase => BaseShapeHoles1(x);
    case MarketsBase => BaseShapeHoles1(x);
    case OptionsBase => BaseShapeHoles2(x);
    case FundamentalsBase => BaseShapeHoles2(x);
    case WatchlistsBase => BaseShapeHoles3(x);
  }

  lemma {:induction false} AuthShapeHoles0(x: AuthPath)
    requires x == GetAuthorization || x == CreateToken
    ensures Holes(AuthShape(x)) == Slots(Auth(x))
  {
    match x
    case GetAuthorization => BaseShapeHoles0(OAuthBase);
    case CreateToken => BaseShapeHoles0(OAuthBase);
    case _ =>
  }

  lemma {:induction false} AuthShapeHoles1(x: AuthPath)
    requires x == RefreshToken
    ensures Holes(AuthShape(x)) == Slots(Auth(x))
  {
    match x
    case RefreshToken => BaseShapeHoles0(OAuthBase);
    case _ =>
  }

  lemma AuthShapeHoles(x: AuthPath)
    ensures Holes(AuthShape(x)) == Slots(Auth(x))
  {
    match x
    case GetAuthorization => AuthShapeHoles0(x);
    case CreateToken => AuthShapeHoles0(x);
    case RefreshToken => AuthShapeHoles1(x);
  }

  lemma {:induction false} AccountShapeHoles0(x: AccountPath)
    requires x == GetProfile || x == GetBalances
    ensures Holes(AccountShape(x)) == Slots(Account(x))
  {
    match x
    case GetProfile =>
    case GetBalances => BaseShapeHoles0(AccountsBase);
    case _ =>
  }

  lemma {:induction false} AccountShapeHoles1(x: AccountPath)
    requires x == GetPositions || x == GetHistory
    ensures Holes(AccountShape(x)) == Slots(Account(x))
  {
    match x
    case GetPositions => BaseShapeHoles0(AccountsBase);
    case GetHistory => BaseShapeHoles0(AccountsBase);
    case _ =>
  }

  lemma {:induction false} AccountShapeHoles2(x: AccountPath)
    requires x == GetGainLoss || x == GetOrders
    ensures Holes(AccountShape(x)) == Slots(Account(x))
  {
    match x
    case GetGainLoss => BaseShapeHoles0(AccountsBase);
    case GetOrders => BaseShapeHoles1(OrdersBase);
    case _ =>
  }

  lemma {:induction false} AccountShapeHoles3(x: AccountPath)
    requires x == GetAnOrder
    ensures Holes(AccountShape(x)) == Slots(Account(x))
  {
    match x
    case GetAnOrder => BaseShapeHoles1(OrdersBase);
    case _ =>
  }

  lemma AccountShapeHoles(x: AccountPath)
    ensures Holes(AccountShape(x)) == Slots(Account(x))
  {
    match x
    case GetProfile => AccountShapeHoles0(x);
    case GetBalances => AccountShapeHoles0(x);
    case GetPositions => AccountShapeHoles1(x);
    case GetHistory => AccountShapeHoles1(x);
    case GetGainLoss => AccountShapeHoles2(x);
    case GetOrders => AccountShapeHoles2(x);
    case GetAnOrder => AccountShapeHoles3(x);
  }

  lemma {:induction false} TradeShapeHoles0(x: TradePath)
    requires x == ModifyOrder || x == CancelOrder
    ensures Holes(TradeShape(x)) == Slots(Trade(x))
    decreases TradeIndex(x)
  {
    match x
    case ModifyOrder => BaseShapeHoles1(OrdersBase);
    case CancelOrder => BaseShapeHoles1(OrdersBase);
    case _ =>
  }

  lemma {:induction false} TradeShapeHoles1(x: TradePath)
    requires x == PlaceOrder || x == PlaceEquityOrder
    ensures Holes(TradeShape(x)) == Slots(Trade(x))
    decreases TradeIndex(x)
  {
    match x
    case PlaceOrder => BaseShapeHoles1(OrdersBase);
    case PlaceEquityOrder => TradeShapeHoles1(PlaceOrder);
    case _ =>
  }

  lemma {:induction false} TradeShapeHoles2(x: TradePath)
    requires x == PlaceOptionOrder || x == PlaceMultilegOrder
    ensures Holes(TradeShape(x)) == Slots(Trade(x))
    decreases TradeIndex(x)
  {
    match x
    case PlaceOptionOrder => TradeShapeHoles1(PlaceOrder);
    case PlaceMultilegOrder => TradeShapeHoles1(PlaceOrder);
    case _ =>
  }

  lemma {:induction false} TradeShapeHoles3(x: TradePath)
    requires x == PlaceComboOrder || x == PlaceOtoOrder
    ensures Holes(TradeShape(x)) == Slots(Trade(x))
    decreases TradeIndex(x)
  {
    match x
    case PlaceComboOrder => TradeShapeHoles1(PlaceOrder);
    case PlaceOtoOrder => TradeShapeHoles1(PlaceOrder);
    case _ =>
  }

  lemma {:induction false} TradeShapeHoles4(x: TradePath)
    requires x == PlaceOcoOrder || x == PlaceOtocoOrder
    ensures Holes(TradeShape(x)) == Slots(Trade(x))
    decreases TradeIndex(x)
  {
    match x
    case PlaceOcoOrder => TradeShapeHoles1(PlaceOrder);
    case PlaceOtocoOrder => TradeShapeHoles1(PlaceOrder);
    case _ =>
  }

  lemma TradeShapeHoles(x: TradePath)
    ensures Holes(TradeShape(x)) == Slots(Trade(x))
  {
    match x
    case ModifyOrder => TradeShapeHoles0(x);
    case CancelOrder => TradeShapeHoles0(x);
    case PlaceOrder => TradeShapeHoles1(x);
    case PlaceEquityOrder => TradeShapeHoles1(x);
    case PlaceOptionOrder => TradeShapeHoles2(x);
    case PlaceMultilegOrder => TradeShapeHoles2(x);
    case PlaceComboOrder => TradeShapeHoles3(x);
    case PlaceOtoOrder => TradeShapeHoles3(x);
    case PlaceOcoOrder => TradeShapeHoles4(x);
    case PlaceOtocoOrder => TradeShapeHoles4(x);
  }

  lemma {:induction false} MarketDataShapeHoles0(x: MarketDataPath)
    requires x == GetQuotes || x == GetOptionChains
    ensures Holes(MarketDataShape(x)) == Slots(MarketData(x))
  {
    match x
    case GetQuotes => BaseShapeHoles1(MarketsBase);
    case GetOptionChains => BaseShapeHoles2(OptionsBase);
    case _ =>
  }

  lemma {:induction false} MarketDataShapeHoles1(x: MarketDataPath)
    requires x == GetOptionStrikes || x == GetOptionExpirations
    ensures Holes(MarketDataShape(x)) == Slots(MarketData(x))
  {
    match x
    case GetOptionStrikes => BaseShapeHoles2(OptionsBase);
    case GetOptionExpirations => BaseShapeHoles2(OptionsBase);
    case _ =>
  }

  lemma {:induction false} MarketDataShapeHoles2(x: MarketDataPath)
    requires x == LookupOptionSymbols || x == GetHistoricalPrices
    ensures Holes(MarketDataShape(x)) == Slots(MarketData(x))
  {
    match x
    case LookupOptionSymbols => BaseShapeHoles2(OptionsBase);
    case GetHistoricalPrices => BaseShapeHoles1(MarketsBase);
    case _ =>
  }

  lemma {:induction false} MarketDataShapeHoles3(x: MarketDataPath)
    requires x == GetTimeAndSales || x == GetEtbList
    ensures Holes(MarketDataShape(x)) == Slots(MarketData(x))
  {
    match x
    case GetTimeAndSales => BaseShapeHoles1(MarketsBase);
    case GetEtbList => BaseShapeHoles1(MarketsBase);
    case _ =>
  }

  lemma {:induction false} MarketDataShapeHoles4(x: MarketDataPath)
    requires x == GetClock || x == GetCalendar
    ensures Holes(MarketDataShape(x)) == Slots(MarketData(x))
  {
    match x
    case GetClock => BaseShapeHoles1(MarketsBase);
    case GetCalendar => BaseShapeHoles1(MarketsBase);
    case _ =>
  }

  lemma {:induction false} MarketDataShapeHoles5(x: MarketDataPath)
    requires x == SearchCompanies || x == LookupSymbol
    ensures Holes(MarketDataShape(x)) == Slots(MarketData(x))
  {
    match x
    case SearchCompanies => BaseShapeHoles1(MarketsBase);
    case LookupSymbol => BaseShapeHoles1(MarketsBase);
    case _ =>
  }

  lemma MarketDataShapeHoles(x: MarketDataPath)
    ensures Holes(MarketDataShape(x)) == Slots(MarketData(x))
  {
    match x
    case GetQuotes => MarketDataShapeHoles0(x);
    case GetOptionChains => MarketDataShapeHoles0(x);
    case GetOptionStrikes => MarketDataShapeHoles1(x);
    case GetOptionExpirations => MarketDataShapeHoles1(x);
    case LookupOptionSymbols => MarketDataShapeHoles2(x);
    case GetHistoricalPrices => MarketDataShapeHoles2(x);
    case GetTimeAndSales => MarketDataShapeHoles3(x);
    case GetEtbList => MarketDataShapeHoles3(x);
    case GetClock => MarketDataShapeHoles4(x);
    case GetCalendar => MarketDataShapeHoles4(x);
    case SearchCompanies => MarketDataShapeHoles5(x);
    case LookupSymbol => MarketDataShapeHoles5(x);
  }

  lemma {:induction false} FundamentalShapeHoles0(x: FundamentalPath)
    requires x == GetCompany || x == GetCorporateCalendar
    ensures Holes(FundamentalShape(x)) == Slots(Fundamental(x))
  {
    match x
    case GetCompany => BaseShapeHoles2(FundamentalsBase);
    case GetCorporateCalendar => BaseShapeHoles2(FundamentalsBase);
    case _ =>
  }

  lemma {:induction false} FundamentalShapeHoles1(x: FundamentalPath)
    requires x == GetDividends || x == GetCorporateActions
    ensures Holes(FundamentalShape(x)) == Slots(Fundamental(x))
  {
    match x
    case GetDividends => BaseShapeHoles2(FundamentalsBase);
    case GetCorporateActions => BaseShapeHoles2(FundamentalsBase);
    case _ =>
  }

  lemma {:induction false} FundamentalShapeHoles2(x: FundamentalPath)
    requires x == GetRatios || x == GetFinancialReports
    ensures Holes(FundamentalShape(x)) == Slots(Fundamental(x))
  {
    match x
    case GetRatios => BaseShapeHoles2(FundamentalsBase);
    case GetFinancialReports => BaseShapeHoles2(FundamentalsBase);
    case _ =>
  }

  lemma {:induction false} FundamentalShapeHoles3(x: FundamentalPath)
    requires x == GetPriceStats
    ensures Holes(FundamentalShape(x)) == Slots(Fundamental(x))
  {
    match x
    case GetPriceStats => BaseShapeHoles2(FundamentalsBase);
    case _ =>
  }

  lemma FundamentalShapeHoles(x: FundamentalPath)
    ensures Holes(FundamentalShape(x)) == Slots(Fundamental(x))
  {
    match x
    case GetCompany => FundamentalShapeHoles0(x);
    case GetCorporateCalendar => FundamentalShapeHoles0(x);
    case GetDividends => FundamentalShapeHoles1(x);
    case GetCorporateActions => FundamentalShapeHoles1(x);
    case GetRatios => FundamentalShapeHoles2(x);
    case GetFinancialReports => FundamentalShapeHoles2(x);
    case GetPriceStats => FundamentalShapeHoles3(x);
  }

  lemma {:induction false} StreamingShapeHoles0(x: StreamingPath)
    requires x == CreateMarketSession || x == CreateAccountSession
    ensures Holes(StreamingShape(x)) == Slots(Streaming(x))
  {
    match x
    case CreateMarketSession => BaseShapeHoles1(MarketsBase);
    case CreateAccountSession => BaseShapeHoles0(AccountsBase);
    case _ =>
  }

  lemma {:induction false} StreamingShapeHoles1(x: StreamingPath)
    requires x == GetStreamingQuotes
    ensures Holes(StreamingShape(x)) == Slots(Streaming(x))
  {
    match x
    case GetStreamingQuotes => BaseShapeHoles1(MarketsBase);
    case _ =>
  }

  lemma StreamingShapeHoles(x: StreamingPath)
    ensures Holes(StreamingShape(x)) == Slots(Streaming(x))
  {
    match x
    case CreateMarketSession => StreamingShapeHoles0(x);
    case CreateAccountSession => StreamingShapeHoles0(x);
    case GetStreamingQuotes => StreamingShapeHoles1(x);
  }

  lemma {:induction false} WebSocketEventsShapeHoles(x: WebSocketPath)
    ensures Holes(WebSocketEventsShape(x)) == Slots(WebSocketEvents(x))
  {
    match x
    case GetStreamingMarketEvents => BaseShapeHoles1(MarketsBase);
    case GetStreamingAccountEvents => BaseShapeHoles0(AccountsBase);
  }

  lemma {:induction false} WatchlistShapeHoles0(x: WatchlistPath)
    requires x == GetWatchlists || x == GetWatchlist
    ensures Holes(WatchlistShape(x)) == Slots(Watchlist(x))
    decreases WatchlistIndex(x)
  {
    match x
    case GetWatchlists => BaseShapeHoles3(WatchlistsBase);
    case GetWatchlist => BaseShapeHoles3(WatchlistsBase);
    case _ =>
  }

  lemma {:induction false} WatchlistShapeHoles1(x: WatchlistPath)
    requires x == CreateWatchlist || x == UpdateWatchlist
    ensures Holes(WatchlistShape(x)) == Slots(Watchlist(x))
    decreases WatchlistIndex(x)
  {
    match x
    case CreateWatchlist => BaseShapeHoles3(WatchlistsBase);
    case UpdateWatchlist => WatchlistShapeHoles0(GetWatchlist);
    case _ =>
  }

  lemma {:induction false} WatchlistShapeHoles2(x: WatchlistPath)
    requires x == DeleteWatchlist || x == AddWatchlistSymbol
    ensures Holes(WatchlistShape(x)) == Slots(Watchlist(x))
    decreases WatchlistIndex(x)
  {
    match x
    case DeleteWatchlist => WatchlistShapeHoles0(GetWatchlist);
    case AddWatchlistSymbol => WatchlistShapeHoles0(GetWatchlist);
    case _ =>
  }

  lemma {:induction false} WatchlistShapeHoles3(x: WatchlistPath)
    requires x == DeleteWatchlistSymbol
    ensures Holes(WatchlistShape(x)) == Slots(Watchlist(x))
    decreases WatchlistIndex(x)
  {
    match x
    case DeleteWatchlistSymbol => WatchlistShapeHoles0(GetWatchlist);
    case _ =>
  }

  lemma WatchlistShapeHoles(x: WatchlistPath)
    ensures Holes(WatchlistShape(x)) == Slots(Watchlist(x))
  {
    match x
    case GetWatchlists => WatchlistShapeHoles0(x);
    case GetWatchlist => WatchlistShapeHoles0(x);
    case CreateWatchlist => WatchlistShapeHoles1(x);
    case UpdateWatchlist => WatchlistShapeHoles1(x);
    case DeleteWatchlist => WatchlistShapeHoles2(x);
    case AddWatchlistSymbol => WatchlistShapeHoles2(x);
    case DeleteWatchlistSymbol => WatchlistShapeHoles3(x);
  }

  /** Every member's shape is well formed and its holes are the placeholders it names. */
  lemma ShapesWellFormed(p: ApiPath)
    ensures WellFormed(ShapeOf(p)) && Holes(ShapeOf(p)) == Slots(p)
  {
    match p
    case Base(x) => BaseShapesWellFormed(x); BaseShapeHoles(x);
    case Auth(x) => AuthShapesWellFormed(x); AuthShapeHoles(x);
    case Account(x) => AccountShapesWellFormed(x); AccountShapeHoles(x);
    case Trade(x) => TradeShapesWellFormed(x); TradeShapeHoles(x);
    case MarketData(x) => MarketDataShapesWellFormed(x); MarketDataShapeHoles(x);
    case Fundamental(x) => FundamentalShapesWellFormed(x); FundamentalShapeHoles(x);
    case Streaming(x) => StreamingShapesWellFormed(x); StreamingShapeHoles(x);
    case WebSocketEvents(x) => WebSocketEventsShapesWellFormed(x); WebSocketEventsShapeHoles(x);
    case Watchlist(x) => WatchlistShapesWellFormed(x); WatchlistShapeHoles(x);
  }

  // ------------------------------------------------- value lookup, aliases

  /** The first member at or after position `i` whose string is `v`. */
  function FirstFrom(i: nat, v: string): Option<ApiPath>
    decreases MemberCount - i
  {
    if i >= MemberCount then None
    else if Template(At(i)) == v then Some(At(i))
    else FirstFrom(i + 1, v)
  }

  /** ApiPaths(v): the member a lookup by value returns, if any. */
  function Lookup(v: string): Option<ApiPath>
  {
    FirstFrom(0, v)
  }

  /**
   * The member that Enum aliasing makes of each name: the first-declared
   * member with the same string (itself when no earlier member has it).
   */
  function Canonical(p: ApiPath): ApiPath
  {
    match p
    case Account(GetOrders) => Base(OrdersBase)
    case Trade(ModifyOrder) => Account(GetAnOrder)
    case Trade(CancelOrder) => Account(GetAnOrder)
    case Trade(PlaceOrder) => Base(OrdersBase)
    case Trade(PlaceEquityOrder) => Base(OrdersBase)
    case Trade(PlaceOptionOrder) => Base(OrdersBase)
    case Trade(PlaceMultilegOrder) => Base(OrdersBase)
    case Trade(PlaceComboOrder) => Base(OrdersBase)
    case Trade(PlaceOtoOrder) => Base(OrdersBase)
    case Trade(PlaceOcoOrder) => Base(OrdersBase)
    case Trade(PlaceOtocoOrder) => Base(OrdersBase)
    case WebSocketEvents(GetStreamingMarketEvents) => Streaming(GetStreamingQuotes)
    case Watchlist(GetWatchlists) => Base(WatchlistsBase)
    case Watchlist(CreateWatchlist) => Base(WatchlistsBase)
    case Watchlist(UpdateWatchlist) => Watchlist(GetWatchlist)
    case Watchlist(DeleteWatchlist) => Watchlist(GetWatchlist)
    case Watchlist(AddWatchlistSymbol) => Watchlist(GetWatchlist)
    case Watchlist(DeleteWatchlistSymbol) => Watchlist(GetWatchlist)
    case _ => p
  }

  // One helper per group of members, gathered by CanonicalIsEarlierWithSameString.

  lemma BaseCanonicalIsEarlier(x: BasePath)
    ensures ShapeOf(Canonical(Base(x))) == ShapeOf(Base(x))
    ensures Position(Canonical(Base(x))) <= Position(Base(x))
    ensures Canonical(Canonical(Base(x))) == Canonical(Base(x))
  {
    match x
    case OAuthBase =>
    case AccountsBase =>
    case OrdersBase =>
    case MarketsBase =>
    case OptionsBase =>
    case FundamentalsBase =>
    case WatchlistsBase =>
  }

  lemma AuthCanonicalIsEarlier(x: AuthPath)
    ensures ShapeOf(Canonical(Auth(x))) == ShapeOf(Auth(x))
    ensures Position(Canonical(Auth(x))) <= Position(Auth(x))
    ensures Canonical(Canonical(Auth(x))) == Canonical(Auth(x))
  {
    match x
    case GetAuthorization =>
    case CreateToken =>
    case RefreshToken =>
  }

  lemma AccountCanonicalIsEarlier(x: AccountPath)
    ensures ShapeOf(Canonical(Account(x))) == ShapeOf(Account(x))
    ensures Position(Canonical(Account(x))) <= Position(Account(x))
    ensures Canonical(Canonical(Account(x))) == Canonical(Account(x))
  {
    match x
    case GetProfile =>
    case GetBalances =>
    case GetPositions =>
    case GetHistory =>
    case GetGainLoss =>
    case GetOrders =>
    case GetAnOrder =>
  }

  lemma TradeCanonicalIsEarlier(x: TradePath)
    ensures ShapeOf(Canonical(Trade(x))) == ShapeOf(Trade(x))
    ensures Position(Canonical(Trade(x))) <= Position(Trade(x))
    ensures Canonical(Canonical(Trade(x))) == Canonical(Trade(x))
  {
    match x
    case ModifyOrder =>
    case CancelOrder =>
    case PlaceOrder =>
    case PlaceEquityOrder =>
    case PlaceOptionOrder =>
    case PlaceMultilegOrder =>
    case PlaceComboOrder =>
    case PlaceOtoOrder =>
    case PlaceOcoOrder =>
    case PlaceOtocoOrder =>
  }

  lemma MarketDataCanonicalIsEarlier(x: MarketDataPath)
    ensures ShapeOf(Canonical(MarketData(x))) == ShapeOf(MarketData(x))
    ensures Position(Canonical(MarketData(x))) <= Position(MarketData(x))
    ensures Canonical(Canonical(MarketData(x))) == Canonical(MarketData(x))
  {
    match x
    case GetQuotes =>
    case GetOptionChains =>
    case GetOptionStrikes =>
    case GetOptionExpirations =>
    case LookupOptionSymbols =>
    case GetHistoricalPrices =>
    case GetTimeAndSales =>
    case GetEtbList =>
    case GetClock =>
    case GetCalendar =>
    case SearchCompanies =>
    case LookupSymbol =>
  }

  lemma FundamentalCanonicalIsEarlier(x: FundamentalPath)
    ensures ShapeOf(Canonical(Fundamental(x))) == ShapeOf(Fundamental(x))
    ensures Position(Canonical(Fundamental(x))) <= Position(Fundamental(x))
    ensures Canonical(Canonical(Fundamental(x))) == Canonical(Fundamental(x))
  {
    match x
    case GetCompany =>
    case GetCorporateCalendar =>
    case GetDividends =>
    case GetCorporateActions =>
    case GetRatios =>
    case GetFinancialReports =>
    case GetPriceStats =>
  }

  lemma StreamingCanonicalIsEarlier(x: StreamingPath)
    ensures ShapeOf(Canonical(Streaming(x))) == ShapeOf(Streaming(x))
    ensures Position(Canonical(Streaming(x))) <= Position(Streaming(x))
    ensures Canonical(Canonical(Streaming(x))) == Canonical(Streaming(x))
  {
    match x
    case CreateMarketSession =>
    case CreateAccountSession =>
    case GetStreamingQuotes =>
  }

  lemma WebSocketEventsCanonicalIsEarlier(x: WebSocketPath)
    ensures ShapeOf(Canonical(WebSocketEvents(x))) == ShapeOf(WebSocketEvents(x))
    ensures Position(Canonical(WebSocketEvents(x))) <= Position(WebSocketEvents(x))
    ensures Canonical(Canonical(WebSocketEvents(x))) == Canonical(WebSocketEvents(x))
  {
    match x
    case GetStreamingMarketEvents =>
    case GetStreamingAccountEvents =>
  }

  lemma WatchlistCanonicalIsEarlier(x: WatchlistPath)
    ensures ShapeOf(Canonical(Watchlist(x))) == ShapeOf(Watchlist(x))
    ensures Position(Canonical(Watchlist(x))) <= Position(Watchlist(x))
    ensures Canonical(Canonical(Watchlist(x))) == Canonical(Watchlist(x))
  {
    match x
    case GetWatchlists =>
    case GetWatchlist =>
    case CreateWatchlist =>
    case UpdateWatchlist =>
    case DeleteWatchlist =>
    case AddWatchlistSymbol =>
    case DeleteWatchlistSymbol =>
  }

  /** Every name denotes itself or an earlier member with the same string. */
  lemma CanonicalIsEarlierWithSameString(p: ApiPath)
    ensures Template(Canonical(p)) == Template(p)
    ensures Position(Canonical(p)) <= Position(p)
    ensures Canonical(Canonical(p)) == Canonical(p)
  {
    match p
    case Base(x) => BaseCanonicalIsEarlier(x);
    case Auth(x) => AuthCanonicalIsEarlier(x);
    case Account(x) => AccountCanonicalIsEarlier(x);
    case Trade(x) => TradeCanonicalIsEarlier(x);
    case MarketData(x) => MarketDataCanonicalIsEarlier(x);
    case Fundamental(x) => FundamentalCanonicalIsEarlier(x);
    case Streaming(x) => StreamingCanonicalIsEarlier(x);
    case WebSocketEvents(x) => WebSocketEventsCanonicalIsEarlier(x);
    case Watchlist(x) => WatchlistCanonicalIsEarlier(x);
  }

  /**
   * Recovers a first-declared member from its string, by its length and,
   * where lengths collide, by one distinguishing character. It serves only
   * to show that distinct first-declared members have distinct strings.
   */
  function Identify(s: string): ApiPath
  {
    if |s| == 9 then Base(OAuthBase)
    else if |s| == 11 then Base(MarketsBase)
    else if |s| == 14 then Base(WatchlistsBase)
    else if |s| == 15 then MarketData(GetEtbList)
    else if |s| == 16 then Account(GetProfile)
    else if |s| == 17 then MarketData(GetClock)
    else if |s| == 18 then (if s[12] == 'q' then MarketData(GetQuotes) else if s[12] == 's' then MarketData(SearchCompanies) else if s[12] == 'l' then MarketData(LookupSymbol) else Streaming(GetStreamingQuotes))
    else if |s| == 19 then (if s[12] == 'o' then Base(OptionsBase) else if s[12] == 't' then Auth(GetAuthorization) else MarketData(GetHistoricalPrices))
    else if |s| == 20 then MarketData(GetCalendar)
    else if |s| == 21 then (if s[4] == 'o' then Auth(CreateToken) else MarketData(GetTimeAndSales))
    else if |s| == 22 then Auth(RefreshToken)
    else if |s| == 25 then Base(AccountsBase)
    else if |s| == 26 then (if s[12] == 's' then Base(FundamentalsBase) else if s[12] == 'o' then MarketData(GetOptionChains) else Streaming(CreateMarketSession))
    else if |s| == 27 then (if s[21] == 't' then MarketData(GetOptionStrikes) else MarketData(LookupOptionSymbols))
    else if |s| == 29 then Watchlist(GetWatchlist)
    else if |s| == 31 then MarketData(GetOptionExpirations)
    else if |s| == 32 then (if s[26] == 'o' then Base(OrdersBase) else WebSocketEvents(GetStreamingAccountEvents))
    else if |s| == 33 then (if s[1] == 'v' then Account(GetHistory) else Fundamental(GetRatios))
    else if |s| == 34 then (if s[26] == 'b' then Account(GetBalances) else if s[26] == 'g' then Account(GetGainLoss) else Fundamental(GetCompany))
    else if |s| == 35 then (if s[1] == 'v' then Account(GetPositions) else Fundamental(GetCorporateCalendar))
    else if |s| == 36 then Fundamental(GetDividends)
    else if |s| == 37 then (if s[27] == 'f' then Fundamental(GetFinancialReports) else Fundamental(GetPriceStats))
    else if |s| == 40 then Streaming(CreateAccountSession)
    else if |s| == 43 then Account(GetAnOrder)
    else Fundamental(GetCorporateActions)
  }

  // Identify checked member by member, cut into numbered parts for the same
  // reason as the shape lemmas; IdentifyRecoversCanonical states the claim.

  lemma BaseIdentified0(x: BasePath)
    requires x == OAuthBase || x == AccountsBase
    ensures Identify(Template(Base(x))) == Base(x)
  {
    match x
    case OAuthBase => assert |Template(Base(OAuthBase))| == 9;
    case AccountsBase => assert |Template(Base(AccountsBase))| == 25;
    case _ =>
  }

  lemma BaseIdentified1(x: BasePath)
    requires x == OrdersBase || x == MarketsBase
    ensures Identify(Template(Base(x))) == Base(x)
  {
    match x
    case OrdersBase => assert |Template(Base(OrdersBase))| == 32 && Template(Base(OrdersBase))[26] == 'o';
    case MarketsBase => assert |Template(Base(MarketsBase))| == 11;
    case _ =>
  }

  lemma BaseIdentified2(x: BasePath)
    requires x == OptionsBase || x == FundamentalsBase
    ensures Identify(Template(Base(x))) == Base(x)
  {
    match x
    case OptionsBase => assert |Template(Base(OptionsBase))| == 19 && Template(Base(OptionsBase))[12] == 'o';
    case FundamentalsBase => assert |Template(Base(FundamentalsBase))| == 26 && Template(Base(FundamentalsBase))[12] == 's';
    case _ =>
  }

  lemma BaseIdentified3(x: BasePath)
    requires x == WatchlistsBase
    ensures Identify(Template(Base(x))) == Base(x)
  {
    match x
    case WatchlistsBase => assert |Template(Base(WatchlistsBase))| == 14;
    case _ =>
  }

  lemma BaseIdentified(x: BasePath)
    requires Canonical(Base(x)) == Base(x)
    ensures Identify(Template(Base(x))) == Base(x)
  {
    match x
    case OAuthBase => BaseIdentified0(x);
    case AccountsBase => BaseIdentified0(x);
    case OrdersBase => BaseIdentified1(x);
    case MarketsBase => BaseIdentified1(x);
    case OptionsBase => BaseIdentified2(x);
    case FundamentalsBase => BaseIdentified2(x);
    case WatchlistsBase => BaseIdentified3(x);
  }

  lemma AuthIdentified0(x: AuthPath)
    requires x == GetAuthorization || x == CreateToken
    ensures Identify(Template(Auth(x))) == Auth(x)
  {
    match x
    case GetAuthorization => assert |Template(Auth(GetAuthorization))| == 19 && Template(Auth(GetAuthorization))[12] == 't';
    case CreateToken => assert |Template(Auth(CreateToken))| == 21 && Template(Auth(CreateToken))[4] == 'o';
    case _ =>
  }

  lemma AuthIdentified1(x: AuthPath)
    requires x == RefreshToken
    ensures Identify(Template(Auth(x))) == Auth(x)
  {
    match x
    case RefreshToken => assert |Template(Auth(RefreshToken))| == 22;
    case _ =>
  }

  lemma AuthIdentified(x: AuthPath)
    requires Canonical(Auth(x)) == Auth(x)
    ensures Identify(Template(Auth(x))) == Auth(x)
  {
    match x
    case GetAuthorization => AuthIdentified0(x);
    case CreateToken => AuthIdentified0(x);
    case RefreshToken => AuthIdentified1(x);
  }

  lemma AccountIdentified0(x: AccountPath)
    requires x == GetProfile || x == GetBalances
    ensures Identify(Template(Account(x))) == Account(x)
  {
    match x
    case GetProfile => assert |Template(Account(GetProfile))| == 16;
    case GetBalances => assert |Template(Account(GetBalances))| == 34 && Template(Account(GetBalances))[26] == 'b';
    case _ =>
  }

  lemma AccountIdentified1(x: AccountPath)
    requires x == GetPositions || x == GetHistory
    ensures Identify(Template(Account(x))) == Account(x)
  {
    match x
    case GetPositions => assert |Template(Account(GetPositions))| == 35 && Template(Account(GetPositions))[1] == 'v';
    case GetHistory => assert |Template(Account(GetHistory))| == 33 && Template(Account(GetHistory))[1] == 'v';
    case _ =>
  }

  lemma AccountIdentified2(x: AccountPath)
    requires x == GetGainLoss || x == GetAnOrder
    ensures Identify(Template(Account(x))) == Account(x)
  {
    match x
    case GetGainLoss => assert |Template(Account(GetGainLoss))| == 34 && Template(Account(GetGainLoss))[26] == 'g';
    case GetAnOrder => assert |Template(Account(GetAnOrder))| == 43;
    case _ =>
  }

  lemma AccountIdentified(x: AccountPath)
    requires Canonical(Account(x)) == Account(x)
    ensures Identify(Template(Account(x))) == Account(x)
  {
    match x
    case GetProfile => AccountIdentified0(x);
    case GetBalances => AccountIdentified0(x);
    case GetPositions => AccountIdentified1(x);
    case GetHistory => AccountIdentified1(x);
    case GetGainLoss => AccountIdentified2(x);
    case GetAnOrder => AccountIdentified2(x);
    case _ =>
  }

  lemma MarketDataIdentified0(x: MarketDataPath)
    requires x == GetQuotes || x == GetOptionChains
    ensures Identify(Template(MarketData(x))) == MarketData(x)
  {
    match x
    case GetQuotes => assert |Template(MarketData(GetQuotes))| == 18 && Template(MarketData(GetQuotes))[12] == 'q';
    case GetOptionChains => assert |Template(MarketData(GetOptionChains))| == 26 && Template(MarketData(GetOptionChains))[12] == 'o';
    case _ =>
  }

  lemma MarketDataIdentified1(x: MarketDataPath)
    requires x == GetOptionStrikes || x == GetOptionExpirations
    ensures Identify(Template(MarketData(x))) == MarketData(x)
  {
    match x
    case GetOptionStrikes => assert |Template(MarketData(GetOptionStrikes))| == 27 && Template(MarketData(GetOptionStrikes))[21] == 't';
    case GetOptionExpirations => assert |Template(MarketData(GetOptionExpirations))| == 31;
    case _ =>
  }

  lemma MarketDataIdentified2(x: MarketDataPath)
    requires x == LookupOptionSymbols || x == GetHistoricalPrices
    ensures Identify(Template(MarketData(x))) == MarketData(x)
  {
    match x
    case LookupOptionSymbols => assert |Template(MarketData(LookupOptionSymbols))| == 27 && Template(MarketData(LookupOptionSymbols))[21] == 'y';
    case GetHistoricalPrices => assert |Template(MarketData(GetHistoricalPrices))| == 19 && Template(MarketData(GetHistoricalPrices))[12] == 'h';
    case _ =>
  }

  lemma MarketDataIdentified3(x: MarketDataPath)
    requires x == GetTimeAndSales || x == GetEtbList
    ensures Identify(Template(MarketData(x))) == MarketData(x)
  {
    match x
    case GetTimeAndSales => assert |Template(MarketData(GetTimeAndSales))| == 21 && Template(MarketData(GetTimeAndSales))[4] == 'm';
    case GetEtbList => assert |Template(MarketData(GetEtbList))| == 15;
    case _ =>
  }

  lemma MarketDataIdentified4(x: MarketDataPath)
    requires x == GetClock || x == GetCalendar
    ensures Identify(Template(MarketData(x))) == MarketData(x)
  {
    match x
    case GetClock => assert |Template(MarketData(GetClock))| == 17;
    case GetCalendar => assert |Template(MarketData(GetCalendar))| == 20;
    case _ =>
  }

  lemma MarketDataIdentified5(x: MarketDataPath)
    requires x == SearchCompanies || x == LookupSymbol
    ensures Identify(Template(MarketData(x))) == MarketData(x)
  {
    match x
    case SearchCompanies => assert |Template(MarketData(SearchCompanies))| == 18 && Template(MarketData(SearchCompanies))[12] == 's';
    case LookupSymbol => assert |Template(MarketData(LookupSymbol))| == 18 && Template(MarketData(LookupSymbol))[12] == 'l';
    case _ =>
  }

  lemma MarketDataIdentified(x: MarketDataPath)
    requires Canonical(MarketData(x)) == MarketData(x)
    ensures Identify(Template(MarketData(x))) == MarketData(x)
  {
    match x
    case GetQuotes => MarketDataIdentified0(x);
    case GetOptionChains => MarketDataIdentified0(x);
    case GetOptionStrikes => MarketDataIdentified1(x);
    case GetOptionExpirations => MarketDataIdentified1(x);
    case LookupOptionSymbols => MarketDataIdentified2(x);
    case GetHistoricalPrices => MarketDataIdentified2(x);
    case GetTimeAndSales => MarketDataIdentified3(x);
    case GetEtbList => MarketDataIdentified3(x);
    case GetClock => MarketDataIdentified4(x);
    case GetCalendar => MarketDataIdentified4(x);
    case SearchCompanies => MarketDataIdentified5(x);
    case LookupSymbol => MarketDataIdentified5(x);
  }

  lemma FundamentalIdentified0(x: FundamentalPath)
    requires x == GetCompany || x == GetCorporateCalendar
    ensures Identify(Template(Fundamental(x))) == Fundamental(x)
  {
    match x
    case GetCompany => assert |Template(Fundamental(GetCompany))| == 34 && Template(Fundamental(GetCompany))[26] == '/';
    case GetCorporateCalendar => assert |Template(Fundamental(GetCorporateCalendar))| == 35 && Template(Fundamental(GetCorporateCalendar))[1] == 'b';
    case _ =>
  }

  lemma FundamentalIdentified1(x: FundamentalPath)
    requires x == GetDividends || x == GetCorporateActions
    ensures Identify(Template(Fundamental(x))) == Fundamental(x)
  {
    match x
    case GetDividends => assert |Template(Fundamental(GetDividends))| == 36;
    case GetCorporateActions => assert |Template(Fundamental(GetCorporateActions))| == 44;
    case _ =>
  }

  lemma FundamentalIdentified2(x: FundamentalPath)
    requires x == GetRatios || x == GetFinancialReports
    ensures Identify(Template(Fundamental(x))) == Fundamental(x)
  {
    match x
    case GetRatios => assert |Template(Fundamental(GetRatios))| == 33 && Template(Fundamental(GetRatios))[1] == 'b';
    case GetFinancialReports => assert |Template(Fundamental(GetFinancialReports))| == 37 && Template(Fundamental(GetFinancialReports))[27] == 'f';
    case _ =>
  }

  lemma FundamentalIdentified3(x: FundamentalPath)
    requires x == GetPriceStats
    ensures Identify(Template(Fundamental(x))) == Fundamental(x)
  {
    match x
    case GetPriceStats => assert |Template(Fundamental(GetPriceStats))| == 37 && Template(Fundamental(GetPriceStats))[27] == 's';
    case _ =>
  }

  lemma FundamentalIdentified(x: FundamentalPath)
    requires Canonical(Fundamental(x)) == Fundamental(x)
    ensures Identify(Template(Fundamental(x))) == Fundamental(x)
  {
    match x
    case GetCompany => FundamentalIdentified0(x);
    case GetCorporateCalendar => FundamentalIdentified0(x);
    case GetDividends => FundamentalIdentified1(x);
    case GetCorporateActions => FundamentalIdentified1(x);
    case GetRatios => FundamentalIdentified2(x);
    case GetFinancialReports => FundamentalIdentified2(x);
    case GetPriceStats => FundamentalIdentified3(x);
  }

  lemma StreamingIdentified0(x: StreamingPath)
    requires x == CreateMarketSession || x == CreateAccountSession
    ensures Identify(Template(Streaming(x))) == Streaming(x)
  {
    match x
    case CreateMarketSession => assert |Template(Streaming(CreateMarketSession))| == 26 && Template(Streaming(CreateMarketSession))[12] == 'e';
    case CreateAccountSession => assert |Template(Streaming(CreateAccountSession))| == 40;
    case _ =>
  }

  lemma StreamingIdentified1(x: StreamingPath)
    requires x == GetStreamingQuotes
    ensures Identify(Template(Streaming(x))) == Streaming(x)
  {
    match x
    case GetStreamingQuotes => assert |Template(Streaming(GetStreamingQuotes))| == 18 && Template(Streaming(GetStreamingQuotes))[12] == 'e';
    case _ =>
  }

  lemma StreamingIdentified(x: StreamingPath)
    requires Canonical(Streaming(x)) == Streaming(x)
    ensures Identify(Template(Streaming(x))) == Streaming(x)
  {
    match x
    case CreateMarketSession => StreamingIdentified0(x);
    case CreateAccountSession => StreamingIdentified0(x);
    case GetStreamingQuotes => StreamingIdentified1(x);
  }

  lemma WebSocketEventsIdentified(x: WebSocketPath)
    requires Canonical(WebSocketEvents(x)) == WebSocketEvents(x)
    ensures Identify(Template(WebSocketEvents(x))) == WebSocketEvents(x)
  {
    match x
    case GetStreamingAccountEvents => assert |Template(WebSocketEvents(GetStreamingAccountEvents))| == 32 && Template(WebSocketEvents(GetStreamingAccountEvents))[26] == 'e';
    case _ =>
  }

  lemma WatchlistIdentified(x: WatchlistPath)
    requires Canonical(Watchlist(x)) == Watchlist(x)
    ensures Identify(Template(Watchlist(x))) == Watchlist(x)
  {
    match x
    case GetWatchlist => assert |Template(Watchlist(GetWatchlist))| == 29;
    case _ =>
  }

  /** Identify inverts Template on first-declared members, so their strings are distinct. */
  lemma IdentifyRecoversCanonical(c: ApiPath)
    requires Canonical(c) == c
    ensures Identify(Template(c)) == c
  {
    match c
    case Base(x) => BaseIdentified(x);
    case Auth(x) => AuthIdentified(x);
    case Account(x) => AccountIdentified(x);
    case Trade(x) => assert false;  // every trade member is an alias
    case MarketData(x) => MarketDataIdentified(x);
    case Fundamental(x) => FundamentalIdentified(x);
    case Streaming(x) => StreamingIdentified(x);
    case WebSocketEvents(x) => WebSocketEventsIdentified(x);
    case Watchlist(x) => WatchlistIdentified(x);
  }

  /** Two names with equal strings denote the same member. */
  lemma EqualStringsShareCanonical(p: ApiPath, q: ApiPath)
    requires Template(p) == Template(q)
    ensures Canonical(p) == Canonical(q)
  {
    CanonicalIsEarlierWithSameString(p);
    CanonicalIsEarlierWithSameString(q);
    IdentifyRecoversCanonical(Canonical(p));
    IdentifyRecoversCanonical(Canonical(q));
  }

  /** No member declared before the first-declared one has its string. */
  lemma EarlierDiffers(p: ApiPath, i: nat)
    requires i < Position(Canonical(p))
    ensures Template(At(i)) != Template(p)
  {
    AtPosition(Canonical(p));
    PositionAt(i);
    if Template(At(i)) == Template(p) {
      EqualStringsShareCanonical(At(i), p);
      CanonicalIsEarlierWithSameString(At(i));
      assert false;
    }
  }

  lemma {:induction false} ScanReachesCanonical(p: ApiPath, i: nat)
    requires i <= Position(Canonical(p))
    ensures FirstFrom(i, Template(p)) == Some(Canonical(p))
    decreases Position(Canonical(p)) - i
  {
    AtPosition(Canonical(p));
    if i < Position(Canonical(p)) {
      EarlierDiffers(p, i);
      ScanReachesCanonical(p, i + 1);
    } else {
      CanonicalIsEarlierWithSameString(p);
    }
  }

  /**
   * Looking up any member's string returns the first-declared member with
   * that string, and no member declared before it has that string.
   */
  lemma LookupFindsFirstDeclared(p: ApiPath)
    ensures Lookup(Template(p)) == Some(Canonical(p))
    ensures forall q :: Position(q) < Position(Canonical(p)) ==> Template(q) != Template(p)
  {
    ScanReachesCanonical(p, 0);
    forall q | Position(q) < Position(Canonical(p))
      ensures Template(q) != Template(p)
    {
      if Template(q) == Template(p) {
        EqualStringsShareCanonical(q, p);
        CanonicalIsEarlierWithSameString(q);
      }
    }
  }

  // ----------------------------------------------------------- placeholders

  /** The index of the first `c` in `s`, or -1. */
  function IndexOf(s: string, c: char): (r: int)
    ensures -1 <= r < |s|
    ensures r >= 0 ==> s[r] == c && c !in s[..r]
    ensures r < 0 ==> c !in s
  {
    if |s| == 0 then -1
    else if s[0] == c then 0
    else
      var k := IndexOf(s[1..], c);
      if k < 0 then -1 else k + 1
  }

  /**
   * re.findall(r"{(.*?)}", s): scanning left to right, the text between each
   * '{' and the first '}' after it. The regex's `.` would not cross a line
   * break where this scan does; no template contains one, so the two agree
   * on every member's string.
   */
  function Placeholders(s: string): seq<string>
    decreases |s|
  {
    if |s| == 0 then []
    else if s[0] == '{' then
      var j := IndexOf(s[1..], '}');
      if j < 0 then [] else [s[1..1 + j]] + Placeholders(s[j + 2..])
    else Placeholders(s[1..])
  }

  lemma {:induction false} SkipPlain(a: string, b: string)
    requires '{' !in a
    ensures Placeholders(a + b) == Placeholders(b)
  {
    if |a| > 0 {
      assert a[0] in a && (a + b)[0] == a[0] && (a + b)[1..] == a[1..] + b;
      SkipPlain(a[1..], b);
    } else {
      assert a + b == b;
    }
  }

  lemma NoPlaceholders(a: string)
    requires '{' !in a
    ensures Placeholders(a) == []
  {
    SkipPlain(a, "");
    assert a + "" == a;
  }

  lemma {:induction false} IndexOfFirst(s: string, c: char, k: nat)
    requires k < |s| && s[k] == c && c !in s[..k]
    ensures IndexOf(s, c) == k
  {
    if k > 0 {
      assert s[0] in s[..k];
      assert s[1..][..k - 1] == s[..k][1..];
      IndexOfFirst(s[1..], c, k - 1);
    }
  }

  lemma SkipSlot(name: string, b: string)
    requires '}' !in name
    ensures Placeholders(Slot(name) + b) == [name] + Placeholders(b)
  {
    var s := Slot(name) + b;
    assert s[1..] == name + "}" + b;
    assert (name + "}" + b)[..|name|] == name;
    IndexOfFirst(s[1..], '}', |name|);
    assert s[1..1 + |name|] == name;
    assert s[|name| + 2..] == b;
  }

  /** findall over a rendered well-formed shape yields its holes, then whatever follows. */
  lemma {:induction false} PlaceholdersOfRender(e: Shape, r: string)
    requires WellFormed(e)
    ensures Placeholders(Render(e) + r) == Holes(e) + Placeholders(r)
  {
    match e
    case Text(t) =>
      SkipPlain(t, r);
    case Hole(n) =>
      SkipSlot(n, r);
    case Cat(a, b) =>
      assert Render(e) + r == Render(a) + (Render(b) + r);
      PlaceholdersOfRender(a, Render(b) + r);
      PlaceholdersOfRender(b, r);
  }

  /** The placeholders found in each member's string are the ones it names. */
  lemma PlaceholdersOfTemplate(p: ApiPath)
    ensures Placeholders(Template(p)) == Slots(p)
  {
    ShapesWellFormed(p);
    PlaceholdersOfRender(ShapeOf(p), "");
    NoPlaceholders("");
    assert Template(p) + "" == Template(p);
  }

  // ------------------------------------------------------ path properties

  /** `e` is `base` with further pieces appended on the right. */
  predicate Extends(e: Shape, base: Shape)
  {
    e == base || (e.Cat? && Extends(e.left, base))
  }

  lemma {:induction false} ExtendsKeepsPrefix(e: Shape, base: Shape)
    requires Extends(e, base)
    ensures StartsWith(Render(e), Render(base))
    ensures |Holes(base)| <= |Holes(e)| && Holes(e)[..|Holes(base)|] == Holes(base)
  {
    if e != base {
      ExtendsKeepsPrefix(e.left, base);
      var a, b := Render(e.left), Render(e.right);
      assert Render(e)[..|Render(base)|] == a[..|Render(base)|];
      var ha, hb := Holes(e.left), Holes(e.right);
      assert Holes(e)[..|Holes(base)|] == ha[..|Holes(base)|];
    }
  }

  /** ORDERS_BASE and OPTIONS_BASE are their parent base plus a literal suffix. */
  lemma CompositeBases()
    ensures Template(Base(OrdersBase)) == Template(Base(AccountsBase)) + "/orders"
    ensures Template(Base(OptionsBase)) == Template(Base(MarketsBase)) + "/options"
    ensures Extends(ShapeOf(Base(OrdersBase)), ShapeOf(Base(AccountsBase)))
    ensures Extends(ShapeOf(Base(OptionsBase)), ShapeOf(Base(MarketsBase)))
  {
  }

  /** A path built on another starts with its string and its placeholders. */
  lemma ExtendedPathsKeepBase(p: ApiPath, b: ApiPath)
    requires Extends(ShapeOf(p), ShapeOf(b))
    ensures StartsWith(Template(p), Template(b))
    ensures |Slots(b)| <= |Placeholders(Template(p))|
    ensures Placeholders(Template(p))[..|Slots(b)|] == Slots(b)
  {
    ExtendsKeepsPrefix(ShapeOf(p), ShapeOf(b));
    ShapesWellFormed(b);
    PlaceholdersOfTemplate(p);
    ShapesWellFormed(p);
  }

  /**
   * Every path built on ACCOUNTS_BASE starts with it, and its first
   * placeholder is `account_id`.
   */
  lemma AccountPathsNameTheAccount(p: ApiPath)
    requires Extends(ShapeOf(p), ShapeOf(Base(AccountsBase)))
    ensures StartsWith(Template(p), Template(Base(AccountsBase)))
    ensures |Placeholders(Template(p))| >= 1 && Placeholders(Template(p))[0] == "account_id"
  {
    ExtendedPathsKeepBase(p, Base(AccountsBase));
    var s := Placeholders(Template(p));
    assert s[..1] == Slots(Base(AccountsBase));
    assert s[0] == s[..1][0];
  }

  /**
   * The account paths other than the profile, the order paths, the account
   * session and the account events are all built on ACCOUNTS_BASE.
   */
  lemma AccountScopedPaths(p: ApiPath)
    requires || (p.Account? && p.account != GetProfile)
             || p.Trade?
             || p == Streaming(CreateAccountSession)
             || p == WebSocketEvents(GetStreamingAccountEvents)
    ensures Extends(ShapeOf(p), ShapeOf(Base(AccountsBase)))
  {
    match p
    case Account(a) =>
      match a {
        case GetAnOrder => assert ShapeOf(p).left.left == ShapeOf(Base(AccountsBase));
        case GetOrders => assert ShapeOf(p).left == ShapeOf(Base(AccountsBase));
        case _ =>
      }
    case Trade(t) =>
      match t {
        case ModifyOrder => assert ShapeOf(p).left.left == ShapeOf(Base(AccountsBase));
        case CancelOrder => assert ShapeOf(p).left.left == ShapeOf(Base(AccountsBase));
        case _ => assert ShapeOf(p).left == ShapeOf(Base(AccountsBase));
      }
    case _ =>
  }

  /** The single-order paths name the account and then the order. */
  lemma OrderPathsNameTheOrder(p: ApiPath)
    requires p in {Account(GetAnOrder), Trade(ModifyOrder), Trade(CancelOrder)}
    ensures Placeholders(Template(p)) == ["account_id", "order_id"]
  {
    PlaceholdersOfTemplate(p);
  }

  /** The OAuth paths have no placeholder. */
  lemma AuthPathsHaveNoPlaceholders(a: AuthPath)
    ensures Placeholders(Template(Auth(a))) == []
  {
    PlaceholdersOfTemplate(Auth(a));
  }

  /** Market data and options paths have no placeholder. */
  lemma MarketDataPathsHaveNoPlaceholders(m: MarketDataPath)
    ensures Placeholders(Template(MarketData(m))) == []
  {
    PlaceholdersOfTemplate(MarketData(m));
  }

  /** Fundamentals paths have no placeholder. */
  lemma FundamentalPathsHaveNoPlaceholders(f: FundamentalPath)
    ensures Placeholders(Template(Fundamental(f))) == []
  {
    PlaceholdersOfTemplate(Fundamental(f));
  }

  /** The market session, quote stream and market events paths have no placeholder. */
  lemma MarketStreamingPathsHaveNoPlaceholders(p: ApiPath)
    requires p in {Streaming(CreateMarketSession), Streaming(GetStreamingQuotes),
                   WebSocketEvents(GetStreamingMarketEvents)}
    ensures Placeholders(Template(p)) == []
  {
    PlaceholdersOfTemplate(p);
  }

  /**
   * The watchlist symbol paths are the single-watchlist path itself: they
   * carry `watchlist_id` and no symbol placeholder.
   */
  lemma WatchlistSymbolPathsLackSymbol(p: ApiPath)
    requires p in {Watchlist(AddWatchlistSymbol), Watchlist(DeleteWatchlistSymbol)}
    ensures Template(p) == Template(Watchlist(GetWatchlist))
    ensures Placeholders(Template(p)) == ["watchlist_id"]
  {
    PlaceholdersOfTemplate(p);
  }

  /** GET_ORDERS and every PLACE_* member are aliases of ORDERS_BASE. */
  lemma OrdersBaseAliases(p: ApiPath)
    requires || p == Account(GetOrders)
             || (p.Trade? && p.trade != ModifyOrder && p.trade != CancelOrder)
    ensures Lookup(Template(p)) == Some(Base(OrdersBase))
  {
    LookupFindsFirstDeclared(p);
  }

  /** MODIFY_ORDER and CANCEL_ORDER are aliases of GET_AN_ORDER. */
  lemma SingleOrderAliases(p: ApiPath)
    requires p in {Account(GetAnOrder), Trade(ModifyOrder), Trade(CancelOrder)}
    ensures Lookup(Template(p)) == Some(Account(GetAnOrder))
  {
    LookupFindsFirstDeclared(p);
  }

  /** GET_STREAMING_MARKET_EVENTS is an alias of GET_STREAMING_QUOTES. */
  lemma StreamingEventsAlias(p: ApiPath)
    requires p in {Streaming(GetStreamingQuotes), WebSocketEvents(GetStreamingMarketEvents)}
    ensures Lookup(Template(p)) == Some(Streaming(GetStreamingQuotes))
  {
    LookupFindsFirstDeclared(p);
  }

  /** GET_WATCHLISTS and CREATE_WATCHLIST are aliases of WATCHLISTS_BASE. */
  lemma WatchlistsBaseAliases(p: ApiPath)
    requires p in {Watchlist(GetWatchlists), Watchlist(CreateWatchlist)}
    ensures Lookup(Template(p)) == Some(Base(WatchlistsBase))
  {
    LookupFindsFirstDeclared(p);
  }

  /** The single-watchlist operations are all aliases of GET_WATCHLIST. */
  lemma WatchlistAliases(p: ApiPath)
    requires p.Watchlist? && p.watchlist !in {GetWatchlists, CreateWatchlist}
    ensures Lookup(Template(p)) == Some(Watchlist(GetWatchlist))
  {
    LookupFindsFirstDeclared(p);
  }

  /**
   * Every path built on ACCOUNTS_BASE, the account session and the account
   * events included, names the account first.
   */
  lemma AccountScopedPathsNameTheAccount(p: ApiPath)
    requires || (p.Account? && p.account != GetProfile)
             || p.Trade?
             || p == Streaming(CreateAccountSession)
             || p == WebSocketEvents(GetStreamingAccountEvents)
    ensures StartsWith(Template(p), Template(Base(AccountsBase)))
    ensures |Placeholders(Template(p))| >= 1 && Placeholders(Template(p))[0] == "account_id"
  {
    AccountScopedPaths(p);
    AccountPathsNameTheAccount(p);
  }

  /** The bases other than ACCOUNTS_BASE and ORDERS_BASE, the profile and the watchlists collection have no placeholder. */
  lemma PlainPathsHaveNoPlaceholders(p: ApiPath)
    requires p in {Base(OAuthBase), Base(MarketsBase), Base(OptionsBase), Base(FundamentalsBase),
                   Base(WatchlistsBase), Account(GetProfile), Watchlist(GetWatchlists), Watchlist(CreateWatchlist)}
    ensures Placeholders(Template(p)) == []
  {
    PlaceholdersOfTemplate(p);
  }
}
