/** The order and account records shared by sizing, routing, storage and reconciliation. */
module Models {
  import opened Prelude

  datatype OrderSide = Buy | Sell
  datatype OrderType = MarketOrder | Limit | StopMarket | StopLimit
  datatype OrderAction =
    EntryAction | StopLossAction | TakeProfit1 | TakeProfit2 | TakeProfit3 | TimeStopAction | CircuitBreak
  datatype SleeveId = SleeveA | SleeveBId
  datatype TradingMode = SignalOnly | PaperLocal | ExchangeTestnet

  datatype OrderStatus =
    | Created | Submitted | PartiallyFilled | Filled | Canceled | Rejected | Expired | Unknown
  {
    predicate Terminal() {
      Filled? || Canceled? || Rejected? || Expired?
    }
  }

  datatype SymbolFilters = SymbolFilters(tickSize: real, stepSize: real, minNotional: real)

  datatype OrderIntent = OrderIntent(
    sleeve: SleeveId,
    symbol: string,
    side: OrderSide,
    orderType: OrderType,
    action: OrderAction,
    quantity: real,
    price: Option<real>,
    reduceOnly: bool,
    setupId: Option<string>)

  /** One stored order: the intent and the four fields an exchange reply can change. */
  datatype OrderRow = OrderRow(
    intent: OrderIntent,
    status: OrderStatus,
    exchangeOrderId: Option<string>,
    filledQuantity: real,
    averageFillPrice: Option<real>)

  datatype AccountSnapshot = AccountSnapshot(availableBalance: real)

  datatype PositionSnapshot = PositionSnapshot(
    symbol: string,
    positionSide: string,
    amount: real,
    markPrice: Option<real>,
    notional: real)
  {
    predicate IsFlat() {
      amount == 0.0
    }

    function Key(): (string, string) {
      (symbol, positionSide)
    }
  }

  /** The exceptions the order path can raise. */
  datatype PipelineError =
    | StepMustBePositive
    | BelowMinNotionalFilter
    | QuantityFloorsToZeroFilter
    | ZeroDivision
    | UnknownSymbol
    | SubmissionFailed
    | InvalidOrderTransition
    | NegativeFill
    | FillExceedsQuantity
}
