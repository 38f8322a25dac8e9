/** The result shaping of lib/bitquery.ts. The GraphQL request itself is a
    function argument `chain` from the query's parameters to what came back
    (the network failed, or a response with its `ok` flag, status text and
    the parsed `data.data.ethereum` list), so only what this file does with
    a response is modelled. Each query turns a failed fetch, a non-OK status
    and an unreadable body into an error and re-throws it unchanged. */
module Bitquery {
  import opened Common

  /** The USDC token contract on Base, the default `tokenAddress`. */
  const UsdcAddress: string := "0x833589fCD6eDb6E08f4c7C32D4f71b54bdA02913"
  const DefaultLimit: int := 100
  const DefaultDays: int := 30
  const DefaultCurrency: string := "USDC"
  const ErrorPrefix: string := "Bitquery API error: "
  /** The largest magnitude of an ECMAScript time value, in milliseconds;
      beyond it `new Date(t).toISOString()` throws a RangeError. */
  const MaxTimeValue: int := 8_640_000_000_000_000

  /** One row of `transactions(txHash: ...)`. */
  datatype ChainTx = ChainTx(hash: string, from: string, to: string, value: real, success: bool, time: string)

  /** One row of `transfers(...)` in `getCreatorTips`. */
  datatype Transfer = Transfer(time: string, sender: string, receiver: string, hash: string, amount: real, symbol: string)

  /** One row of the aggregate `transfers(...)` in `getTippingAnalytics`;
      `symbol` is `currency?.symbol`. */
  datatype AnalyticsRow = AnalyticsRow(count: nat, senders: nat, amount: real, symbol: Option<string>, days: nat)

  /** The parsed body: `Unparsable` when `response.json()` fails or
      `data.data.ethereum` is not an object; otherwise the list the query
      asked for, `None` when that field is absent or null. */
  datatype Body<T> = Unparsable | Shaped(list: Option<seq<T>>)

  /** What `fetch` gave: a rejected promise, or a response. */
  datatype Fetched<T> = Unreachable | Response(ok: bool, statusText: string, body: Body<T>)

  datatype ChainError =
    | NetworkError         // `fetch` rejected
    | ApiError(message: string)  // `!response.ok`
    | MalformedResponse    // the body is not JSON of the expected shape (a TypeError)
    | InvalidTime          // the window start is not a valid date (a RangeError)

  /** The parameters of the `transfers` list query. */
  datatype TransfersQuery = TransfersQuery(receiver: string, currency: string, limit: int)

  /** The parameters of the aggregate query; `since` is a time value in ms. */
  datatype AnalyticsQuery = AnalyticsQuery(receiver: string, currency: string, since: int)

  /** The object `getTippingAnalytics` returns. */
  datatype ChainReport = ChainReport(
    totalTips: nat,
    uniqueTippers: nat,
    totalAmount: real,
    currency: string,
    activeDays: nat,
    averagePerDay: real,
    averagePerTip: real)

  /** The steps every query shares: `fetch`, the `ok` check, `json()`. */
  function Receive<T>(f: Fetched<T>): (r: Result<Option<seq<T>>, ChainError>)
    ensures f.Unreachable? ==> r == Err(NetworkError)
    ensures f.Response? && !f.ok ==> r == Err(ApiError(ErrorPrefix + f.statusText))
    ensures f.Response? && f.ok && f.body.Unparsable? ==> r == Err(MalformedResponse)
    ensures f.Response? && f.ok && f.body.Shaped? ==> r == Ok(f.body.list)
  {
    match f
    case Unreachable => Err(NetworkError)
    case Response(ok, statusText, body) =>
      if !ok then Err(ApiError(ErrorPrefix + statusText))
      else if body.Unparsable? then Err(MalformedResponse)
      else Ok(body.list)
  }

  /** `verifyTransaction`: the first matching transaction, or `null` when
      the list is empty. */
  function VerifyTransaction(txHash: string, chain: string -> Fetched<ChainTx>)
    : (r: Result<Option<ChainTx>, ChainError>)
    ensures Receive(chain(txHash)).Err? ==> r == Err(Receive(chain(txHash)).error)
    ensures Receive(chain(txHash)) == Ok(None) ==> r == Err(MalformedResponse)
    ensures Receive(chain(txHash)).Ok? && Receive(chain(txHash)).value.Some? ==>
      var txs := Receive(chain(txHash)).value.value;
      && r.Ok?
      && (r.value.None? <==> txs == [])
      && (r.value.Some? ==> r.value.value == txs[0])
  {
    match Receive(chain(txHash))
    case Err(e) => Err(e)
    case Ok(None) => Err(MalformedResponse)
    case Ok(Some(txs)) => Ok(if |txs| > 0 then Some(txs[0]) else None)
  }

  /** `getCreatorTips`: the `transfers` list, or the empty list when the
      field is absent. The token defaults to USDC and the limit to 100. */
  function GetCreatorTips(address: string, chain: TransfersQuery -> Fetched<Transfer>,
                          tokenAddress: string := UsdcAddress, limit: int := DefaultLimit)
    : (r: Result<seq<Transfer>, ChainError>)
    ensures var f := Receive(chain(TransfersQuery(address, tokenAddress, limit)));
      && (f.Err? ==> r == Err(f.error))
      && (f.Ok? ==> r.Ok? && r.value == if f.value.Some? then f.value.value else [])
  {
    match Receive(chain(TransfersQuery(address, tokenAddress, limit)))
    case Err(e) => Err(e)
    case Ok(transfers) => Ok(if transfers.Some? then transfers.value else [])
  }

  /** The start of the analytics window, `now - days * 24 * 60 * 60 * 1000`,
      when it is a valid date; `None` for NaN days or a start outside the
      ECMAScript time range. */
  function WindowStart(now: int, days: JsInt): (since: Option<int>)
    ensures since.Some? <==> days.Int? && -MaxTimeValue <= now - days.i * MillisPerDay <= MaxTimeValue
    ensures since.Some? ==> now - since.value == days.i * MillisPerDay
  {
    match days
    case NaN => None
    case Int(d) =>
      var t := now - d * MillisPerDay;
      if -MaxTimeValue <= t <= MaxTimeValue then Some(t) else None
  }

  /** The report built from one aggregate row. */
  function ReportOf(a: AnalyticsRow): (c: ChainReport)
    ensures c.totalTips == a.count && c.uniqueTippers == a.senders
    ensures c.totalAmount == a.amount && c.activeDays == a.days
    ensures c.currency == if Truthy(a.symbol) then a.symbol.value else DefaultCurrency
    ensures c.averagePerDay == Average(c.totalAmount, c.activeDays)
    ensures c.averagePerTip == Average(c.totalAmount, c.totalTips)
  {
    ChainReport(
      a.count,
      a.senders,
      a.amount,
      if Truthy(a.symbol) then a.symbol.value else DefaultCurrency,
      a.days,
      Average(a.amount, a.days),
      Average(a.amount, a.count))
  }

  /** `transfers[0] || { count: 0, senders: 0, amount: 0, days: 0 }`. */
  const EmptyRow: AnalyticsRow := AnalyticsRow(0, 0, 0.0, None, 0)

  /** The shaping half of `getTippingAnalytics`. */
  function ShapeAnalytics(f: Fetched<AnalyticsRow>): (r: Result<ChainReport, ChainError>)
    ensures Receive(f).Err? ==> r == Err(Receive(f).error)
    ensures Receive(f) == Ok(None) ==> r == Err(MalformedResponse)
    ensures Receive(f).Ok? && Receive(f).value.Some? ==>
      var rows := Receive(f).value.value;
      && r.Ok?
      && (rows == [] ==> r.value == ChainReport(0, 0, 0.0, DefaultCurrency, 0, 0.0, 0.0))
      && (rows != [] ==> r.value == ReportOf(rows[0]))
  {
    match Receive(f)
    case Err(e) => Err(e)
    case Ok(None) => Err(MalformedResponse)
    case Ok(Some(rows)) => Ok(ReportOf(if |rows| > 0 then rows[0] else EmptyRow))
  }

  /** `getTippingAnalytics`: asks for the receiver's transfers of the token
      since the window start and shapes the answer; an invalid window start
      throws before anything is fetched. The token defaults to USDC and the
      window to 30 days. */
  function GetTippingAnalytics(address: string, now: int, chain: AnalyticsQuery -> Fetched<AnalyticsRow>,
                               tokenAddress: string := UsdcAddress, days: JsInt := Int(DefaultDays))
    : (r: Result<ChainReport, ChainError>)
    ensures WindowStart(now, days).None? ==> r == Err(InvalidTime)
    ensures WindowStart(now, days).Some? ==>
      r == ShapeAnalytics(chain(AnalyticsQuery(address, tokenAddress, WindowStart(now, days).value)))
  {
    match WindowStart(now, days)
    case None => Err(InvalidTime)
    case Some(since) => ShapeAnalytics(chain(AnalyticsQuery(address, tokenAddress, since)))
  }

  /** Called with only the address, the two queries ask about USDC, at
      most 100 transfers and the 30 days before `now`. */
  lemma DefaultQueries(address: string, now: int, transfers: TransfersQuery -> Fetched<Transfer>,
                       aggregate: AnalyticsQuery -> Fetched<AnalyticsRow>)
    ensures GetCreatorTips(address, transfers) ==
      GetCreatorTips(address, transfers, "0x833589fCD6eDb6E08f4c7C32D4f71b54bdA02913", 100)
    ensures -MaxTimeValue <= now - 2_592_000_000 <= MaxTimeValue ==>
      GetTippingAnalytics(address, now, aggregate) ==
      ShapeAnalytics(aggregate(AnalyticsQuery(address, "0x833589fCD6eDb6E08f4c7C32D4f71b54bdA02913", now - 2_592_000_000)))
  {
  }

  /** Every failure of a query surfaces as an error: a query succeeds only
      on an OK response whose body has the expected shape. */
  lemma {:induction false} FailuresAreThrown(txHash: string, chain: string -> Fetched<ChainTx>)
    ensures VerifyTransaction(txHash, chain).Ok? <==>
      && chain(txHash).Response? && chain(txHash).ok
      && chain(txHash).body.Shaped? && chain(txHash).body.list.Some?
  {
  }

  /** A well-formed but empty aggregate answer gives an all-zero report in
      the default currency. */
  lemma EmptyAnalytics(statusText: string)
    ensures ShapeAnalytics(Response(true, statusText, Shaped(Some([])))) ==
      Ok(ChainReport(0, 0, 0.0, "USDC", 0, 0.0, 0.0))
  {
  }

  /** The default window is thirty days long, and a longer window starts
      earlier. */
  lemma WindowLength(now: int, days: int, moreDays: int)
    requires days <= moreDays
    requires WindowStart(now, Int(days)).Some? && WindowStart(now, Int(moreDays)).Some?
    ensures WindowStart(now, Int(moreDays)).value <= WindowStart(now, Int(days)).value
    ensures days == DefaultDays ==> WindowStart(now, Int(days)).value == now - 2_592_000_000
  {
  }
}
