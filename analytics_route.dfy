/** `GET /api/analytics` (app/api/analytics/route.ts): the ledger's analytics
    of a receiver, with four of its figures replaced by the chain indexer's
    when an API key is configured and the indexer answers. `parseInt`, the
    configured key, the clock and the indexer are arguments. */
module AnalyticsRoute {
  import opened Common
  import opened Ledger
  import Bitquery
  import opened Database

  const AddressRequired: string := "Address parameter is required"
  const FailedToFetch: string := "Failed to fetch analytics"
  const Hybrid: string := "hybrid"
  const DatabaseOnly: string := "database"

  /** The JSON object the route answers with: the ledger analytics spread
      first, the chain figures over them, then `source` and `period`. */
  datatype AnalyticsReport = AnalyticsReport(
    totalTips: nat,
    totalAmount: real,
    uniqueTippers: nat,
    averagePerTip: real,
    earliestTip: Option<int>,
    latestTip: Option<int>,
    daysActive: nat,
    averagePerDay: real,
    source: string,
    period: string)

  /** The `days` parameter: `parseInt` of it when it is a non-empty string,
      30 otherwise. A string `parseInt` cannot read gives NaN, not 30. */
  function Days(daysParam: Option<string>, parseInt: string -> JsInt): JsInt {
    if Truthy(daysParam) then parseInt(daysParam.value) else Int(Bitquery.DefaultDays)
  }

  /** The chain report, when the key is set and the query does not throw;
      the token is the default, USDC. */
  function OnChain(address: string, days: JsInt, apiKey: Option<string>, now: int,
                   chain: Bitquery.AnalyticsQuery -> Bitquery.Fetched<Bitquery.AnalyticsRow>)
    : (onChain: Option<Bitquery.ChainReport>)
    ensures onChain.Some? <==>
      Truthy(apiKey) && Bitquery.GetTippingAnalytics(address, now, chain, days := days).Ok?
    ensures onChain.Some? ==>
      onChain.value == Bitquery.GetTippingAnalytics(address, now, chain, days := days).value
  {
    if !Truthy(apiKey) then None
    else
      match Bitquery.GetTippingAnalytics(address, now, chain, days := days)
      case Err(_) => None
      case Ok(report) => Some(report)
  }

  /** The object literal that merges the two sources. */
  function Merge(base: TipAnalytics, onChain: Option<Bitquery.ChainReport>, days: JsInt): AnalyticsReport {
    AnalyticsReport(
      if onChain.Some? then onChain.value.totalTips else base.totalTips,
      if onChain.Some? then onChain.value.totalAmount else base.totalAmount,
      if onChain.Some? then onChain.value.uniqueTippers else base.uniqueTippers,
      if onChain.Some? then onChain.value.averagePerTip else base.averagePerTip,
      base.earliestTip,
      base.latestTip,
      base.daysActive,
      base.averagePerDay,
      if onChain.Some? then Hybrid else DatabaseOnly,
      JsIntToString(days) + " days")
  }

  /** `GET /api/analytics?address=&days=`. */
  function Get(db: Tables, address: Option<string>, daysParam: Option<string>, parseInt: string -> JsInt,
               apiKey: Option<string>, now: int,
               chain: Bitquery.AnalyticsQuery -> Bitquery.Fetched<Bitquery.AnalyticsRow>, link: Link)
    : (reply: Reply<AnalyticsReport>)
    reads db
    ensures !Truthy(address) ==> reply == Fail(400, AddressRequired)
    ensures Truthy(address) && link.Down? ==> reply == Fail(500, FailedToFetch)
    ensures Truthy(address) && link.Up? ==>
      var ledger := Summarize(db.ReceivedBy(address.value));
      var days := Days(daysParam, parseInt);
      var onChain := Bitquery.GetTippingAnalytics(address.value, now, chain, days := days);
      var hybrid := Truthy(apiKey) && onChain.Ok?;
      && reply.Json?
      // the ledger-only figures are always the ledger's
      && reply.body.earliestTip == ledger.earliestTip && reply.body.latestTip == ledger.latestTip
      && reply.body.daysActive == ledger.daysActive && reply.body.averagePerDay == ledger.averagePerDay
      // the chain's figures win exactly when it answered
      && (reply.body.source == Hybrid <==> hybrid)
      && (reply.body.source == DatabaseOnly <==> !hybrid)
      && (hybrid ==> && reply.body.totalTips == onChain.value.totalTips
                     && reply.body.totalAmount == onChain.value.totalAmount
                     && reply.body.uniqueTippers == onChain.value.uniqueTippers
                     && reply.body.averagePerTip == onChain.value.averagePerTip)
      && (!hybrid ==> && reply.body.totalTips == ledger.totalTips
                      && reply.body.totalAmount == ledger.totalAmount
                      && reply.body.uniqueTippers == ledger.uniqueTippers
                      && reply.body.averagePerTip == ledger.averagePerTip)
      && reply.body.period == JsIntToString(days) + " days"
  {
    var days := Days(daysParam, parseInt);
    if !Truthy(address) then Fail(400, AddressRequired)
    else
      match db.GetCreatorTipAnalytics(address.value, link)
      case Err(_) => Fail(500, FailedToFetch)
      case Ok(ledger) => Json(Merge(ledger, OnChain(address.value, days, apiKey, now, chain), days))
  }

  /** Without the parameter the period is thirty days, and the indexer is
      asked about the thirty days before `now`. */
  lemma DefaultPeriod(db: Tables, address: string, parseInt: string -> JsInt, apiKey: Option<string>, now: int,
                      chain: Bitquery.AnalyticsQuery -> Bitquery.Fetched<Bitquery.AnalyticsRow>)
    requires address != ""
    ensures Get(db, Some(address), None, parseInt, apiKey, now, chain, Up).body.period == "30 days"
    ensures Bitquery.WindowStart(now, Days(None, parseInt)).Some? ==>
      Bitquery.WindowStart(now, Days(None, parseInt)).value == now - 2_592_000_000
  {
    assert JsIntToString(Int(30)) + " days" == "30 days" by {
      assert NatToString(3) == "3";
      assert NatToString(30) == NatToString(3) + "0";
      assert JsIntToString(Int(30)) == "30";
    }
  }

  /** A `days` parameter `parseInt` cannot read is not replaced by 30: the
      period reads "NaN days" and the chain query throws, so the report is
      the ledger's alone. */
  lemma UnreadableDaysFallBack(db: Tables, address: string, daysParam: string, parseInt: string -> JsInt,
                               apiKey: Option<string>, now: int,
                               chain: Bitquery.AnalyticsQuery -> Bitquery.Fetched<Bitquery.AnalyticsRow>)
    requires address != "" && daysParam != ""
    requires parseInt(daysParam) == NaN
    ensures var r := Get(db, Some(address), Some(daysParam), parseInt, apiKey, now, chain, Up);
      r.Json? && r.body.period == "NaN days" && r.body.source == DatabaseOnly
  {
    assert Bitquery.WindowStart(now, NaN).None?;
    assert JsIntToString(NaN) + " days" == "NaN days" by {
      assert JsIntToString(NaN) == "NaN";
    }
  }

  /** Three ledger tips of 1, 5 and 10 and no chain answer: the report is
      the ledger's, three tips worth 16. */
  lemma LedgerFallbackScenario(db: Tables, address: string, daysParam: Option<string>, parseInt: string -> JsInt,
                               apiKey: Option<string>, now: int,
                               chain: Bitquery.AnalyticsQuery -> Bitquery.Fetched<Bitquery.AnalyticsRow>)
    requires address != ""
    requires var tips := db.ReceivedBy(address);
      |tips| == 3 && tips[0].amount == 1.0 && tips[1].amount == 5.0 && tips[2].amount == 10.0
    requires !Truthy(apiKey) ||
      Bitquery.GetTippingAnalytics(address, now, chain, days := Days(daysParam, parseInt)).Err?
    ensures var r := Get(db, Some(address), daysParam, parseInt, apiKey, now, chain, Up);
      && r.Json? && r.body.source == DatabaseOnly
      && r.body.totalTips == 3 && r.body.totalAmount == 16.0 && r.body.uniqueTippers <= 3
  {
    var ledger := Summarize(db.ReceivedBy(address));
    ThreeTipsSummary(db.ReceivedBy(address));
    var r := Get(db, Some(address), daysParam, parseInt, apiKey, now, chain, Up);
    assert r.Json? && r.body.source == DatabaseOnly;
    assert r.body.totalTips == ledger.totalTips && r.body.totalAmount == ledger.totalAmount;
    assert r.body.uniqueTippers == ledger.uniqueTippers;
  }

  /** The ledger half of the scenario above. */
  lemma ThreeTipsSummary(tips: seq<Tip>)
    requires |tips| == 3 && tips[0].amount == 1.0 && tips[1].amount == 5.0 && tips[2].amount == 10.0
    ensures Summarize(tips).totalTips == 3 && Summarize(tips).totalAmount == 16.0
    ensures Summarize(tips).uniqueTippers <= 3
  {
    CountsOfSummary(tips);
    assert tips[..2][..1] == [tips[0]];
    assert SumAmounts(tips[..2][..1]) == 1.0;
    assert SumAmounts(tips[..2]) == 6.0;
    assert SumAmounts(tips) == 16.0;
  }

  /** The same ledger and an indexer that reports 10 transfers from 7
      senders worth 100: those three figures replace the ledger's. */
  lemma HybridOverrideScenario(db: Tables, address: string, parseInt: string -> JsInt, apiKey: string, now: int,
                               chain: Bitquery.AnalyticsQuery -> Bitquery.Fetched<Bitquery.AnalyticsRow>,
                               statusText: string, symbol: Option<string>, activeDays: nat)
    requires address != "" && apiKey != ""
    requires 0 <= now <= Bitquery.MaxTimeValue
    requires chain(Bitquery.AnalyticsQuery(address, Bitquery.UsdcAddress, now - 2_592_000_000)) ==
      Bitquery.Response(true, statusText, Bitquery.Shaped(Some([Bitquery.AnalyticsRow(10, 7, 100.0, symbol, activeDays)])))
    ensures var r := Get(db, Some(address), None, parseInt, Some(apiKey), now, chain, Up);
      && r.Json? && r.body.source == Hybrid
      && r.body.totalTips == 10 && r.body.totalAmount == 100.0 && r.body.uniqueTippers == 7
      && r.body.averagePerTip == 10.0
      && r.body.daysActive == Summarize(db.ReceivedBy(address)).daysActive
  {
    var since := Bitquery.WindowStart(now, Int(30));
    assert since == Some(now - 2_592_000_000);
    var report := Bitquery.ReportOf(Bitquery.AnalyticsRow(10, 7, 100.0, symbol, activeDays));
    assert report.averagePerTip * 10.0 == 100.0;
  }
}
