/**
 * The values that travel on the event bus: the raw rows the campaign-data tool
 * returns, the normalised campaign records the ads agent publishes, the
 * statistics and report the analytics agent publishes, and the error payload
 * both agents publish when something fails.
 */
module Messages {

  datatype Option<+T> = None | Some(value: T)

  datatype Result<+T> = Success(value: T) | Failure(error: string)

  // ---------------------------------------------------------------------------
  // Topics: the exact strings the agents subscribe and publish to.

  const StartExtract := "CMD_START_EXTRACT"
  const DataFetched := "DATA_FETCHED"
  const ReportReady := "REPORT_READY"
  const ErrorTopic := "ERROR"

  /** The `source` of an error payload, naming the agent that failed. */
  const AdsAgentSource := "ADS_AGENT"
  const BiAgentSource := "BI_AGENT"

  // ---------------------------------------------------------------------------
  // Raw rows, as `json.loads` returns them from the campaign-data tool.

  /**
   * A JSON scalar of a row. JSON integers and floats are one numeric case,
   * `Num`; `null` (and, through `dict.get`, a missing key) is `Null`.
   */
  datatype Value = Null | Num(n: real) | Text(s: string)

  /** Python's name for the type of a value, as it appears in a `TypeError`. */
  function TypeName(v: Value): string {
    match v
    case Null => "NoneType"
    case Num(_) => "int"
    case Text(_) => "str"
  }

  /** A `campaign_id`: absent or `null`, an integer (Ads API) or a string (the mock tool). */
  datatype Key = NoKey | IntKey(i: int) | TextKey(s: string)

  /**
   * One raw campaign row. `costMicros` and `conversions` are `None` when the
   * key is absent, which the agent distinguishes from a present `null`.
   */
  datatype RawRow = RawRow(
    campaignId: Key,
    campaignName: Value,
    status: Value,
    clicks: Value,
    impressions: Value,
    costMicros: Option<Value>,
    conversions: Option<Value>)

  // ---------------------------------------------------------------------------
  // Normalised campaign records (the DATA_FETCHED payload).

  datatype Metrics = Metrics(clicks: Value, impressions: Value, cost: real, conversions: real, cpa: real)

  datatype Campaign = Campaign(id: string, name: Value, status: Value, metrics: Metrics)

  /**
   * One row of the analytics agent's table: a campaign's metrics merged with
   * its name, id and status.
   */
  datatype FrameRow = FrameRow(
    id: string, name: Value, status: Value,
    clicks: Value, impressions: Value,
    cost: real, conversions: real, cpa: real)

  // ---------------------------------------------------------------------------
  // The statistics and the report (the REPORT_READY payload).

  datatype TopCampaign = TopCampaign(name: Value, conversions: real, cpa: real)
  datatype InefficientCampaign = InefficientCampaign(name: Value, cpa: real)
  datatype WastefulSpend = WastefulSpend(name: Value, cost: real)

  datatype HardMetrics = HardMetrics(
    totalSpend: real,
    totalConversions: int,
    globalCpa: real,
    topCampaigns: seq<TopCampaign>,
    inefficientCampaigns: seq<InefficientCampaign>,
    wastefulSpend: seq<WastefulSpend>)

  /** What the language-model step returns; the model keeps it opaque. */
  datatype Strategy = Strategy(text: string)

  const NoDataMessage := "Nenhum dado recebido para análise."

  datatype Report =
    | NoData(error: string)
    | PerformanceReport(periodStats: HardMetrics, strategy: Strategy)

  // ---------------------------------------------------------------------------
  // Event payloads and events.

  datatype Payload =
    | Command(args: map<string, Value>)
    | Campaigns(campaigns: seq<Campaign>)
    | ReportPayload(report: Report)
    | ErrorPayload(source: string, message: string)

  datatype Event = Event(topic: string, payload: Payload)
}
