/**
 * The analytics agent: on DATA_FETCHED it builds a table of the campaigns,
 * computes the hard metrics, asks the language-model step for a strategy and
 * publishes the report as REPORT_READY, or publishes an ERROR payload from
 * BI_AGENT when a step raises.
 *
 * The language-model step is a function parameter from the metrics and the
 * table to a strategy or the text of the exception it raised.
 */
module BiAgent {
  import opened Messages
  import opened Numeric
  import opened Frames
  import CommunicationLayer

  /** The bound method `handle_data`, an asynchronous handler. */
  const DataHandler := CommunicationLayer.Async("BIAnalyticsAgent.handle_data")

  /** How many rows `nlargest` keeps for the top and the wasteful campaigns. */
  const TopCount := 3

  // ---------------------------------------------------------------------------
  // The table.

  /** `item['metrics'] | {'name': ..., 'id': ..., 'status': ...}` for one campaign. */
  function ToFrameRow(c: Campaign): FrameRow {
    FrameRow(c.id, c.name, c.status, c.metrics.clicks, c.metrics.impressions,
             c.metrics.cost, c.metrics.conversions, c.metrics.cpa)
  }

  /** The table built by `generate_performance_report`, one row per campaign. */
  function BuildFrame(data: seq<Campaign>): seq<FrameRow> {
    seq(|data|, i requires 0 <= i < |data| => ToFrameRow(data[i]))
  }

  function Cost(r: FrameRow): real { r.cost }
  function Conversions(r: FrameRow): real { r.conversions }
  function Cpa(r: FrameRow): real { r.cpa }

  /** The per-row CPA of `_calculate_hard_metrics`: cost per conversion, 0 without conversions. */
  function RowCpa(r: FrameRow): real {
    if r.conversions > 0.0 then r.cost / r.conversions else 0.0
  }

  /** The table after `df['cpa'] = ...`: every row's CPA replaced by its recomputed value. */
  function WithCpa(rows: seq<FrameRow>): seq<FrameRow> {
    seq(|rows|, i requires 0 <= i < |rows| => rows[i].(cpa := RowCpa(rows[i])))
  }

  /** The mask of `low_performers`: CPA above the threshold, with conversions. */
  function InefficientMask(threshold: real): FrameRow -> bool {
    (r: FrameRow) => r.cpa > threshold && r.conversions > 0.0
  }

  /** The mask of `zero_conversion_spend`: no conversions, but a positive cost. */
  function WastefulMask(): FrameRow -> bool {
    (r: FrameRow) => r.conversions == 0.0 && r.cost > 0.0
  }

  /** 1.5 times the mean per-row CPA. */
  function Threshold(frame: seq<FrameRow>): real
    requires |frame| > 0
  {
    Mean(frame, Cpa) * 1.5
  }

  function TopRows(frame: seq<FrameRow>): seq<FrameRow> {
    NLargest(frame, TopCount, Conversions)
  }

  function InefficientRows(frame: seq<FrameRow>): seq<FrameRow>
    requires |frame| > 0
  {
    Select(frame, InefficientMask(Threshold(frame)))
  }

  function WastefulRows(frame: seq<FrameRow>): seq<FrameRow> {
    NLargest(Select(frame, WastefulMask()), TopCount, Cost)
  }

  /** `[['name', 'conversions', 'cpa']].to_dict('records')`. */
  function AsTop(rows: seq<FrameRow>): seq<TopCampaign> {
    seq(|rows|, i requires 0 <= i < |rows| => TopCampaign(rows[i].name, rows[i].conversions, rows[i].cpa))
  }

  /** `[['name', 'cpa']].to_dict('records')`. */
  function AsInefficient(rows: seq<FrameRow>): seq<InefficientCampaign> {
    seq(|rows|, i requires 0 <= i < |rows| => InefficientCampaign(rows[i].name, rows[i].cpa))
  }

  /** `[['name', 'cost']].to_dict('records')`. */
  function AsWasteful(rows: seq<FrameRow>): seq<WastefulSpend> {
    seq(|rows|, i requires 0 <= i < |rows| => WastefulSpend(rows[i].name, rows[i].cost))
  }

  /** The dictionary returned by `_calculate_hard_metrics`, over a table whose CPA column is recomputed. */
  function Stats(frame: seq<FrameRow>): HardMetrics
    requires |frame| > 0
  {
    var totalCost := Sum(frame, Cost);
    var totalConversions := Sum(frame, Conversions);
    HardMetrics(
      Round2(totalCost),
      Trunc(totalConversions),
      if totalConversions > 0.0 then Round2(totalCost / totalConversions) else 0.0,
      AsTop(TopRows(frame)),
      AsInefficient(InefficientRows(frame)),
      AsWasteful(WastefulRows(frame)))
  }

  /** `_calculate_hard_metrics` on the table as the caller passes it. */
  function HardMetricsOf(rows: seq<FrameRow>): HardMetrics
    requires |rows| > 0
  {
    Stats(WithCpa(rows))
  }

  /** What `generate_performance_report` returns, or the message of the exception it raises. */
  function ReportOutcome(data: seq<Campaign>, insights: (HardMetrics, seq<FrameRow>) -> Result<Strategy>): Result<Report> {
    if |data| == 0 then Success(NoData(NoDataMessage))
    else
      var rows := BuildFrame(data);
      match insights(HardMetricsOf(rows), WithCpa(rows))
      case Failure(e) => Failure(e)
      case Success(strategy) => Success(PerformanceReport(HardMetricsOf(rows), strategy))
  }

  /** What `handle_data` publishes. */
  function DataOutcome(data: seq<Campaign>, insights: (HardMetrics, seq<FrameRow>) -> Result<Strategy>): Event {
    match ReportOutcome(data, insights)
    case Success(report) => Event(ReportReady, ReportPayload(report))
    case Failure(e) => Event(ErrorTopic, ErrorPayload(BiAgentSource, e))
  }

  // ---------------------------------------------------------------------------
  // The agent.

  class BIAnalyticsAgent {
    const bus: CommunicationLayer.EventBus<Payload>

    /** `__init__`: keep the bus and subscribe `handle_data` to DATA_FETCHED. */
    constructor (bus: CommunicationLayer.EventBus<Payload>)
      requires bus.Valid()
      modifies bus
      ensures this.bus == bus && bus.Valid()
      ensures bus.subscribers == CommunicationLayer.Subscribed(old(bus.subscribers), DataFetched, DataHandler)
    {
      this.bus := bus;
      new;
      bus.Subscribe(DataFetched, DataHandler);
    }

    /**
     * `_calculate_hard_metrics`: overwrite the CPA column of the caller's table
     * in place, then compute the statistics from it.
     */
    method CalculateHardMetrics(df: array<FrameRow>) returns (stats: HardMetrics)
      requires df.Length > 0
      modifies df
      ensures df[..] == WithCpa(old(df[..]))
      ensures stats == HardMetricsOf(old(df[..]))
    {
      forall i | 0 <= i < df.Length {
        df[i] := df[i].(cpa := RowCpa(df[i]));
      }
      assert df[..] == WithCpa(old(df[..]));
      stats := Stats(df[..]);
    }

    /**
     * `generate_performance_report`: the empty-input guard, the table, the
     * statistics and the strategy.
     */
    method GeneratePerformanceReport(data: seq<Campaign>, insights: (HardMetrics, seq<FrameRow>) -> Result<Strategy>)
      returns (report: Result<Report>)
      ensures report == ReportOutcome(data, insights)
    {
      if |data| == 0 {
        return Success(NoData(NoDataMessage));
      }
      var df := new FrameRow[|data|](i requires 0 <= i < |data| => ToFrameRow(data[i]));
      assert df[..] == BuildFrame(data);
      var stats := CalculateHardMetrics(df);
      var strategy := insights(stats, df[..]);
      if strategy.Failure? {
        return Failure(strategy.error);
      }
      report := Success(PerformanceReport(stats, strategy.value));
    }

    /**
     * `handle_data`: publish the report as REPORT_READY, or ERROR from
     * BI_AGENT when producing it raised. Returns the event and the dispatch
     * the bus performed for it.
     */
    method HandleData(data: seq<Campaign>, insights: (HardMetrics, seq<FrameRow>) -> Result<Strategy>)
      returns (event: Event, trace: seq<CommunicationLayer.Step<Payload>>)
      ensures event == DataOutcome(data, insights)
      ensures trace == CommunicationLayer.DispatchTrace(
                         CommunicationLayer.HandlersFor(bus.subscribers, event.topic), event.payload)
    {
      var report := GeneratePerformanceReport(data, insights);
      if report.Success? {
        event := Event(ReportReady, ReportPayload(report.value));
      } else {
        event := Event(ErrorTopic, ErrorPayload(BiAgentSource, report.error));
      }
      trace := bus.Publish(event.topic, event.payload);
    }
  }

  // ---------------------------------------------------------------------------
  // Properties.

  /** The recomputed CPA replaces any incoming CPA and leaves every other column alone. */
  lemma WithCpaAt(rows: seq<FrameRow>)
    ensures |WithCpa(rows)| == |rows|
    ensures forall i :: 0 <= i < |rows| ==>
      WithCpa(rows)[i].cpa == (if rows[i].conversions > 0.0 then rows[i].cost / rows[i].conversions else 0.0) &&
      WithCpa(rows)[i].(cpa := 0.0) == rows[i].(cpa := 0.0)
  {
  }

  /** The hard metrics do not depend on the CPA column the table arrives with. */
  lemma HardMetricsIgnoreIncomingCpa(rows: seq<FrameRow>, rows': seq<FrameRow>)
    requires |rows| == |rows'| > 0
    requires forall i :: 0 <= i < |rows| ==> rows[i].(cpa := 0.0) == rows'[i].(cpa := 0.0)
    ensures HardMetricsOf(rows) == HardMetricsOf(rows')
  {
    assert forall i :: 0 <= i < |rows| ==>
      rows[i].cost == rows'[i].cost && rows[i].conversions == rows'[i].conversions;
    assert WithCpa(rows) == WithCpa(rows');
  }

  /** Totals: spend rounded to cents, conversions truncated to an integer, and the guarded global CPA. */
  lemma Totals(rows: seq<FrameRow>)
    requires |rows| > 0
    ensures var m := HardMetricsOf(rows);
      var cost := Sum(rows, Cost);
      var conversions := Sum(rows, Conversions);
      && m.totalSpend == Round2(cost) && -0.005 <= m.totalSpend - cost <= 0.005
      && m.totalConversions == Trunc(conversions)
      && (conversions <= 0.0 ==> m.globalCpa == 0.0)
      && (conversions > 0.0 ==> m.globalCpa == Round2(cost / conversions))
  {
    WithCpaSums(rows);
  }

  /**
   * With conversions that are never negative, the global CPA guard fails
   * exactly when no campaign has a conversion.
   */
  lemma ConversionGuard(rows: seq<FrameRow>)
    requires forall i :: 0 <= i < |rows| ==> rows[i].conversions >= 0.0
    ensures Sum(rows, Conversions) > 0.0 <==> exists i :: 0 <= i < |rows| && rows[i].conversions > 0.0
  {
    SumNonNegative(rows, Conversions);
  }

  /** Recomputing the CPA column changes neither the cost nor the conversions totals. */
  lemma {:induction false} WithCpaSums(rows: seq<FrameRow>)
    ensures Sum(WithCpa(rows), Cost) == Sum(rows, Cost)
    ensures Sum(WithCpa(rows), Conversions) == Sum(rows, Conversions)
  {
    if rows != [] {
      var init := rows[..|rows| - 1];
      WithCpaSums(init);
      assert WithCpa(rows)[..|rows| - 1] == WithCpa(init);
    }
  }

  /** The rows `nlargest(3, 'conversions')` keeps are in descending order of conversions. */
  lemma TopRowsOrdered(frame: seq<FrameRow>)
    ensures forall i, j :: 0 <= i < j < |TopRows(frame)| ==> TopRows(frame)[i].conversions >= TopRows(frame)[j].conversions
  {
    NLargestDescending(frame, TopCount, Conversions);
    assert Descending(TopRows(frame), Conversions);
  }

  /** No row left out by `nlargest(3, 'conversions')` has more conversions than a row it keeps. */
  lemma TopRowsDominate(frame: seq<FrameRow>)
    ensures forall x, j :: x in multiset(frame) - multiset(TopRows(frame)) && 0 <= j < |TopRows(frame)| ==>
              x.conversions <= TopRows(frame)[j].conversions
  {
    var topRows := TopRows(frame);
    forall x: FrameRow, j | x in multiset(frame) - multiset(topRows) && 0 <= j < |topRows|
      ensures x.conversions <= topRows[j].conversions
    {
      NLargestDominates(frame, TopCount, Conversions, x, topRows[j]);
    }
  }

  /**
   * `top_campaigns`: the records of the min(3, n) rows `nlargest` keeps, in
   * descending order of conversions, and no row left out has more conversions
   * than a row that is listed.
   */
  lemma TopCampaigns(rows: seq<FrameRow>)
    requires |rows| > 0
    ensures var frame := WithCpa(rows);
      var listed := TopRows(frame);
      && HardMetricsOf(rows).topCampaigns == AsTop(listed)
      && |listed| == (if |rows| < TopCount then |rows| else TopCount)
      && (forall i, j :: 0 <= i < j < |listed| ==> listed[i].conversions >= listed[j].conversions)
      && (forall x, j :: x in multiset(frame) - multiset(listed) && 0 <= j < |listed| ==>
            x.conversions <= listed[j].conversions)
  {
    var frame := WithCpa(rows);
    NLargestLength(frame, TopCount, Conversions);
    TopRowsOrdered(frame);
    TopRowsDominate(frame);
  }

  /**
   * `inefficient_campaigns`: exactly the rows with conversions and a CPA above
   * 1.5 times the mean CPA, each as often as in the table, in table order.
   */
  lemma InefficientCampaigns(rows: seq<FrameRow>)
    requires |rows| > 0
    ensures var frame := WithCpa(rows);
      var mask := InefficientMask(Threshold(frame));
      var listed := InefficientRows(frame);
      && HardMetricsOf(rows).inefficientCampaigns == AsInefficient(listed)
      && (forall x :: multiset(listed)[x] ==
            if x.conversions > 0.0 && x.cpa > 1.5 * Mean(frame, Cpa) then multiset(frame)[x] else 0)
      && (forall k :: 0 <= k <= |frame| ==> listed == Select(frame[..k], mask) + Select(frame[k..], mask))
  {
    var frame := WithCpa(rows);
    var mask := InefficientMask(Threshold(frame));
    forall x
      ensures multiset(InefficientRows(frame))[x] ==
        if x.conversions > 0.0 && x.cpa > 1.5 * Mean(frame, Cpa) then multiset(frame)[x] else 0
    {
      SelectCount(frame, mask, x);
    }
    forall k | 0 <= k <= |frame|
      ensures InefficientRows(frame) == Select(frame[..k], mask) + Select(frame[k..], mask)
    {
      assert frame == frame[..k] + frame[k..];
      SelectAppend(frame[..k], frame[k..], mask);
    }
  }

  /** The rows `nlargest(3, 'cost')` keeps from the wasteful candidates: at most 3, each a candidate. */
  lemma WastefulRowsSound(frame: seq<FrameRow>)
    ensures var listed := WastefulRows(frame);
      && |listed| <= TopCount
      && (forall i :: 0 <= i < |listed| ==> listed[i] in frame && listed[i].conversions == 0.0 && listed[i].cost > 0.0)
  {
    var candidates := Select(frame, WastefulMask());
    var listed := WastefulRows(frame);
    NLargestLength(candidates, TopCount, Cost);
    NLargestIn(candidates, TopCount, Cost);
    SelectSound(frame, WastefulMask());
    assert forall i :: 0 <= i < |listed| ==> listed[i] in candidates;
  }

  /**
   * `nlargest(3, 'cost')` over the wasteful candidates lists min(3, candidates)
   * rows, and no candidate left out costs more than a listed row.
   */
  lemma WastefulRowsLargest(frame: seq<FrameRow>)
    ensures var candidates := Select(frame, WastefulMask());
      var listed := WastefulRows(frame);
      && |listed| == (if |candidates| < TopCount then |candidates| else TopCount)
      && (forall x, j :: x in multiset(candidates) - multiset(listed) && 0 <= j < |listed| ==>
            x.cost <= listed[j].cost)
  {
    var candidates := Select(frame, WastefulMask());
    var listed := WastefulRows(frame);
    NLargestLength(candidates, TopCount, Cost);
    forall x: FrameRow, j | x in multiset(candidates) - multiset(listed) && 0 <= j < |listed|
      ensures x.cost <= listed[j].cost
    {
      NLargestDominates(candidates, TopCount, Cost, x, listed[j]);
    }
  }

  /** The wasteful records are in descending order of cost. */
  lemma WastefulRecordsOrdered(frame: seq<FrameRow>)
    ensures var waste := AsWasteful(WastefulRows(frame));
      forall i, j :: 0 <= i < j < |waste| ==> waste[i].cost >= waste[j].cost
  {
    var listed := WastefulRows(frame);
    var waste := AsWasteful(listed);
    NLargestDescending(Select(frame, WastefulMask()), TopCount, Cost);
    assert Descending(listed, Cost);
    assert forall k :: 0 <= k < |waste| ==> waste[k].cost == listed[k].cost;
  }

  /**
   * `wasteful_spend`: the records of the min(3, candidates) costliest rows among
   * those with no conversions and a positive cost, in descending order of cost.
   */
  lemma WastefulSpendRows(rows: seq<FrameRow>)
    requires |rows| > 0
    ensures var frame := WithCpa(rows);
      var waste := HardMetricsOf(rows).wastefulSpend;
      var candidates := Select(frame, WastefulMask());
      var listed := WastefulRows(frame);
      && waste == AsWasteful(listed)
      && |listed| == (if |candidates| < TopCount then |candidates| else TopCount)
      && (forall i :: 0 <= i < |listed| ==> listed[i] in frame && listed[i].conversions == 0.0 && listed[i].cost > 0.0)
      && (forall i, j :: 0 <= i < j < |waste| ==> waste[i].cost >= waste[j].cost)
      && (forall x, j :: x in multiset(candidates) - multiset(listed) && 0 <= j < |listed| ==>
            x.cost <= listed[j].cost)
  {
    WastefulRowsSound(WithCpa(rows));
    WastefulRecordsOrdered(WithCpa(rows));
    WastefulRowsLargest(WithCpa(rows));
  }

  /** The frame of the analytics test: Campaign A (50.0, 5 conversions) and Campaign B (100.0, none). */
  function TestFrame(): seq<FrameRow> {
    [ FrameRow("1", Text("Campaign A"), Text("ENABLED"), Num(100.0), Num(1000.0), 50.0, 5.0, 0.0),
      FrameRow("2", Text("Campaign B"), Text("ENABLED"), Num(200.0), Num(2000.0), 100.0, 0.0, 0.0) ]
  }

  /** The analytics test: spend 150.00, 5 conversions, global CPA 30.0, and Campaign B as the one wasteful row. */
  lemma TestHardMetrics()
    ensures var m := HardMetricsOf(TestFrame());
      && m.totalSpend == 150.0
      && m.totalConversions == 5
      && m.globalCpa == 30.0
      && |m.wastefulSpend| == 1
      && m.wastefulSpend[0].name == Text("Campaign B")
  {
    var frame := WithCpa(TestFrame());
    assert frame[0].cpa == 10.0 && frame[1].cpa == 0.0;
    assert frame[..1] == [frame[0]];
    assert Sum(frame, Cost) == 150.0;
    assert Sum(frame, Conversions) == 5.0;
    Round2Cents(150.0);
    Round2Cents(30.0);
    var candidates := Select(frame, WastefulMask());
    assert Select(frame[..1], WastefulMask()) == [];
    assert candidates == [frame[1]];
    assert ArgMax(candidates, Cost) == 0;
    assert Remove(candidates, 0) == [];
    assert WastefulRows(frame) == [frame[1]];
  }

  /** An empty DATA_FETCHED payload computes no statistics and is reported as REPORT_READY with the error text, not as ERROR. */
  lemma EmptyDataIsReported(insights: (HardMetrics, seq<FrameRow>) -> Result<Strategy>)
    ensures DataOutcome([], insights) == Event(ReportReady, ReportPayload(NoData(NoDataMessage)))
  {
  }

  /**
   * `handle_data` publishes REPORT_READY when the report is produced (always
   * for empty input) and otherwise ERROR from BI_AGENT with the exception's text.
   */
  lemma DataOutcomeCases(data: seq<Campaign>, insights: (HardMetrics, seq<FrameRow>) -> Result<Strategy>)
    ensures var event := DataOutcome(data, insights);
      && (event.topic == ReportReady <==>
            |data| == 0 || insights(HardMetricsOf(BuildFrame(data)), WithCpa(BuildFrame(data))).Success?)
      && (event.topic == ReportReady ==> event.payload.ReportPayload?)
      && (event.topic == ReportReady && |data| > 0 ==>
            event.payload.report == PerformanceReport(HardMetricsOf(BuildFrame(data)),
              insights(HardMetricsOf(BuildFrame(data)), WithCpa(BuildFrame(data))).value))
      && (event.topic != ReportReady ==>
            event.topic == ErrorTopic && event.payload == ErrorPayload(BiAgentSource,
              insights(HardMetricsOf(BuildFrame(data)), WithCpa(BuildFrame(data))).error))
  {
  }
}
