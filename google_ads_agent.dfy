/**
 * The ads agent: on a start command it fetches the raw campaign rows,
 * normalises them and publishes them as DATA_FETCHED, or publishes an ERROR
 * payload from ADS_AGENT when any step fails.
 *
 * The fetch (importing the tool, the simulated latency, the tool call and
 * `json.loads`) is one function parameter that either yields the decoded rows
 * or fails with the text of the exception.
 */
module AdsAgent {
  import opened Messages
  import opened Numeric
  import CommunicationLayer

  /** The bound method `handle_command`, an asynchronous handler. */
  const CommandHandler := CommunicationLayer.Async("GoogleAdsAgent.handle_command")

  /** `str(row.get('campaign_id'))`. */
  function IdString(k: Key): string {
    match k
    case NoKey => "None"
    case IntKey(i) => IntToString(i)
    case TextKey(s) => s
  }

  /**
   * `row.get('cost_micros', 0) / 1_000_000`: an absent value reads as 0; a
   * `null` or a string raises the `TypeError` of Python's `/`.
   */
  function CostReal(row: RawRow): Result<real> {
    match row.costMicros
    case None => Success(0.0)
    case Some(Num(m)) => Success(m / 1000000.0)
    case Some(v) => Failure("unsupported operand type(s) for /: '" + TypeName(v) + "' and 'int'")
  }

  /**
   * `row.get('conversions', 0)` as it survives the test `conversions > 0`: an
   * absent value reads as 0; a `null` or a string raises the `TypeError` of
   * Python's `>`.
   */
  function Conversions(row: RawRow): Result<real> {
    match row.conversions
    case None => Success(0.0)
    case Some(Num(c)) => Success(c)
    case Some(v) => Failure("'>' not supported between instances of '" + TypeName(v) + "' and 'int'")
  }

  /** The body of the loop of `_process_data` for one row. */
  function NormalizeRow(row: RawRow): Result<Campaign> {
    match CostReal(row)
    case Failure(e) => Failure(e)
    case Success(cost) =>
      match Conversions(row)
      case Failure(e) => Failure(e)
      case Success(conversions) =>
        var cpa := if conversions > 0.0 then Round2(cost / conversions) else 0.0;
        Success(Campaign(
          IdString(row.campaignId), row.campaignName, row.status,
          Metrics(row.clicks, row.impressions, Round2(cost), conversions, cpa)))
  }

  /** `_process_data` on its whole input: the first row that raises ends it. */
  function ProcessRows(rows: seq<RawRow>): Result<seq<Campaign>> {
    if rows == [] then Success([])
    else
      match ProcessRows(rows[..|rows| - 1])
      case Failure(e) => Failure(e)
      case Success(done) =>
        match NormalizeRow(rows[|rows| - 1])
        case Failure(e) => Failure(e)
        case Success(c) => Success(done + [c])
  }

  /** What `handle_command` publishes for a command payload, given the fetch. */
  function CommandOutcome(args: map<string, Value>, fetch: Value -> Result<seq<RawRow>>): Event {
    var customerId := if "customer_id" in args then args["customer_id"] else Null;
    match fetch(customerId)
    case Failure(e) => Event(ErrorTopic, ErrorPayload(AdsAgentSource, e))
    case Success(rows) =>
      match ProcessRows(rows)
      case Failure(e) => Event(ErrorTopic, ErrorPayload(AdsAgentSource, e))
      case Success(campaigns) => Event(DataFetched, Campaigns(campaigns))
  }

  // ---------------------------------------------------------------------------
  // The agent.

  class GoogleAdsAgent {
    const bus: CommunicationLayer.EventBus<Payload>

    /** `__init__`: keep the bus and subscribe `handle_command` to CMD_START_EXTRACT. */
    constructor (bus: CommunicationLayer.EventBus<Payload>)
      requires bus.Valid()
      modifies bus
      ensures this.bus == bus && bus.Valid()
      ensures bus.subscribers == CommunicationLayer.Subscribed(old(bus.subscribers), StartExtract, CommandHandler)
    {
      this.bus := bus;
      new;
      bus.Subscribe(StartExtract, CommandHandler);
    }

    /** `_process_data`: normalise the rows one by one, appending to the output. */
    method ProcessData(raw: seq<RawRow>) returns (result: Result<seq<Campaign>>)
      ensures result == ProcessRows(raw)
    {
      var processed: seq<Campaign> := [];
      var i := 0;
      while i < |raw|
        invariant 0 <= i <= |raw|
        invariant ProcessRows(raw[..i]) == Success(processed)
      {
        assert raw[..i + 1][..i] == raw[..i];
        var row := NormalizeRow(raw[i]);
        if row.Failure? {
          ProcessRowsStopsAtFailure(raw, i + 1);
          return Failure(row.error);
        }
        processed := processed + [row.value];
        i := i + 1;
      }
      assert raw[..i] == raw;
      result := Success(processed);
    }

    /**
     * `handle_command`: fetch, normalise, and publish DATA_FETCHED; on any
     * failure publish ERROR from ADS_AGENT instead. Returns the event and the
     * dispatch the bus performed for it.
     */
    method HandleCommand(args: map<string, Value>, fetch: Value -> Result<seq<RawRow>>)
      returns (event: Event, trace: seq<CommunicationLayer.Step<Payload>>)
      ensures event == CommandOutcome(args, fetch)
      ensures trace == CommunicationLayer.DispatchTrace(
                         CommunicationLayer.HandlersFor(bus.subscribers, event.topic), event.payload)
    {
      var customerId := if "customer_id" in args then args["customer_id"] else Null;
      var fetched := fetch(customerId);
      if fetched.Failure? {
        event := Event(ErrorTopic, ErrorPayload(AdsAgentSource, fetched.error));
      } else {
        var processed := ProcessData(fetched.value);
        if processed.Failure? {
          event := Event(ErrorTopic, ErrorPayload(AdsAgentSource, processed.error));
        } else {
          event := Event(DataFetched, Campaigns(processed.value));
        }
      }
      trace := bus.Publish(event.topic, event.payload);
    }
  }

  // ---------------------------------------------------------------------------
  // Properties.

  /** Once a prefix of the rows has failed, the whole input fails with the same message. */
  lemma {:induction false} ProcessRowsStopsAtFailure(rows: seq<RawRow>, i: nat)
    requires i <= |rows|
    requires ProcessRows(rows[..i]).Failure?
    ensures ProcessRows(rows) == ProcessRows(rows[..i])
    decreases |rows| - i
  {
    if i < |rows| {
      assert rows[..i + 1][..i] == rows[..i];
      ProcessRowsStopsAtFailure(rows, i + 1);
    } else {
      assert rows[..i] == rows;
    }
  }

  /**
   * `_process_data` succeeds exactly when every row normalises; then the output
   * has the input's length and its i-th record is built from the i-th row.
   * Otherwise its error is that of the first row that fails.
   */
  lemma {:induction false} ProcessRowsAt(rows: seq<RawRow>)
    ensures ProcessRows(rows).Success? <==> forall i :: 0 <= i < |rows| ==> NormalizeRow(rows[i]).Success?
    ensures ProcessRows(rows).Success? ==>
      |ProcessRows(rows).value| == |rows| &&
      forall i :: 0 <= i < |rows| ==> ProcessRows(rows).value[i] == NormalizeRow(rows[i]).value
    ensures ProcessRows(rows).Failure? ==>
      exists k :: 0 <= k < |rows| && NormalizeRow(rows[k]).Failure? &&
        ProcessRows(rows).error == NormalizeRow(rows[k]).error &&
        forall j :: 0 <= j < k ==> NormalizeRow(rows[j]).Success?
  {
    if rows != [] {
      var init := rows[..|rows| - 1];
      ProcessRowsAt(init);
      assert forall i :: 0 <= i < |init| ==> init[i] == rows[i];
      if ProcessRows(init).Failure? {
        var k :| 0 <= k < |init| && NormalizeRow(init[k]).Failure? &&
          ProcessRows(init).error == NormalizeRow(init[k]).error &&
          forall j :: 0 <= j < k ==> NormalizeRow(init[j]).Success?;
        assert NormalizeRow(rows[k]).Failure?;
      } else if NormalizeRow(rows[|rows| - 1]).Failure? {
        assert forall j :: 0 <= j < |rows| - 1 ==> NormalizeRow(rows[j]).Success?;
      }
    }
  }

  /** The normalised cost: within half a cent of `cost_micros / 1_000_000` (0 when absent), in whole cents. */
  lemma CostIsRoundedMicros(row: RawRow)
    requires NormalizeRow(row).Success?
    ensures var cost := NormalizeRow(row).value.metrics.cost;
      var micros := if row.costMicros.Some? then row.costMicros.value.n else 0.0;
      && -0.005 <= cost - micros / 1000000.0 <= 0.005
      && IsCents(cost)
      && cost == Round2(micros / 1000000.0)
  {
  }

  /** The test's mock row: 50000000 micros is a cost of 50.0. */
  lemma CostOfMockRow(row: RawRow)
    requires row.costMicros == Some(Num(50000000.0))
    requires row.conversions == Some(Num(10.0))
    ensures NormalizeRow(row).Success?
    ensures NormalizeRow(row).value.metrics.cost == 50.0
    ensures NormalizeRow(row).value.metrics.cpa == 5.0
  {
    assert CostReal(row) == Success(50.0);
    Round2Cents(50.0);
    Round2Cents(5.0);
  }

  /**
   * The CPA guard: 0 when conversions are not positive; otherwise the unrounded
   * cost per conversion rounded to cents, so within half a cent of it.
   */
  lemma CpaGuard(row: RawRow)
    requires NormalizeRow(row).Success?
    ensures var m := NormalizeRow(row).value.metrics;
      && (m.conversions <= 0.0 ==> m.cpa == 0.0)
      && (m.conversions > 0.0 ==>
            m.cpa == Round2(CostReal(row).value / m.conversions) &&
            -0.005 <= m.cpa - CostReal(row).value / m.conversions <= 0.005)
  {
  }

  /**
   * The CPA divides the cost before its own rounding: 14900 micros and 0.5
   * conversions give a cost of 0.01 but a CPA of 0.03, not 0.01 / 0.5 = 0.02.
   */
  lemma CpaUsesUnroundedCost(row: RawRow)
    requires row.costMicros == Some(Num(14900.0))
    requires row.conversions == Some(Num(0.5))
    ensures NormalizeRow(row).Success?
    ensures NormalizeRow(row).value.metrics.cost == 0.01
    ensures NormalizeRow(row).value.metrics.cpa == 0.03
    ensures Round2(NormalizeRow(row).value.metrics.cost / 0.5) == 0.02
  {
    assert CostReal(row) == Success(0.0149);
    assert RoundHalfEven(0.0149 * 100.0) == 1;
    assert RoundHalfEven(0.0298 * 100.0) == 3;
    assert RoundHalfEven(0.02 * 100.0) == 2;
  }

  /**
   * The fields copied by `_process_data`: the id is the string form of the
   * campaign id (an integer id can be read back from it), name, status, clicks
   * and impressions are unchanged, and conversions is the defaulted value.
   */
  lemma CopiedFields(row: RawRow)
    requires NormalizeRow(row).Success?
    ensures var c := NormalizeRow(row).value;
      && (row.campaignId.IntKey? ==> IsIntLiteral(c.id) && ParseInt(c.id) == row.campaignId.i)
      && (row.campaignId.TextKey? ==> c.id == row.campaignId.s)
      && (row.campaignId.NoKey? ==> c.id == "None")
      && c.name == row.campaignName && c.status == row.status
      && c.metrics.clicks == row.clicks && c.metrics.impressions == row.impressions
      && c.metrics.conversions == (if row.conversions.Some? then row.conversions.value.n else 0.0)
  {
    if row.campaignId.IntKey? {
      IntToStringRoundTrip(row.campaignId.i);
    }
  }

  /** Normalisation fails exactly on a `null` or string cost or conversions, checked in that order. */
  lemma NormalizeRowFails(row: RawRow)
    ensures NormalizeRow(row).Failure? <==>
      (row.costMicros.Some? && !row.costMicros.value.Num?) ||
      (row.conversions.Some? && !row.conversions.value.Num?)
    ensures row.costMicros.Some? && !row.costMicros.value.Num? ==>
      NormalizeRow(row).error == "unsupported operand type(s) for /: '" + TypeName(row.costMicros.value) + "' and 'int'"
  {
  }

  /**
   * `handle_command` publishes DATA_FETCHED with exactly the processed list
   * when the fetch and every row succeed, and otherwise ERROR from ADS_AGENT
   * carrying the message of the exception: the fetch's, or that of the row
   * normalisation (the first failing row's, by ProcessRowsAt).
   */
  lemma CommandOutcomeCases(args: map<string, Value>, fetch: Value -> Result<seq<RawRow>>)
    ensures var customerId := if "customer_id" in args then args["customer_id"] else Null;
      var event := CommandOutcome(args, fetch);
      && (event.topic == DataFetched || event.topic == ErrorTopic)
      && (event.topic == DataFetched <==>
            fetch(customerId).Success? &&
            forall i :: 0 <= i < |fetch(customerId).value| ==> NormalizeRow(fetch(customerId).value[i]).Success?)
      && (event.topic == DataFetched ==>
            var rows := fetch(customerId).value;
            event.payload.Campaigns? && |event.payload.campaigns| == |rows| &&
            forall i :: 0 <= i < |rows| ==> event.payload.campaigns[i] == NormalizeRow(rows[i]).value)
      && (event.topic == ErrorTopic ==>
            event.payload.ErrorPayload? && event.payload.source == AdsAgentSource &&
            (fetch(customerId).Failure? ==> event.payload.message == fetch(customerId).error) &&
            (fetch(customerId).Success? ==> event.payload.message == ProcessRows(fetch(customerId).value).error))
  {
    var customerId := if "customer_id" in args then args["customer_id"] else Null;
    if fetch(customerId).Success? {
      ProcessRowsAt(fetch(customerId).value);
    }
  }
}
