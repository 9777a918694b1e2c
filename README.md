# Event bus and agents of the Google Ads BI pipeline

This project models the core of a small multi-agent pipeline whose agents communicate only through an in-process, topic-based event bus:

- **Event bus** (`CommunicationLayer`). A registry maps each topic to its ordered list of handlers.
  - `subscribe` appends a handler to the topic's list, creating the list if it is absent. Duplicates are allowed.
  - `publish` does nothing for a topic with no subscribers. Otherwise it visits the handlers in registration order: a synchronous handler is called inline, an asynchronous one is started as a task. After the loop it awaits all the tasks together, but only when there is at least one.
  - The model's `Publish` returns that dispatch as a trace of steps.
- **Ads agent** (`AdsAgent`). It subscribes `handle_command` to `CMD_START_EXTRACT`. On a command it fetches the raw campaign rows for `customer_id` and normalises them (`_process_data`):
  - cost is `cost_micros / 1_000_000`, rounded to cents;
  - CPA is the unrounded cost per conversion, rounded to cents, or 0 unless conversions are positive;
  - the id is the string form of `campaign_id`.
  
  It then publishes the rows as `DATA_FETCHED`. If any step raises, it publishes `ERROR` with source `ADS_AGENT` and the exception's text instead.
- **Analytics agent** (`BiAgent`). It subscribes `handle_data` to `DATA_FETCHED`.
  - An empty payload is reported as a `REPORT_READY` event carrying the "no data" error text.
  - Otherwise it builds a table of the campaigns. `_calculate_hard_metrics` then overwrites the table's CPA column in place and computes:
    - the total spend (rounded to cents);
    - the total conversions (truncated to an integer);
    - the guarded global CPA;
    - the three campaigns with the most conversions;
    - the campaigns with conversions and a CPA above 1.5 times the mean CPA;
    - the three largest spenders among the campaigns with no conversions and a positive cost.
  - It asks the language-model step for a strategy and publishes the report as `REPORT_READY`. If a step raises, it publishes `ERROR` with source `BI_AGENT`.
- **Shared modules.**
  - `Frames` models the pandas operations used: column sum and mean, boolean-mask selection, and `nlargest` with `keep='first'`.
  - `Numeric` models `round(x, 2)` (ties to even), `int(x)` (truncation toward zero) and `str` on integers.
  - `Messages` holds the payloads and the topic constants.
  - `Pipeline` shows how the two agents' subscriptions combine on one bus.

Outside effects are parameters:
- The campaign-data fetch, which covers the tool import, the simulated latency, the tool call and `json.loads`, is a function from the customer id to the decoded rows or an exception message.
- The language-model step is a function from the statistics and the table to a strategy or an exception message.

The model follows these facts about the code:
- The topics are exactly `CMD_START_EXTRACT`, `DATA_FETCHED`, `REPORT_READY` and `ERROR`.
- The command's key is `customer_id`.
- The code has no completion gate and no timeout for the orchestrator to await.
- The code does not catch a failing handler inside `publish`. `asyncio.gather` hands the first exception to the publisher.

## Model

| member | source | states |
|---|---|---|
| CommunicationLayer.Subscribed | google-ads-bi-agent/a2a/communication_layer.py:12-15 | subscribing adds the topic to the registry's topics and changes no other topic |
| CommunicationLayer.HandlersFor | google-ads-bi-agent/a2a/communication_layer.py:19-22 | the handler list of a topic, empty for a topic never subscribed to; what `publish` iterates over |
| CommunicationLayer.OfKind | google-ads-bi-agent/a2a/communication_layer.py:21-24 | the handlers of one kind in registration order (meaning given by OfKindCount and OfKindAppend) |
| CommunicationLayer.Tasks | google-ads-bi-agent/a2a/communication_layer.py:21-24 | the `tasks` list: the asynchronous handlers in registration order (meaning given by OfKindCount and GatherIffAsync) |
| CommunicationLayer.Calls | google-ads-bi-agent/a2a/communication_layer.py:22-27 | the steps of the dispatch loop, one per handler (meaning given by CallsAt) |
| CommunicationLayer.DispatchTrace | google-ads-bi-agent/a2a/communication_layer.py:18-30 | the whole dispatch of `publish`: the loop's steps, then one gather when there are tasks (meaning given by DispatchTraceShape) |
| CommunicationLayer.EventBus.constructor | google-ads-bi-agent/a2a/communication_layer.py:6-10 | a new bus starts with an empty registry |
| CommunicationLayer.EventBus.Subscribe | google-ads-bi-agent/a2a/communication_layer.py:12-15 | the handler is appended to the topic's list, which is created when absent; every other topic's list is unchanged; no list is ever empty |
| CommunicationLayer.EventBus.Publish | google-ads-bi-agent/a2a/communication_layer.py:18-32 | the dispatch is one run per registered handler in order, then one gather of the asynchronous ones when there are any; nothing happens for an unknown topic, and on a valid bus the dispatch is empty exactly when the topic is unknown; the registry is not modified |
| CommunicationLayer.CallsAt | google-ads-bi-agent/a2a/communication_layer.py:22-27 | the i-th step of the loop runs the i-th registered handler with the published data |
| CommunicationLayer.OfKindAppend | google-ads-bi-agent/a2a/communication_layer.py:21-24 | the task list keeps registration order, since filtering by kind distributes over concatenation |
| CommunicationLayer.OfKindCount | google-ads-bi-agent/a2a/communication_layer.py:21-24 | every asynchronous handler is started as a task as often as it is registered, and no synchronous one is |
| CommunicationLayer.DispatchTraceShape | google-ads-bi-agent/a2a/communication_layer.py:18-30 | the dispatch has one step per handler plus one final gather exactly when there are tasks |
| CommunicationLayer.GatherIffAsync | google-ads-bi-agent/a2a/communication_layer.py:29-30 | the gather happens if and only if some registered handler is asynchronous |
| CommunicationLayer.RunCountCalls | google-ads-bi-agent/a2a/communication_layer.py:22-27 | the loop runs each handler exactly as many times as it is registered |
| CommunicationLayer.RunCountDispatch | google-ads-bi-agent/a2a/communication_layer.py:18-30 | the same count holds for the whole dispatch; the gather runs nothing new |
| CommunicationLayer.SubscribeTwiceRunsTwice | google-ads-bi-agent/a2a/communication_layer.py:12-15 | there is no duplicate detection: a handler subscribed twice runs two more times per publish |
| CommunicationLayer.SubscribedNonEmpty | google-ads-bi-agent/a2a/communication_layer.py:13-15 | subscribing keeps every list non-empty and grows the topic's list by one |
| Numeric.RoundHalfEven | google-ads-bi-agent/agents/google_ads_agent.py:65 | Python's `round`: the nearest integer, ties to the even one |
| Numeric.Round2 | google-ads-bi-agent/agents/google_ads_agent.py:65 | `round(x, 2)` is within half a cent of x and is a whole number of cents |
| Numeric.Round2Cents | google-ads-bi-agent/agents/bi_analytics_agent.py:101 | a value that already is a whole number of cents is unchanged by rounding |
| Numeric.Trunc | google-ads-bi-agent/agents/bi_analytics_agent.py:102 | `int(x)` truncates toward zero: it is the integer part of x on both sides of zero |
| Numeric.IntToString | google-ads-bi-agent/agents/google_ads_agent.py:59 | `str` on an integer: a minus sign for negatives, then the decimal digits (meaning given by IntToStringRoundTrip) |
| Numeric.NatToStringDigits | google-ads-bi-agent/agents/google_ads_agent.py:59 | the decimal form of a natural number is a non-empty digit string without a leading zero whose value is the number |
| Numeric.IntToStringRoundTrip | google-ads-bi-agent/agents/google_ads_agent.py:59 | `int(str(i)) == i` for every integer id |
| Numeric.IntToStringInjective | google-ads-bi-agent/agents/google_ads_agent.py:59 | different integer campaign ids give different id strings |
| Frames.ArgMax | google-ads-bi-agent/agents/bi_analytics_agent.py:96 | the index picked by `nlargest` holds the largest value and is the first one that does |
| Frames.Sum | google-ads-bi-agent/agents/bi_analytics_agent.py:101-103 | a column sum (the totals); SumNonNegative states its sign |
| Frames.Mean | google-ads-bi-agent/agents/bi_analytics_agent.py:95 | a column mean over a non-empty table: the sum divided by the number of rows |
| Frames.Select | google-ads-bi-agent/agents/bi_analytics_agent.py:97-98 | a boolean-mask selection (meaning given by SelectCount, SelectAppend and SelectSound) |
| Frames.NLargest | google-ads-bi-agent/agents/bi_analytics_agent.py:96-98 | `nlargest(n, column)` with `keep='first'`: repeatedly the first row with the largest value (meaning given by NLargestLength, NLargestDescending, NLargestDominates and NLargestIn) |
| Frames.Remove | google-ads-bi-agent/agents/bi_analytics_agent.py:96 | taking the picked row out shortens the table by one |
| Frames.RemoveCount | google-ads-bi-agent/agents/bi_analytics_agent.py:96 | taking the picked row out removes exactly one occurrence of it |
| Frames.RemoveAt | google-ads-bi-agent/agents/bi_analytics_agent.py:96 | the remaining rows keep their relative order |
| Frames.SelectCount | google-ads-bi-agent/agents/bi_analytics_agent.py:97 | a boolean mask keeps each row satisfying it as often as it occurs, and no other row |
| Frames.SelectAppend | google-ads-bi-agent/agents/bi_analytics_agent.py:97 | a boolean mask keeps table order |
| Frames.SelectSound | google-ads-bi-agent/agents/bi_analytics_agent.py:98 | every selected row satisfies the mask and comes from the table |
| Frames.NLargestLength | google-ads-bi-agent/agents/bi_analytics_agent.py:96 | `nlargest(n)` returns min(n, number of rows) rows |
| Frames.NLargestBounds | google-ads-bi-agent/agents/bi_analytics_agent.py:96 | `nlargest` returns rows of the table, each at most as often as it occurs |
| Frames.NLargestIn | google-ads-bi-agent/agents/bi_analytics_agent.py:98 | every row `nlargest` returns is a row of the table |
| Frames.NLargestBelow | google-ads-bi-agent/agents/bi_analytics_agent.py:96 | a bound on the column over the table bounds every returned row |
| Frames.NLargestDescending | google-ads-bi-agent/agents/bi_analytics_agent.py:96 | `nlargest` returns rows in descending order of the column |
| Frames.NLargestDominates | google-ads-bi-agent/agents/bi_analytics_agent.py:96 | no row left out has a larger value than a row returned |
| Frames.SumNonNegative | google-ads-bi-agent/agents/bi_analytics_agent.py:103 | a never-negative column has a non-negative sum, which is zero exactly when every value is zero |
| AdsAgent.GoogleAdsAgent.constructor | google-ads-bi-agent/agents/google_ads_agent.py:10-12 | the agent keeps the bus and subscribes `handle_command` to CMD_START_EXTRACT |
| AdsAgent.IdString | google-ads-bi-agent/agents/google_ads_agent.py:59 | `str(campaign_id)`: `None` when absent, the decimal form of an integer id, a string id unchanged (meaning given by CopiedFields) |
| AdsAgent.CostReal | google-ads-bi-agent/agents/google_ads_agent.py:54 | `cost_micros / 1_000_000` with 0 for an absent value, or the `TypeError` of `/` on `null` or a string |
| AdsAgent.Conversions | google-ads-bi-agent/agents/google_ads_agent.py:55-56 | the defaulted conversions, or the `TypeError` of `>` on `null` or a string |
| AdsAgent.NormalizeRow | google-ads-bi-agent/agents/google_ads_agent.py:54-69 | one iteration of `_process_data` (meaning given by CostIsRoundedMicros, CpaGuard, CopiedFields and NormalizeRowFails) |
| AdsAgent.ProcessRows | google-ads-bi-agent/agents/google_ads_agent.py:50-70 | `_process_data` on the whole input; the first row that raises ends it (meaning given by ProcessRowsAt) |
| AdsAgent.CommandOutcome | google-ads-bi-agent/agents/google_ads_agent.py:14-48 | the event `handle_command` publishes, given the fetch (meaning given by CommandOutcomeCases) |
| AdsAgent.GoogleAdsAgent.ProcessData | google-ads-bi-agent/agents/google_ads_agent.py:50-70 | the loop's output is the specified normalisation of the rows, or the first row's exception |
| AdsAgent.GoogleAdsAgent.HandleCommand | google-ads-bi-agent/agents/google_ads_agent.py:14-48 | the published event is the specified outcome of fetching and normalising, and its dispatch is the bus's dispatch for that topic |
| AdsAgent.ProcessRowsStopsAtFailure | google-ads-bi-agent/agents/google_ads_agent.py:53-58 | once a row raises, the rows after it do not change the outcome |
| AdsAgent.ProcessRowsAt | google-ads-bi-agent/agents/google_ads_agent.py:50-70 | normalisation succeeds if and only if every row does; then the i-th record comes from the i-th row; otherwise the error is that of the first failing row |
| AdsAgent.CostIsRoundedMicros | google-ads-bi-agent/agents/google_ads_agent.py:54-65 | the cost is `cost_micros / 1_000_000` (0 when absent), rounded to cents |
| AdsAgent.CostOfMockRow | google-ads-bi-agent/tests/test_google_ads_agent.py:25-27 | 50000000 micros is a cost of 50.0 |
| AdsAgent.CpaGuard | google-ads-bi-agent/agents/google_ads_agent.py:56 | the CPA is 0 without positive conversions, and otherwise the unrounded cost per conversion rounded to cents |
| AdsAgent.CpaUsesUnroundedCost | google-ads-bi-agent/agents/google_ads_agent.py:54-65 | the CPA is computed from the cost before the cost is rounded, so it can differ from the published cost divided by the conversions |
| AdsAgent.CopiedFields | google-ads-bi-agent/agents/google_ads_agent.py:58-69 | the id is `str(campaign_id)` (and an integer id can be read back from it); name, status, clicks and impressions are copied; conversions default to 0 |
| AdsAgent.NormalizeRowFails | google-ads-bi-agent/agents/google_ads_agent.py:54-56 | a row fails exactly when its cost or conversions is `null` or a string, with the `TypeError` of the division checked first |
| AdsAgent.CommandOutcomeCases | google-ads-bi-agent/agents/google_ads_agent.py:14-48 | DATA_FETCHED with exactly the normalised rows if and only if the fetch and every row succeed, and otherwise ERROR from ADS_AGENT whose message is the fetch's error, or else the error of the row normalisation (the first failing row's) |
| BiAgent.BIAnalyticsAgent.constructor | google-ads-bi-agent/agents/bi_analytics_agent.py:30-55 | the agent keeps the bus and subscribes `handle_data` to DATA_FETCHED |
| BiAgent.BuildFrame | google-ads-bi-agent/agents/bi_analytics_agent.py:76 | the table: one row per campaign, its metrics merged with name, id and status |
| BiAgent.RowCpa | google-ads-bi-agent/agents/bi_analytics_agent.py:91 | the per-row CPA: cost / conversions when conversions are positive, otherwise 0 |
| BiAgent.WithCpa | google-ads-bi-agent/agents/bi_analytics_agent.py:91 | the table with its CPA column recomputed (meaning given by WithCpaAt and WithCpaSums) |
| BiAgent.Threshold | google-ads-bi-agent/agents/bi_analytics_agent.py:95 | 1.5 times the mean CPA |
| BiAgent.TopRows | google-ads-bi-agent/agents/bi_analytics_agent.py:96 | the rows of `nlargest(3, 'conversions')` (meaning given by TopCampaigns) |
| BiAgent.InefficientRows | google-ads-bi-agent/agents/bi_analytics_agent.py:97 | the rows with CPA above the threshold and positive conversions (meaning given by InefficientCampaigns) |
| BiAgent.WastefulRows | google-ads-bi-agent/agents/bi_analytics_agent.py:98 | `nlargest(3, 'cost')` over the rows with no conversions and positive cost (meaning given by WastefulSpendRows) |
| BiAgent.Stats | google-ads-bi-agent/agents/bi_analytics_agent.py:100-107 | the dictionary `_calculate_hard_metrics` returns, over the table with its CPA recomputed |
| BiAgent.HardMetricsOf | google-ads-bi-agent/agents/bi_analytics_agent.py:88-107 | `_calculate_hard_metrics` on the table as passed in (meaning given by Totals, TopCampaigns, InefficientCampaigns and WastefulSpendRows) |
| BiAgent.ReportOutcome | google-ads-bi-agent/agents/bi_analytics_agent.py:68-86 | what `generate_performance_report` returns or raises: the no-data report for empty input, otherwise statistics and strategy |
| BiAgent.DataOutcome | google-ads-bi-agent/agents/bi_analytics_agent.py:57-66 | the event `handle_data` publishes (meaning given by EmptyDataIsReported and DataOutcomeCases) |
| BiAgent.BIAnalyticsAgent.CalculateHardMetrics | google-ads-bi-agent/agents/bi_analytics_agent.py:88-107 | the caller's table has its CPA column recomputed in place, and the result is the specified statistics of the table |
| BiAgent.BIAnalyticsAgent.GeneratePerformanceReport | google-ads-bi-agent/agents/bi_analytics_agent.py:68-86 | empty input gives the no-data report; otherwise the statistics of the table and the strategy, or the exception's message |
| BiAgent.BIAnalyticsAgent.HandleData | google-ads-bi-agent/agents/bi_analytics_agent.py:57-66 | the published event is REPORT_READY with the report or ERROR from BI_AGENT, and its dispatch is the bus's dispatch for that topic |
| BiAgent.WithCpaAt | google-ads-bi-agent/agents/bi_analytics_agent.py:91 | each row's CPA becomes cost / conversions when conversions are positive and 0 otherwise; no other column changes |
| BiAgent.HardMetricsIgnoreIncomingCpa | google-ads-bi-agent/agents/bi_analytics_agent.py:91 | the statistics do not depend on the CPA column the table arrives with |
| BiAgent.Totals | google-ads-bi-agent/agents/bi_analytics_agent.py:100-103 | total spend is the cost sum rounded to cents, total conversions the truncated sum, and the global CPA is 0 unless the conversion sum is positive |
| BiAgent.WithCpaSums | google-ads-bi-agent/agents/bi_analytics_agent.py:91-103 | recomputing the CPA column leaves the cost and conversion sums unchanged |
| BiAgent.ConversionGuard | google-ads-bi-agent/agents/bi_analytics_agent.py:103 | with conversions never negative, the global CPA's guard `sum > 0` holds exactly when some campaign has a conversion |
| BiAgent.TopRowsOrdered | google-ads-bi-agent/agents/bi_analytics_agent.py:96 | the top rows are in descending order of conversions |
| BiAgent.TopRowsDominate | google-ads-bi-agent/agents/bi_analytics_agent.py:96 | no row left out of the top rows has more conversions than one listed |
| BiAgent.TopCampaigns | google-ads-bi-agent/agents/bi_analytics_agent.py:96 | `top_campaigns` is the records of the min(3, n) rows `nlargest` keeps, ordered by conversions, none with fewer conversions than a row left out |
| BiAgent.InefficientCampaigns | google-ads-bi-agent/agents/bi_analytics_agent.py:95-97 | `inefficient_campaigns` holds exactly the rows with conversions and a CPA above 1.5 times the mean CPA, each as often as in the table, in table order |
| BiAgent.WastefulRowsSound | google-ads-bi-agent/agents/bi_analytics_agent.py:98 | at most 3 wasteful rows, each a table row with no conversions and a positive cost |
| BiAgent.WastefulRecordsOrdered | google-ads-bi-agent/agents/bi_analytics_agent.py:98 | the wasteful records are in descending order of cost |
| BiAgent.WastefulRowsLargest | google-ads-bi-agent/agents/bi_analytics_agent.py:98 | min(3, candidates) rows are listed, and no candidate left out costs more than a listed row |
| BiAgent.WastefulSpendRows | google-ads-bi-agent/agents/bi_analytics_agent.py:98 | `wasteful_spend` is the records of the min(3, candidates) costliest rows among those with no conversions and a positive cost, in descending order of cost, with no candidate left out costing more than a listed one |
| BiAgent.TestHardMetrics | google-ads-bi-agent/tests/test_bi_analytics_agent.py:33-37 | the two-campaign table gives spend 150.0, 5 conversions, global CPA 30.0, and Campaign B as the only wasteful campaign |
| BiAgent.EmptyDataIsReported | google-ads-bi-agent/agents/bi_analytics_agent.py:72-73 | an empty payload is published as REPORT_READY with the no-data text, not as ERROR |
| BiAgent.DataOutcomeCases | google-ads-bi-agent/agents/bi_analytics_agent.py:57-66 | REPORT_READY if and only if the input is empty or the strategy step succeeds, with the statistics and strategy as the report; otherwise ERROR from BI_AGENT with the message |
| Pipeline.Wired | google-ads-bi-agent/agents/bi_analytics_agent.py:55 | after both agents subscribe to a fresh bus, the registry has exactly the two agents' topics |
| Pipeline.WiredDispatch | google-ads-bi-agent/a2a/communication_layer.py:18-30 | on that bus the start command runs only the ads agent's task, the campaign data only the analytics agent's task, and REPORT_READY runs nothing |

## Left out

- A synchronous handler that raises ends `publish` at once: the handlers after it are neither run nor started, and the tasks already created are never gathered. `Publish` and the lemmas about its run counts (CallsAt, RunCountCalls, RunCountDispatch) describe a dispatch in which no synchronous handler raises; every handler the agents subscribe is asynchronous.
- Asynchronous scheduling is not modelled.
  - `Publish` returns the dispatch it performs (which handler is run or started, and when the gather happens) rather than executing the handlers.
  - Interleaving, `asyncio.sleep`, and the handlers' effects during the dispatch are not modelled.
  - Exception propagation through `asyncio.gather` is not modelled. One consequence: a failure of a `DATA_FETCHED` subscriber would reach `handle_command`'s `except`.
- The process-wide singleton in `EventBus.__new__` is not modelled. The constructor gives a fresh bus, and the agents share the one bus object passed to them.
- Console output, `traceback.print_exc` and the payload-size diagnostic are left out; they have no effect on state.
- How a handler is recognised as asynchronous (`asyncio.iscoroutinefunction`) is a tag on the handler.
- The campaign-data fetch is left out, because it is I/O. It covers the tool import with its path fallback, the 0.5 s latency, the tool itself and `json.loads`. It is a function parameter.
- `_generate_ai_insights` and the language-model chain are left out, because they are a network call. The step is a function parameter.
- The `ctr_percent` column is not modelled because no statistic uses it. An exception it could raise on non-numeric clicks or impressions is not modelled.
- Numbers are exact reals. Binary floating point is not modelled, nor is the distinction between JSON integers and floats, nor JSON booleans or float campaign ids.
  - A numeric `cost_micros` or `conversions` never fails, so the type name `int` in a modelled `TypeError` message only appears for `null` and strings.
  - The integer `0` that the CPA lambda and `global_cpa` give is the real `0.0`.
- The table is built from the records the ads agent publishes. A `KeyError` from a foreign payload missing `metrics`, `name`, `id` or `status` is not modelled.
- Mixed-type pandas columns are not modelled.
- BiAgent.HardMetricsOf requires a non-empty table: the source only computes statistics after the empty-input guard, so the empty table's NaN mean is never reached.
- The mean CPA threshold includes the rows whose CPA is 0 for lack of conversions, as the code does. It is modelled, not corrected.
- The code has no completion gate and no timeout for the orchestrator to await, so neither is modelled.
- `orchestrator.py`, `main.py`, `my_mcp/` and `utils/` are not part of this model.
