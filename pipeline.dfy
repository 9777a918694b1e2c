/**
 * How the two agents' subscriptions combine on one bus: once both are
 * constructed, publishing the start command runs the ads agent's handler and
 * publishing DATA_FETCHED runs the analytics agent's handler, each as a task
 * that is then awaited.
 */
module Pipeline {
  import opened Messages
  import opened CommunicationLayer
  import AdsAgent
  import BiAgent

  /** The registry of a fresh bus after the ads agent and then the analytics agent subscribe. */
  function Wired(): (m: map<Topic, seq<Handler>>)
    ensures m.Keys == {StartExtract, DataFetched}
  {
    Subscribed(Subscribed(map[], StartExtract, AdsAgent.CommandHandler), DataFetched, BiAgent.DataHandler)
  }

  /**
   * On the wired bus the start command reaches only the ads agent, the
   * campaign data only the analytics agent, and the report nobody.
   */
  lemma WiredDispatch(payload: Payload)
    ensures DispatchTrace(HandlersFor(Wired(), StartExtract), payload)
         == [Run(AdsAgent.CommandHandler, payload), Gather([AdsAgent.CommandHandler])]
    ensures DispatchTrace(HandlersFor(Wired(), DataFetched), payload)
         == [Run(BiAgent.DataHandler, payload), Gather([BiAgent.DataHandler])]
    ensures DispatchTrace(HandlersFor(Wired(), ReportReady), payload) == []
  {
    var start := [AdsAgent.CommandHandler];
    var data := [BiAgent.DataHandler];
    assert HandlersFor(Wired(), StartExtract) == start;
    assert HandlersFor(Wired(), DataFetched) == data;
    assert start[..0] == [] && data[..0] == [];
    assert start[|start| - 1] == AdsAgent.CommandHandler && AdsAgent.CommandHandler.Async?;
    assert OfKind(start, true) == OfKind(start[..0], true) + [AdsAgent.CommandHandler];
    assert Tasks(start) == start && Calls(start, payload) == [Run(AdsAgent.CommandHandler, payload)];
    assert Tasks(data) == data && Calls(data, payload) == [Run(BiAgent.DataHandler, payload)];
  }
}
