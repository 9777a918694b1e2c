/**
 * The in-process event bus: a topic registry (topic -> ordered handler list)
 * and a dispatcher that runs synchronous handlers inline and starts
 * asynchronous ones as tasks that are awaited together after the loop.
 *
 * A handler is identified by name and tagged with its kind. `Publish` returns
 * the dispatch it performs as a trace of steps: one `Run` per registered
 * handler, in registration order (an inline call for a `Sync` handler, the
 * creation of a task for an `Async` one), followed by one `Gather` of all the
 * tasks when there is at least one.
 */
module CommunicationLayer {

  type Topic = string

  datatype Handler = Sync(id: string) | Async(id: string)

  datatype Step<D> =
    | Run(handler: Handler, data: D)
    | Gather(tasks: seq<Handler>)

  // ---------------------------------------------------------------------------
  // Specification of the registry.

  /** The handler list of `t`, or the empty list when `t` was never subscribed to. */
  function HandlersFor(m: map<Topic, seq<Handler>>, t: Topic): seq<Handler> {
    if t in m then m[t] else []
  }

  /** The registry after `subscribe(t, h)`. */
  function Subscribed(m: map<Topic, seq<Handler>>, t: Topic, h: Handler): (m': map<Topic, seq<Handler>>)
    ensures m'.Keys == m.Keys + {t}
  {
    m[t := HandlersFor(m, t) + [h]]
  }

  /** Every topic present has at least one handler. */
  ghost predicate NonEmptyLists(m: map<Topic, seq<Handler>>) {
    forall t :: t in m ==> |m[t]| > 0
  }

  // ---------------------------------------------------------------------------
  // Specification of the dispatcher.

  /** The handlers of kind `async` (true) or sync (false), in registration order. */
  function OfKind(hs: seq<Handler>, async: bool): seq<Handler> {
    if hs == [] then []
    else
      var last := hs[|hs| - 1];
      OfKind(hs[..|hs| - 1], async) + (if last.Async? == async then [last] else [])
  }

  /** The `tasks` list `publish` builds: the asynchronous handlers, in order. */
  function Tasks(hs: seq<Handler>): seq<Handler> {
    OfKind(hs, true)
  }

  /** The steps of the dispatch loop over `hs`. */
  function Calls<D>(hs: seq<Handler>, data: D): seq<Step<D>> {
    if hs == [] then [] else Calls(hs[..|hs| - 1], data) + [Run(hs[|hs| - 1], data)]
  }

  /** The whole dispatch of `publish` to a topic whose handler list is `hs`. */
  function DispatchTrace<D>(hs: seq<Handler>, data: D): seq<Step<D>> {
    Calls(hs, data) + (if Tasks(hs) == [] then [] else [Gather(Tasks(hs))])
  }

  /** How many times `h` is run (called inline or started as a task) in `trace`. */
  function RunCount<D>(trace: seq<Step<D>>, h: Handler): nat {
    if trace == [] then 0
    else RunCount(trace[..|trace| - 1], h) + (if trace[|trace| - 1].Run? && trace[|trace| - 1].handler == h then 1 else 0)
  }

  // ---------------------------------------------------------------------------
  // The bus.

  class EventBus<D> {
    var subscribers: map<Topic, seq<Handler>>

    ghost predicate Valid()
      reads this
    {
      NonEmptyLists(subscribers)
    }

    constructor ()
      ensures Valid() && subscribers == map[]
    {
      subscribers := map[];
    }

    /** `subscribe(topic, func)`: append `h` to the topic's list, creating it if absent. */
    method Subscribe(topic: Topic, h: Handler)
      requires Valid()
      modifies this
      ensures Valid()
      ensures subscribers == Subscribed(old(subscribers), topic, h)
      ensures subscribers[topic] == HandlersFor(old(subscribers), topic) + [h]
      ensures forall t :: t != topic ==> HandlersFor(subscribers, t) == HandlersFor(old(subscribers), t)
    {
      if topic !in subscribers {
        subscribers := subscribers[topic := []];
      }
      subscribers := subscribers[topic := subscribers[topic] + [h]];
    }

    /**
     * `publish(topic, data)`: nothing for an unknown topic; otherwise every
     * handler in registration order, then one gather of the started tasks if
     * there are any. The registry is not modified. On a valid bus the
     * dispatch is empty exactly when nobody subscribed to the topic.
     */
    method Publish(topic: Topic, data: D) returns (trace: seq<Step<D>>)
      ensures trace == DispatchTrace(HandlersFor(subscribers, topic), data)
      ensures topic !in subscribers ==> trace == []
      ensures Valid() ==> (trace == [] <==> topic !in subscribers)
    {
      trace := [];
      if topic in subscribers {
        var handlers := subscribers[topic];
        var tasks: seq<Handler> := [];
        var i := 0;
        while i < |handlers|
          invariant 0 <= i <= |handlers|
          invariant trace == Calls(handlers[..i], data)
          invariant tasks == Tasks(handlers[..i])
        {
          var h := handlers[i];
          assert handlers[..i + 1][..i] == handlers[..i];
          if h.Async? {
            tasks := tasks + [h];
          }
          trace := trace + [Run(h, data)];
          i := i + 1;
        }
        assert handlers[..i] == handlers;
        if |tasks| > 0 {
          trace := trace + [Gather(tasks)];
        }
      }
    }
  }

  // ---------------------------------------------------------------------------
  // Properties of the specification.

  /** The dispatch loop runs the i-th registered handler at step i, always with the published data. */
  lemma {:induction false} CallsAt<D>(hs: seq<Handler>, data: D)
    ensures |Calls(hs, data)| == |hs|
    ensures forall i :: 0 <= i < |hs| ==> Calls(hs, data)[i] == Run(hs[i], data)
  {
    if hs != [] {
      CallsAt(hs[..|hs| - 1], data);
    }
  }

  /** Filtering by kind distributes over concatenation, so it keeps registration order. */
  lemma {:induction false} OfKindAppend(a: seq<Handler>, b: seq<Handler>, async: bool)
    ensures OfKind(a + b, async) == OfKind(a, async) + OfKind(b, async)
    decreases |b|
  {
    if b == [] {
      assert a + b == a;
    } else {
      var b' := b[..|b| - 1];
      assert (a + b)[..|a + b| - 1] == a + b';
      OfKindAppend(a, b', async);
    }
  }

  /** Each handler of the kind occurs in the filtered list as often as it is registered; others not at all. */
  lemma {:induction false} OfKindCount(hs: seq<Handler>, async: bool, h: Handler)
    ensures multiset(OfKind(hs, async))[h] == if h.Async? == async then multiset(hs)[h] else 0
  {
    if hs != [] {
      var init := hs[..|hs| - 1];
      OfKindCount(init, async, h);
      assert hs == init + [hs[|hs| - 1]];
    }
  }

  /**
   * Shape of a dispatch: one `Run` per registered handler, in order and with the
   * same data; then a single final `Gather` of the asynchronous handlers exactly
   * when there is one, and no await otherwise.
   */
  lemma DispatchTraceShape<D>(hs: seq<Handler>, data: D)
    ensures var trace := DispatchTrace(hs, data);
      && |trace| == |hs| + (if Tasks(hs) == [] then 0 else 1)
      && (forall i :: 0 <= i < |hs| ==> trace[i] == Run(hs[i], data))
      && (Tasks(hs) != [] ==> trace[|hs|] == Gather(Tasks(hs)))
  {
    CallsAt(hs, data);
  }

  /** A gather happens exactly when some registered handler is asynchronous. */
  lemma {:induction false} GatherIffAsync(hs: seq<Handler>)
    ensures Tasks(hs) != [] <==> exists i :: 0 <= i < |hs| && hs[i].Async?
  {
    if hs != [] {
      var init := hs[..|hs| - 1];
      GatherIffAsync(init);
      if Tasks(init) != [] {
        var i :| 0 <= i < |init| && init[i].Async?;
        assert hs[i].Async?;
      }
      if hs[|hs| - 1].Async? {
        assert Tasks(hs) != [];
      }
      if exists i :: 0 <= i < |hs| && hs[i].Async? {
        var i :| 0 <= i < |hs| && hs[i].Async?;
        if i < |init| {
          assert init[i].Async?;
        }
      }
    }
  }

  /** Every registered handler is run exactly as many times as it occurs in the list. */
  lemma {:induction false} RunCountCalls<D>(hs: seq<Handler>, data: D, h: Handler)
    ensures RunCount(Calls(hs, data), h) == multiset(hs)[h]
  {
    if hs != [] {
      var init := hs[..|hs| - 1];
      RunCountCalls(init, data, h);
      assert Calls(hs, data)[..|Calls(hs, data)| - 1] == Calls(init, data);
      assert hs == init + [hs[|hs| - 1]];
    }
  }

  /** The same as RunCountCalls for the whole dispatch: the gather runs nothing new. */
  lemma RunCountDispatch<D>(hs: seq<Handler>, data: D, h: Handler)
    ensures RunCount(DispatchTrace(hs, data), h) == multiset(hs)[h]
  {
    RunCountCalls(hs, data, h);
    var trace := DispatchTrace(hs, data);
    if Tasks(hs) != [] {
      assert trace[..|trace| - 1] == Calls(hs, data);
    } else {
      assert trace == Calls(hs, data);
    }
  }

  /**
   * No duplicate detection: subscribing the same handler twice makes every
   * later publish on that topic run it two more times.
   */
  lemma SubscribeTwiceRunsTwice<D>(m: map<Topic, seq<Handler>>, t: Topic, h: Handler, data: D)
    ensures HandlersFor(Subscribed(Subscribed(m, t, h), t, h), t) == HandlersFor(m, t) + [h, h]
    ensures RunCount(DispatchTrace(HandlersFor(Subscribed(Subscribed(m, t, h), t, h), t), data), h)
         == RunCount(DispatchTrace(HandlersFor(m, t), data), h) + 2
  {
    var hs := HandlersFor(m, t);
    var hs2 := HandlersFor(Subscribed(Subscribed(m, t, h), t, h), t);
    assert hs2 == hs + [h] + [h];
    RunCountDispatch(hs, data, h);
    RunCountDispatch(hs2, data, h);
  }

  /** Subscribing never creates an empty list, so the registry invariant is preserved. */
  lemma SubscribedNonEmpty(m: map<Topic, seq<Handler>>, t: Topic, h: Handler)
    requires NonEmptyLists(m)
    ensures NonEmptyLists(Subscribed(m, t, h))
    ensures |HandlersFor(Subscribed(m, t, h), t)| == |HandlersFor(m, t)| + 1
  {
  }
}
