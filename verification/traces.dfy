/** The adapter over time: the host delivers object and state changes one
    after another, and each handler runs to completion before the next. */
module Traces {
  import opened Wrappers
  import opened Normalizer
  import opened Transport
  import opened AdapterState
  import opened Subscriptions
  import opened Instruments
  import opened Handlers
  import opened Lifecycle

  /** An event the host delivers. An object change carries the adapter's
      block of the changed object and what reading the datapoint's state
      returns at that moment. */
  datatype Event =
    | ObjectChanged(id: string, block: Option<CustomBlock>, fetched: Option<IobState>)
    | StateChanged(id: string, state: Option<IobState>)

  function Handle(cfg: Config, parseFloat: ParseFloat, a: Adapter, ev: Event): (r: Step)
    requires Inv(a)
    ensures Inv(r.next)
  {
    match ev
    case ObjectChanged(id, block, fetched) => OnObjectChange(cfg, parseFloat, a, id, block, fetched)
    case StateChanged(id, state) => OnStateChange(parseFloat, a, id, state)
  }

  /** The events handled in order; the effects of each follow those of the
      one before. */
  function Run(cfg: Config, parseFloat: ParseFloat, a: Adapter, events: seq<Event>): (r: Step)
    requires Inv(a)
    ensures Inv(r.next)
    decreases |events|
  {
    if |events| == 0 then Step(a, [])
    else
      var h := Handle(cfg, parseFloat, a, events[0]);
      var t := Run(cfg, parseFloat, h.next, events[1..]);
      Step(t.next, h.effects + t.effects)
  }

  /** A running adapter stays running whatever events arrive. */
  lemma {:induction false} RunKeepsRunning(cfg: Config, parseFloat: ParseFloat, a: Adapter, events: seq<Event>)
    requires Running(a)
    ensures Running(Run(cfg, parseFloat, a, events).next)
    decreases |events|
  {
    if |events| > 0 {
      var ev := events[0];
      if ev.ObjectChanged? {
        ObjectChangeKeepsRunning(cfg, parseFloat, a, ev.id, ev.block, ev.fetched);
      }
      RunKeepsRunning(cfg, parseFloat, Handle(cfg, parseFloat, a, ev).next, events[1..]);
    }
  }

  /** Once on, wildcard mode stays on, and no state is subscribed or
      unsubscribed individually any more. */
  lemma {:induction false} RunKeepsWildcard(cfg: Config, parseFloat: ParseFloat, a: Adapter, events: seq<Event>)
    requires Inv(a) && a.subscribeAll
    ensures var r := Run(cfg, parseFloat, a, events);
            r.next.subscribeAll && NoStateSubscriptionCalls(r.effects)
    decreases |events|
  {
    if |events| > 0 {
      var ev := events[0];
      var h := Handle(cfg, parseFloat, a, ev);
      if ev.ObjectChanged? {
        ObjectChangeKeepsWildcard(cfg, parseFloat, a, ev.id, ev.block, ev.fetched);
      }
      RunKeepsWildcard(cfg, parseFloat, h.next, events[1..]);
      var t := Run(cfg, parseFloat, h.next, events[1..]);
      assert NoStateSubscriptionCalls(h.effects + t.effects);
    }
  }

  /** Whatever events arrive, the host's individual state subscriptions
      stay exactly what the registry calls for. */
  lemma {:induction false} RunKeepsSubscriptionsInSync(cfg: Config, parseFloat: ParseFloat, a: Adapter,
                                                       events: seq<Event>, net: set<string>)
    requires Inv(a) && InSync(a, net)
    ensures var r := Run(cfg, parseFloat, a, events);
            InSync(r.next, Subscribed(net, r.effects))
    decreases |events|
  {
    if |events| > 0 {
      var ev := events[0];
      var h := Handle(cfg, parseFloat, a, ev);
      if ev.ObjectChanged? {
        ObjectChangeKeepsSubscriptionsInSync(cfg, parseFloat, a, ev.id, ev.block, ev.fetched, net);
      } else {
        SubscribedIgnoresOtherCalls(net, h.effects);
      }
      RunKeepsSubscriptionsInSync(cfg, parseFloat, h.next, events[1..], Subscribed(net, h.effects));
      var t := Run(cfg, parseFloat, h.next, events[1..]);
      SubscribedAppend(net, h.effects, t.effects);
    }
  }

  /** State changes alone never change the adapter. */
  lemma {:induction false} StateChangesLeaveAdapterAlone(parseFloat: ParseFloat, cfg: Config, a: Adapter, events: seq<Event>)
    requires Inv(a)
    requires forall i :: 0 <= i < |events| ==> events[i].StateChanged?
    ensures Run(cfg, parseFloat, a, events).next == a
    decreases |events|
  {
    if |events| > 0 {
      StateChangesLeaveAdapterAlone(parseFloat, cfg, a, events[1..]);
    }
  }

  /** From a successful start through any events: the adapter is running,
      and the host's individual state subscriptions, counted from the very
      first call, are exactly what the registry calls for. */
  lemma StartThenRun(cfg: Config, parseFloat: ParseFloat, doc: Option<seq<Row>>, probeAccepted: bool, events: seq<Event>)
    requires Configured(cfg) && KnownSubProtocol(cfg.otlProtocol.value) && probeAccepted
    ensures var s := Startup(cfg, doc, probeAccepted);
            var r := Run(cfg, parseFloat, s.next, events);
            && Running(r.next)
            && InSync(r.next, Subscribed({}, s.effects + r.effects))
  {
    var s := Startup(cfg, doc, probeAccepted);
    StartupRuns(cfg, doc, probeAccepted);
    RunKeepsRunning(cfg, parseFloat, s.next, events);
    RunKeepsSubscriptionsInSync(cfg, parseFloat, s.next, events, Subscribed({}, s.effects));
    SubscribedAppend({}, s.effects, Run(cfg, parseFloat, s.next, events).effects);
  }
}
