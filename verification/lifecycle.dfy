/** The connection indicator and the adapter's start (onReady). */
module Lifecycle {
  import opened Wrappers
  import opened Transport
  import opened AdapterState
  import opened Subscriptions
  import opened Instruments
  import opened Handlers

  // ---------------------------------------------------------------------
  // Connection indicator

  /** setConnected: the flag takes the new value, and `info.connection` is
      written only when the value actually changes. */
  function SetConnected(a: Adapter, isConnected: bool): (r: Step)
    ensures r.next == a.(connected := isConnected)
    ensures r.effects != [] <==> a.connected != isConnected
    ensures r.effects != [] ==> r.effects == [SetState(ConnectionStateId, isConnected)]
  {
    if a.connected != isConnected then Step(a.(connected := isConnected), [SetState(ConnectionStateId, isConnected)])
    else Step(a, [])
  }

  /** The value `info.connection` shows after `effects`, starting from
      `shown`: the last write to it wins. */
  function Indicator(shown: bool, effects: seq<Effect>): bool
    decreases |effects|
  {
    if |effects| == 0 then shown
    else
      var e := effects[|effects| - 1];
      if e.SetState? && e.id == ConnectionStateId then e.stateValue
      else Indicator(shown, effects[..|effects| - 1])
  }

  lemma {:induction false} IndicatorAppend(shown: bool, e1: seq<Effect>, e2: seq<Effect>)
    ensures Indicator(shown, e1 + e2) == Indicator(Indicator(shown, e1), e2)
    decreases |e2|
  {
    if |e2| == 0 {
      assert e1 + e2 == e1;
    } else {
      assert (e1 + e2)[|e1 + e2| - 1] == e2[|e2| - 1];
      assert (e1 + e2)[..|e1 + e2| - 1] == e1 + e2[..|e2| - 1];
      IndicatorAppend(shown, e1, e2[..|e2| - 1]);
    }
  }

  /** Effects that write no state leave the indicator alone. */
  lemma {:induction false} IndicatorIgnoresOtherCalls(shown: bool, effects: seq<Effect>)
    requires NoStateWrites(effects)
    ensures Indicator(shown, effects) == shown
    decreases |effects|
  {
    if |effects| > 0 {
      IndicatorIgnoresOtherCalls(shown, effects[..|effects| - 1]);
    }
  }

  /** The indicator keeps showing the adapter's flag: if it did before
      setConnected, it does after. */
  lemma SetConnectedKeepsIndicator(a: Adapter, isConnected: bool, shown: bool)
    requires shown == a.connected
    ensures var r := SetConnected(a, isConnected);
            Indicator(shown, r.effects) == r.next.connected == isConnected
  {
    var r := SetConnected(a, isConnected);
    if r.effects != [] {
      assert r.effects[..0] == [];
    }
  }

  /** A second setConnected with the same value writes nothing and changes
      nothing. */
  lemma SetConnectedIdempotent(a: Adapter, isConnected: bool)
    ensures var r := SetConnected(a, isConnected);
            SetConnected(r.next, isConnected) == Step(r.next, [])
  {
  }

  // ---------------------------------------------------------------------
  // Start

  /** The four connection settings are all present in the configuration. */
  predicate Configured(cfg: Config) {
    cfg.protocol.Some? && cfg.otlProtocol.Some? && cfg.host.Some? && cfg.port.Some?
  }

  function SettingsOf(cfg: Config): Settings
    requires Configured(cfg)
  {
    Settings(cfg.protocol.value, cfg.otlProtocol.value, cfg.host.value, cfg.port.value)
  }

  /** The first part of onReady: the indicator is cleared, the settings
      are taken over, and the indicator then shows whether the connection
      is usable. */
  function Connect(cfg: Config, probeAccepted: bool): (r: Step)
    requires Configured(cfg)
    ensures r.next == Init().(settings := SettingsOf(cfg), connected := r.next.connected)
    ensures r.next.connected <==> KnownSubProtocol(cfg.otlProtocol.value) && probeAccepted
    ensures r.effects == if r.next.connected then [SetState(ConnectionStateId, true)] else []
  {
    var c0 := SetConnected(Init(), false);
    var a := c0.next.(settings := SettingsOf(cfg));
    var probe := CreateEndpointAndExporter(a.settings, cfg.headers);
    var c1 := SetConnected(a, probe.endpoint.Some? && probe.exporter.Some? && probeAccepted);
    Step(c1.next, c0.effects + c1.effects)
  }

  /** onReady, from the freshly constructed adapter. `doc` is the host's
      custom-object view and `probeAccepted` whether the collector accepted
      the empty test export (only asked when an exporter exists). */
  function Startup(cfg: Config, doc: Option<seq<Row>>, probeAccepted: bool): (r: Step)
  {
    if !Configured(cfg) then SetConnected(Init(), false)
    else
      var c := Connect(cfg, probeAccepted);
      if !c.next.connected then c
      else
        var exporter := CreateEndpointAndExporter(c.next.settings, cfg.headers).exporter;
        if exporter.None? then c
        else
          var l := Launch(cfg, c.next, doc, exporter.value);
          Step(l.next, c.effects + l.effects)
  }


  /** The tail of onReady once the probe succeeded: load the registry,
      build the pipeline and its gauges, subscribe to the tracked states
      and then to every object change. */
  function Launch(cfg: Config, a: Adapter, doc: Option<seq<Row>>, exporter: Exporter): (r: Step)
    requires Inv(a)
    ensures Inv(r.next)
  {
    var loaded := LoadCustomEntities(a, doc);
    var p := CreateMeter(cfg, loaded, exporter);
    var s := SubscribeToStates(CreateMetricInstruments(p.next));
    Step(s.next, p.effects + s.effects + [SubscribeObjects(Wildcard)])
  }

  /** The pipeline part of the launch: after loading, creating the meter
      and the gauges, the adapter runs on a new pipeline generation. */
  lemma {:induction false} LaunchedPipelineRuns(cfg: Config, a: Adapter, doc: Option<seq<Row>>, exporter: Exporter)
    requires Inv(a) && KnownSubProtocol(a.settings.otlProtocol)
    requires a.tracked.values == map[] && a.instruments == map[]
    ensures var m := CreateMetricInstruments(CreateMeter(cfg, LoadCustomEntities(a, doc), exporter).next);
            && Running(m) && m.pipelines == a.pipelines + 1
            && m == a.(tracked := m.tracked, instruments := m.instruments, meterProvider := m.meterProvider,
                       meter := m.meter, pipelines := m.pipelines)
            && m.tracked.values.Keys == (if doc.Some? then EnabledIds(doc.value) else {})
  {
    var loaded := LoadCustomEntities(a, doc);
    var p := CreateMeter(cfg, loaded, exporter);
    var m := CreateMetricInstruments(p.next);
    assert p.next.instruments == map[];
    assert m.instruments.Keys == m.tracked.values.Keys;
    assert GaugesCurrent(m);
  }

  /** Whether state subscriptions are per id or by wildcard has no bearing
      on the pipeline. */
  lemma RunningIgnoresSubscribeAll(a: Adapter, subscribeAll: bool)
    requires Running(a)
    ensures Running(a.(subscribeAll := subscribeAll))
  {
    var b := a.(subscribeAll := subscribeAll);
    assert b.tracked == a.tracked && b.instruments == a.instruments && b.meter == a.meter;
  }

  /** Launched from an empty registry, the adapter runs on the next
      pipeline generation with exactly the enabled ids of the view tracked. */
  lemma LaunchState(cfg: Config, a: Adapter, doc: Option<seq<Row>>, exporter: Exporter)
    requires Inv(a) && KnownSubProtocol(a.settings.otlProtocol)
    requires a.tracked.values == map[] && a.instruments == map[] && !a.subscribeAll
    ensures var r := Launch(cfg, a, doc, exporter);
            && Running(r.next) && r.next.pipelines == a.pipelines + 1
            && r.next.connected == a.connected && r.next.settings == a.settings
            && r.next.tracked.values.Keys == (if doc.Some? then EnabledIds(doc.value) else {})
  {
    var p := CreateMeter(cfg, LoadCustomEntities(a, doc), exporter);
    var m := CreateMetricInstruments(p.next);
    LaunchedPipelineRuns(cfg, a, doc, exporter);
    var s := SubscribeToStates(m);
    RunningIgnoresSubscribeAll(m, s.next.subscribeAll);
  }

  /** The launch writes no state, leaves the host subscribed to exactly
      what the registry calls for, and subscribes to object changes last. */
  lemma LaunchEffects(cfg: Config, a: Adapter, doc: Option<seq<Row>>, exporter: Exporter)
    requires Inv(a) && !a.subscribeAll
    ensures var r := Launch(cfg, a, doc, exporter);
            && InSync(r.next, Subscribed({}, r.effects))
            && NoStateWrites(r.effects)
            && r.effects[|r.effects| - 1] == SubscribeObjects(Wildcard)
  {
    LaunchSubscriptions(cfg, a, doc, exporter);
    LaunchWritesNoState(cfg, a, doc, exporter);
  }

  lemma LaunchSubscriptions(cfg: Config, a: Adapter, doc: Option<seq<Row>>, exporter: Exporter)
    requires Inv(a) && !a.subscribeAll
    ensures var r := Launch(cfg, a, doc, exporter);
            InSync(r.next, Subscribed({}, r.effects))
  {
    var p := CreateMeter(cfg, LoadCustomEntities(a, doc), exporter);
    var s := SubscribeToStates(CreateMetricInstruments(p.next));
    SubscribedAround({}, p.effects, s.effects, [SubscribeObjects(Wildcard)]);
  }

  lemma LaunchWritesNoState(cfg: Config, a: Adapter, doc: Option<seq<Row>>, exporter: Exporter)
    requires Inv(a)
    ensures var r := Launch(cfg, a, doc, exporter);
            NoStateWrites(r.effects) && r.effects[|r.effects| - 1] == SubscribeObjects(Wildcard)
  {
    var p := CreateMeter(cfg, LoadCustomEntities(a, doc), exporter);
    var s := SubscribeToStates(CreateMetricInstruments(p.next));
    OnlySubscriptionsBetween(p.effects[0], s.effects, SubscribeObjects(Wildcard));
  }

  lemma OnlySubscriptionsBetween(first: Effect, mid: seq<Effect>, last: Effect)
    requires !first.SetState? && !last.SetState?
    requires forall i :: 0 <= i < |mid| ==> mid[i].SubscribeStates?
    ensures NoStateWrites([first] + mid + [last])
  {
    var e := [first] + mid + [last];
    forall i | 0 <= i < |e|
      ensures !e[i].SetState?
    {
      if 1 <= i < 1 + |mid| {
        assert e[i] == mid[i - 1];
      }
    }
  }


  /** The adapter comes up connected exactly when the four settings are
      present, name a known sub-protocol, and the collector accepted the
      probe; the indicator shows the result. */
  lemma StartupConnectsIff(cfg: Config, doc: Option<seq<Row>>, probeAccepted: bool)
    ensures var r := Startup(cfg, doc, probeAccepted);
            && (r.next.connected <==> Configured(cfg) && KnownSubProtocol(cfg.otlProtocol.value) && probeAccepted)
            && Indicator(false, r.effects) == r.next.connected
  {
    if Configured(cfg) {
      var c := Connect(cfg, probeAccepted);
      if c.next.connected {
        var exporter := CreateEndpointAndExporter(c.next.settings, cfg.headers).exporter.value;
        var l := Launch(cfg, c.next, doc, exporter);
        LaunchEffects(cfg, c.next, doc, exporter);
        IndicatorIgnoresOtherCalls(true, l.effects);
        IndicatorAppend(false, c.effects, l.effects);
      }
    }
  }

  /** A failed start leaves an empty registry, no gauges and no pipeline,
      and makes no subscription at all. */
  lemma StartupFailureSubscribesNothing(cfg: Config, doc: Option<seq<Row>>, probeAccepted: bool)
    requires !(Configured(cfg) && KnownSubProtocol(cfg.otlProtocol.value) && probeAccepted)
    ensures var r := Startup(cfg, doc, probeAccepted);
            && r.next.tracked.values == map[] && r.next.instruments == map[]
            && r.next.meterProvider.None? && !r.next.subscribeAll
            && r.effects == []
  {
  }

  /** The adapter after the settings are read and the probe succeeded. */
  function Connected(cfg: Config): Adapter
    requires Configured(cfg)
  {
    Init().(settings := SettingsOf(cfg), connected := true)
  }

  /** A successful start sets the indicator and then launches. */
  lemma StartupLaunches(cfg: Config, doc: Option<seq<Row>>, probeAccepted: bool)
    requires Configured(cfg) && KnownSubProtocol(cfg.otlProtocol.value) && probeAccepted
    ensures var exporter := CreateEndpointAndExporter(SettingsOf(cfg), cfg.headers).exporter;
            && exporter.Some?
            && var l := Launch(cfg, Connected(cfg), doc, exporter.value);
               Startup(cfg, doc, probeAccepted) == Step(l.next, [SetState(ConnectionStateId, true)] + l.effects)
  {
    var c := Connect(cfg, probeAccepted);
    assert c == Step(Connected(cfg), [SetState(ConnectionStateId, true)]);
  }

  /** A successful start leaves the adapter running, with the registry
      holding exactly the enabled ids of the view and the host subscribed to
      exactly what the registry calls for; the connection indicator is set
      first and object changes are subscribed last. */
  lemma StartupRuns(cfg: Config, doc: Option<seq<Row>>, probeAccepted: bool)
    requires Configured(cfg) && KnownSubProtocol(cfg.otlProtocol.value) && probeAccepted
    ensures var r := Startup(cfg, doc, probeAccepted);
            && Running(r.next) && r.next.pipelines == 1
            && r.next.tracked.values.Keys == (if doc.Some? then EnabledIds(doc.value) else {})
            && InSync(r.next, Subscribed({}, r.effects))
            && r.effects[0] == SetState(ConnectionStateId, true)
            && r.effects[|r.effects| - 1] == SubscribeObjects(Wildcard)
  {
    StartupLaunches(cfg, doc, probeAccepted);
    var exporter := CreateEndpointAndExporter(SettingsOf(cfg), cfg.headers).exporter.value;
    var l := Launch(cfg, Connected(cfg), doc, exporter);
    LaunchState(cfg, Connected(cfg), doc, exporter);
    LaunchEffects(cfg, Connected(cfg), doc, exporter);
    SubscribedAround({}, [SetState(ConnectionStateId, true)], l.effects, []);
    assert [SetState(ConnectionStateId, true)] + l.effects + [] == [SetState(ConnectionStateId, true)] + l.effects;
  }
}
