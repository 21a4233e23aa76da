/** The metric pipeline: the meter provider with its exporter, the meter,
    and one gauge per tracked datapoint, kept in the instrument lookup. */
module Instruments {
  import opened Wrappers
  import opened JsText
  import opened Transport
  import opened AdapterState

  /** getInstrumentIdentifier: the gauge is named by the alias, unless the
      alias is null, undefined or only white space, in which case by the
      real id. */
  function InstrumentIdentifier(entry: Entry): (r: string)
    ensures entry.aliasId.None? || IsBlank(entry.aliasId.value) ==> r == entry.realId
    ensures entry.aliasId.Some? && !IsBlank(entry.aliasId.value) ==> r == entry.aliasId.value
  {
    if entry.aliasId.None? || Trim(entry.aliasId.value) == "" then entry.realId
    else entry.aliasId.value
  }

  /** The gauge `meter` creates for `entry`. */
  function GaugeFor(entry: Entry, meter: Meter): Gauge {
    Gauge(InstrumentIdentifier(entry), meter.generation)
  }

  /** createInstrumentForDataPointKey: an untracked key, or a missing meter,
      changes nothing; otherwise the key's gauge is (re)created. */
  function CreateInstrumentForDataPointKey(a: Adapter, key: string): (r: Adapter)
    ensures r == a.(instruments := r.instruments)
    ensures key in a.tracked.values && a.meter.Some? ==>
              r.instruments == a.instruments[key := GaugeFor(a.tracked.values[key], a.meter.value)]
    ensures key !in a.tracked.values || a.meter.None? ==> r == a
  {
    if key !in a.tracked.values then a
    else if a.meter.None? then a
    else a.(instruments := a.instruments[key := GaugeFor(a.tracked.values[key], a.meter.value)])
  }

  /** createInstrumentForDataPointKey over `keys`, in order. */
  function CreateInstruments(a: Adapter, keys: seq<string>): (r: Adapter)
    ensures r == a.(instruments := r.instruments)
    ensures a.meter.None? ==> r == a
    ensures a.meter.Some? ==>
              r.instruments.Keys == a.instruments.Keys + (set k | k in keys && k in a.tracked.values)
    ensures a.meter.Some? ==>
              forall k :: k in keys && k in a.tracked.values ==>
                r.instruments[k] == GaugeFor(a.tracked.values[k], a.meter.value)
    ensures forall k :: k in a.instruments && !(k in keys && k in a.tracked.values) ==>
              r.instruments[k] == a.instruments[k]
    decreases |keys|
  {
    if |keys| == 0 then a
    else CreateInstruments(CreateInstrumentForDataPointKey(a, keys[0]), keys[1..])
  }

  /** createMetricInstruments: with a meter, every tracked key gets a fresh
      gauge of that meter; lookup entries of keys no longer tracked are
      left as they were. */
  function CreateMetricInstruments(a: Adapter): (r: Adapter)
    requires Inv(a)
    ensures r == a.(instruments := r.instruments)
    ensures a.meter.None? ==> r == a
    ensures a.meter.Some? ==> r.instruments.Keys == a.instruments.Keys + a.tracked.values.Keys
    ensures a.meter.Some? ==>
              forall k :: k in a.tracked.values ==>
                r.instruments[k] == GaugeFor(a.tracked.values[k], a.meter.value)
    ensures forall k :: k in a.instruments && k !in a.tracked.values ==>
              r.instruments[k] == a.instruments[k]
  {
    CreateInstruments(a, a.tracked.keys)
  }

  /** createMeter: a new meter provider around `exporter` and a meter named
      by the configured meter name, or by the namespace when there is none;
      both belong to a new pipeline generation. */
  function CreateMeter(cfg: Config, a: Adapter, exporter: Exporter): (r: Step)
    ensures r.next.pipelines == a.pipelines + 1
    ensures r.next.meterProvider == Some(MeterProvider(exporter, r.next.pipelines))
    ensures r.next.meter.Some? && r.next.meter.value.generation == r.next.pipelines
    ensures r.next.meter.value.name == if cfg.meterName.Some? then cfg.meterName.value else cfg.namespace
    ensures r.next == a.(meterProvider := r.next.meterProvider, meter := r.next.meter, pipelines := r.next.pipelines)
    ensures r.effects == [StartPipeline(exporter, r.next.pipelines)]
  {
    var generation := a.pipelines + 1;
    Step(a.(meterProvider := Some(MeterProvider(exporter, generation)),
            meter := Some(Meter(cfg.meterName.GetOr(cfg.namespace), generation)),
            pipelines := generation),
         [StartPipeline(exporter, generation)])
  }

  /** The old provider, if there is one, is flushed, then shut down, then
      dropped. The meter field is left as it was. */
  function TearDown(a: Adapter): (r: Step)
    ensures r.next == a.(meterProvider := None)
    ensures a.meterProvider.None? ==> r.effects == []
    ensures a.meterProvider.Some? ==>
              r.effects == [ForceFlush(a.meterProvider.value.generation), Shutdown(a.meterProvider.value.generation)]
  {
    match a.meterProvider
    case None => Step(a, [])
    case Some(p) => Step(a.(meterProvider := None), [ForceFlush(p.generation), Shutdown(p.generation)])
  }

  /** Tracked keys each have the gauge the current meter made for them; the
      lookup's other gauges belong to earlier, shut-down generations. */
  ghost predicate GaugesCurrent(a: Adapter)
    requires a.meter.Some?
  {
    && (forall k :: k in a.tracked.values ==>
          k in a.instruments && a.instruments[k] == GaugeFor(a.tracked.values[k], a.meter.value))
    && (forall k :: k in a.instruments && k !in a.tracked.values ==>
          a.instruments[k].generation < a.meter.value.generation)
  }

  /** A running adapter: started with a known sub-protocol, with a live
      provider and meter of the latest generation, and current gauges. */
  ghost predicate Running(a: Adapter) {
    && Inv(a)
    && KnownSubProtocol(a.settings.otlProtocol)
    && a.meterProvider.Some? && a.meterProvider.value.generation == a.pipelines
    && a.meter.Some? && a.meter.value.generation == a.pipelines
    && GaugesCurrent(a)
  }
}
