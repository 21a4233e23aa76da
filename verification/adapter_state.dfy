/** The state the `Otlp` adapter class keeps between events, and the calls
    it makes on the host and on the OpenTelemetry SDK, recorded as effects. */
module AdapterState {
  import opened Wrappers
  import opened Normalizer
  import opened Records
  import opened Transport
  import JsObject

  /** A host state: its value and the writer recorded in `from` (the other
      fields of an ioBroker state are not modelled). */
  datatype IobState = IobState(val: JsValue, from: string)

  /** The adapter's block in an object's `common.custom`, as delivered:
      whether `aliasId` and `enabled` are own properties, the alias (None
      for null or undefined), the truthiness of `enabled`, and the
      per-datapoint attribute table. */
  datatype CustomBlock = CustomBlock(
    hasAliasId: bool,
    aliasId: Option<string>,
    hasEnabled: bool,
    enabled: bool,
    attributes: Option<Table>)

  /** A registry entry (SavedOtlpCustomConfig): the block's settings plus the
      real id and the cached `state` and `skipped` values. The serialized
      `config` snapshot is written but never read, and is not modelled. */
  datatype Entry = Entry(
    aliasId: Option<string>,
    enabled: bool,
    attributes: Option<Table>,
    realId: string,
    state: Option<IobState>,
    skipped: Option<IobState>)

  /** SDK handles, tagged with the pipeline generation that made them: every
      `createMeter` starts a new generation. */
  datatype Gauge = Gauge(name: string, generation: nat)
  datatype Meter = Meter(name: string, generation: nat)
  datatype MeterProvider = MeterProvider(exporter: Exporter, generation: nat)

  /** The calls the adapter makes, in order. */
  datatype Effect =
    | SubscribeStates(pattern: string)
    | UnsubscribeStates(pattern: string)
    | SubscribeObjects(pattern: string)
    | Record(gauge: Gauge, value: Num, attributes: map<string, string>)
    | SetState(id: string, stateValue: bool)
    | ForceFlush(generation: nat)
    | Shutdown(generation: nat)
    | StartPipeline(exporter: Exporter, generation: nat)

  /** The adapter configuration (`this.config`) and namespace. */
  datatype Config = Config(
    namespace: string,
    protocol: Option<string>,
    otlProtocol: Option<string>,
    host: Option<string>,
    port: Option<string>,
    headers: Option<Table>,
    meterName: Option<string>)

  /** The fields of the `Otlp` class the core reads and writes. */
  datatype Adapter = Adapter(
    subscribeAll: bool,
    connected: bool,
    settings: Settings,
    tracked: JsObject.Obj<Entry>,
    instruments: map<string, Gauge>,
    meterProvider: Option<MeterProvider>,
    meter: Option<Meter>,
    pipelines: nat)

  /** The state after a handler together with the calls it made. */
  datatype Step = Step(next: Adapter, effects: seq<Effect>)

  const Wildcard := "*"
  const ConnectionStateId := "info.connection"

  /** The freshly constructed adapter. */
  function Init(): (a: Adapter)
    ensures Inv(a) && !a.subscribeAll && a.tracked.values == map[] && a.instruments == map[]
  {
    Adapter(false, false, Settings("", "", "", ""), JsObject.Empty(), map[], None, None, 0)
  }

  /** The two entries agree on everything but the cached state. */
  predicate SameButState(e1: Entry, e2: Entry) {
    && e1.aliasId == e2.aliasId && e1.enabled == e2.enabled && e1.attributes == e2.attributes
    && e1.realId == e2.realId && e1.skipped == e2.skipped
  }

  /** What every handler keeps true: the registry is a well-formed object,
      and every entry is keyed by its own real id (the alias only names the
      gauge). */
  ghost predicate Inv(a: Adapter) {
    a.tracked.Valid() && KeyedByRealId(a.tracked)
  }

  /** Every entry of the registry sits under its own real id. */
  ghost predicate KeyedByRealId(o: JsObject.Obj<Entry>) {
    forall k :: k in o.values ==> o.values[k].realId == k
  }

  /** No subscribe or unsubscribe call on states among `effects`. */
  predicate NoStateSubscriptionCalls(effects: seq<Effect>) {
    forall i :: 0 <= i < |effects| ==> !effects[i].SubscribeStates? && !effects[i].UnsubscribeStates?
  }

  /** No measurement recorded among `effects`. */
  predicate NoRecords(effects: seq<Effect>) {
    forall i :: 0 <= i < |effects| ==> !effects[i].Record?
  }

  /** No state written among `effects`. */
  predicate NoStateWrites(effects: seq<Effect>) {
    forall i :: 0 <= i < |effects| ==> !effects[i].SetState?
  }

  lemma NoStateSubscriptionCallsAppend(e1: seq<Effect>, e2: seq<Effect>)
    requires NoStateSubscriptionCalls(e1) && NoStateSubscriptionCalls(e2)
    ensures NoStateSubscriptionCalls(e1 + e2)
  {
  }
}
