# OTLP bridge adapter — a Dafny model

This project models the bookkeeping core of the ioBroker OTLP adapter
(`src/main.ts`). The adapter forwards ioBroker state values to an
OpenTelemetry collector as gauge measurements. The model covers:

- the value normalizer `parseNumberWithNull`;
- the attribute fold `iobTable2Record`;
- the instrument name chosen by `getInstrumentIdentifier`;
- the endpoint and exporter choice of `createEndpointAndExporter`;
- the tracked-datapoint registry, kept in `_trackedDataPoints`;
- the instrument lookup, kept in `_instrumentLookup`;
- the sticky wildcard flag `_subscribeAll`;
- the handlers that change these: `onReady`, `loadCustomEntitiesAsync`, `subscribeToStates`,
  `createMetricInstruments` / `createInstrumentForDataPointKey`, `isTrackedDataPoint` /
  `onObjectChange`, `addTrackedDataPoint` / `removeTrackedDataPoint`,
  `writeInitialValueAsync`, `onStateChange` / `recordStateByIobId`, and `setConnected`.

The state is an immutable `Adapter` value (`AdapterState`). Every handler is a pure function. It returns the next state together with the calls the adapter makes, in order, as `Effect`s:

- subscribe and unsubscribe of states;
- subscribe of objects;
- `gauge.record`;
- `setState('info.connection')`;
- forceFlush and shutdown of the meter provider;
- the start of a new pipeline.

The registry is a JavaScript object (`JsObject.Obj`) that keeps its keys in insertion order. The loops over it (subscribe, unsubscribe, gauge creation) visit keys in that order.

Gauges and meters carry the number of the pipeline generation that created them. This tells the gauges of the current meter apart from the stale gauges that `removeTrackedDataPoint` leaves in the lookup.

Modules, in dependency order:

| file | module | what it holds |
|---|---|---|
| wrappers.dfy | Wrappers | `Option`, `Result` |
| normalizer.dfy | Normalizer | JavaScript values and `parseNumberWithNull` |
| js_text.dfy | JsText | `String.prototype.trim` |
| records.dfy | Records | `iobTable2Record` as a left fold |
| transport.dfy | Transport | connection settings and `createEndpointAndExporter` |
| js_object.dfy | JsObject | insertion-ordered JavaScript objects |
| adapter_state.dfy | AdapterState | entries, gauges, effects, the `Adapter` state and its invariant |
| subscriptions.dfy | Subscriptions | `subscribeToStates`, add/remove, the wildcard ratchet |
| instruments.dfy | Instruments | gauge naming and creation, meter creation and teardown |
| handlers.dfy | Handlers | startup load, recording, initial value, object changes |
| lifecycle.dfy | Lifecycle | `setConnected` and `onReady` |
| traces.dfy | Traces | arbitrary sequences of host events |

Host inputs become parameters:

- the object view (`getObjectViewAsync`);
- the state a read returns (`getForeignStateAsync`);
- whether the collector accepted the probe export of `testConnectionAsync`;
- JavaScript's `parseFloat`, a function parameter. Every property holds for every parsing function.

Two facts about the code shape the model:

- Disabling a datapoint does not delete its gauge from the instrument lookup (src/main.ts:386-397 delete only the registry entry). The stale gauge stays there, with an older generation. Recording stays safe because it first checks the registry.
- The comment at src/main.ts:82 calls the registry a mapping from alias id, yet lines 248, 253, 377 and 379 key it by the real id. The alias only names the gauge (src/main.ts:267).

Two invariants:

- `Inv`: the registry is a well-formed object and every entry's `realId` is its key.
- `Running`: holds after a successful start. It means a provider and a meter of the latest generation exist, every tracked id has the current meter's gauge for it, and every other gauge is older.

`InSync(a, net)` says that the individually subscribed patterns `net` are exactly the tracked ids. In wildcard mode they are exactly `*`. `Subscribed(net, effects)` replays the subscribe and unsubscribe calls.

## Model

| member | source | states |
|---|---|---|
| Normalizer.ParseNumberWithNull | src/main.ts:41-53 | numbers pass through unchanged; a string gives its parse, or null exactly when the parse is NaN; true gives 1 and false gives 0; null, undefined and every other type give null; NaN comes out only when NaN went in as a number |
| Normalizer.NormalizeIdempotent | src/main.ts:41-53 | feeding a normalized value back in as a number returns it unchanged |
| Records.AssignLastWins | src/main.ts:60 | the spread-reduce holds the keys of the initial record plus those of the pairs; each key maps to its last pair; keys no pair carries keep their value |
| Records.IobTable2Record | src/main.ts:55-61 | an undefined table gives `{}`; otherwise the key set is exactly the table's keys and each key's value comes from the last pair with that key |
| JsText.Trim | src/main.ts:267 | the result is `s` with a blank prefix and a blank suffix cut off; it neither starts nor ends with ECMAScript white space or a line terminator; it is empty exactly when the string is blank |
| Instruments.InstrumentIdentifier | src/main.ts:265-268 | the gauge name is the real id when the alias is null, undefined or blank, and the alias verbatim otherwise |
| Transport.CreateEndpointAndExporter | src/main.ts:424-454 | `http` gives `protocol://host:port/v1/metrics` with the HTTP exporter; `grpc` gives `.../otlp` with the gRPC exporter; any other sub-protocol gives null for both; endpoint and exporter are null together; the exporter targets the endpoint with the folded headers |
| Transport.EndpointIdentifiesExporter | src/main.ts:433-451 | the endpoint begins with `protocol://host:port`, and the exporter is the HTTP one exactly when the endpoint ends in `/v1/metrics` |
| Transport.CreateEndpointAndExporterAsWritten | src/main.ts:428-431 | as written the call throws exactly when the header table is undefined, and otherwise agrees with the corrected function |
| Transport.MissingHeadersThrow | src/main.ts:431 | a complete HTTP configuration without headers throws as written, where the intended result is the usual endpoint with no headers |
| Subscriptions.PerRealIdOncePerEntry | src/main.ts:214-218 | the loop over the registry makes one call per entry, on that entry's real id, and no other call |
| Subscriptions.SubscribeToStates | src/main.ts:210-226 | only state subscriptions are made; below 20 entries the adapter is unchanged; at 20 or more there is a single `*` subscribe and wildcard mode turns on; outside wildcard mode the subscriptions afterwards match the registry |
| Subscriptions.SubscribeToStatesOncePerEntry | src/main.ts:211-218 | below 20 entries each tracked real id is subscribed exactly once and nothing else is |
| Subscriptions.AddSubscriptionCalls | src/main.ts:358-370 | a tracked id or wildcard mode gives no calls; otherwise, with fewer than 19 entries, one subscribe of the new id; with 19 or more, an unsubscribe per real id, then `*`, and wildcard mode turns on |
| Subscriptions.AddTrackedDataPoint | src/main.ts:357-384 | the id becomes a key whose entry has real id `id` and the block's alias and attributes; state and skipped carry over from the prior entry, or are null; other entries, the lookup and the rest are untouched; wildcard mode never turns off and silences all calls |
| Subscriptions.TwentiethAddSwitchesToWildcard | src/main.ts:359-366 | adding an untracked id to 19 or more entries outside wildcard mode unsubscribes every tracked id exactly once, subscribes `*` exactly once as the last call, and never subscribes the new id |
| Subscriptions.AddKeepsSubscriptionsInSync | src/main.ts:357-384 | after an add, the host's individual subscriptions still match the registry, or are exactly `*` in wildcard mode |
| Subscriptions.RemoveTrackedDataPoint | src/main.ts:386-397 | an absent id changes nothing and makes no call; otherwise only that key leaves the registry; the lookup and the flag are untouched; the id is unsubscribed unless wildcard mode is on |
| Subscriptions.RemoveKeepsSubscriptionsInSync | src/main.ts:386-397 | after a remove, the host's individual subscriptions still match the registry |
| Instruments.CreateInstrumentForDataPointKey | src/main.ts:270-288 | an untracked key or a missing meter changes nothing; otherwise the key's gauge is the meter's gauge named by the instrument identifier, and nothing else changes |
| Instruments.CreateInstruments | src/main.ts:259-262 | over a list of keys, the lookup gains exactly the tracked keys of the list, each with the meter's gauge for its entry; other lookup entries are unchanged |
| Instruments.CreateMetricInstruments | src/main.ts:257-263 | with a meter, every tracked key gets the meter's gauge for its entry; keys no longer tracked keep their old gauge; without a meter nothing changes |
| Instruments.CreateMeter | src/main.ts:157-171 | a provider around the exporter and a meter named by `meterName`, else by the namespace, both of a new generation |
| Instruments.TearDown | src/main.ts:330-332 | a live provider is flushed, then shut down, then dropped; without one there are no calls |
| Handlers.LoadRowsLastWins | src/main.ts:234-254 | the loop stores each enabled row under its id; an id's entry comes from the last enabled row with that id; other entries are untouched |
| Handlers.LoadCustomEntities | src/main.ts:228-255 | a missing or empty view changes nothing; otherwise the registry gains exactly the enabled ids, each from its last enabled row, keyed and real-id'd by that id |
| Handlers.RecordStateByIobId | src/main.ts:456-479 | a record happens exactly when the id is in the registry and in the lookup and its value normalizes to a number; it records that number on the lookup's gauge with the folded attributes |
| Handlers.OnStateChange | src/main.ts:412-422 | the adapter is unchanged; a deleted state or an untracked id records nothing; otherwise the record path applies |
| Handlers.StateChangeRecordsOnLiveGauge | src/main.ts:412-422 | while running, a value is recorded exactly when the id is tracked and the value normalizes, and always on the current generation's gauge, never on a stale one |
| Handlers.WriteInitialValue | src/main.ts:399-410 | a missing state or an untracked id does nothing; otherwise the state, stamped `from: system.adapter.<namespace>`, is cached in the entry and recorded; no other entry, key or field changes |
| Handlers.Rebuild | src/main.ts:329-345 | the old provider is flushed and shut down; with a known sub-protocol a new generation starts and every tracked key gets its gauge; otherwise it is only the teardown; the registry and subscriptions are untouched and stale gauges stay |
| Handlers.Seed | src/main.ts:350-354 | writing the initial value after a rebuild (or skipping it for a disabled block) keeps every key and the registry invariant, changes at most the cached state of the changed id, and emits only records |
| Handlers.RebuildAndSeedKeepsEntries | src/main.ts:329-354 | the rebuild and initial value keep the registry's keys and order and change no entry except the cached state of the changed id |
| Handlers.RebuildAndSeedFrame | src/main.ts:329-354 | the rebuild and initial value make no subscription calls, keep the wildcard flag and the settings, and leave stale gauges in the lookup |
| Handlers.RebuildAndSeedOrder | src/main.ts:329-354 | flush, shutdown and the new pipeline come first, in that order, and only records follow |
| Handlers.RebuildAndSeedRuns | src/main.ts:329-354 | with a known sub-protocol the rebuild leaves the adapter running on the next generation |
| Handlers.OnObjectChange | src/main.ts:316-326 | an object without the adapter's block, or with a block that lacks `aliasId` or `enabled` as own properties, changes nothing |
| Handlers.ObjectChangeUpdatesOnlyItsEntry | src/main.ts:327 | enabling tracks the id with the block's alias and attributes; disabling drops it from the registry but not from the lookup; other entries are untouched |
| Handlers.ObjectChangeKeepsWildcard | src/main.ts:359 | in wildcard mode an object change keeps the mode and makes no subscribe or unsubscribe call |
| Handlers.ObjectChangeKeepsSubscriptionsInSync | src/main.ts:316-355 | every object change keeps the host's individual subscriptions matching the registry |
| Handlers.MutateMakesOnlySubscriptionCalls | src/main.ts:327 | the registry mutation makes only subscription calls and leaves the provider, settings and generation alone |
| Handlers.ObjectChangeFlushesBeforeReplacing | src/main.ts:327-354 | while running: subscription calls first, then flush and shutdown of the current provider, then the next generation's pipeline, then only records |
| Handlers.ObjectChangeKeepsRunning | src/main.ts:329-345 | a running adapter keeps running through any object change, on the next generation when the block is tracked |
| Handlers.ObjectChangeRecordsInitialValue | src/main.ts:350-354 | enabling while running caches the read state, stamped with the adapter as source, and ends with a record of its value on the new gauge for the id exactly when the value normalizes |
| Lifecycle.SetConnected | src/main.ts:485-495 | the flag takes the new value; `info.connection` is written, with that value, exactly when it changes |
| Lifecycle.SetConnectedKeepsIndicator | src/main.ts:485-495 | if the indicator showed the flag before, it shows the new value afterwards |
| Lifecycle.SetConnectedIdempotent | src/main.ts:485-495 | setting the same value twice writes once at most |
| Lifecycle.Connect | src/main.ts:106-130 | with the four settings present, the indicator ends up set exactly when the sub-protocol is known and the probe succeeded, and only then is it written; the adapter is otherwise the initial one with the settings taken over |
| Lifecycle.StartupConnectsIff | src/main.ts:105-133 | the adapter comes up connected exactly when protocol, sub-protocol, host and port are set, the sub-protocol is known and the probe succeeded; the indicator shows that value |
| Lifecycle.StartupFailureSubscribesNothing | src/main.ts:105-135 | a failed start leaves an empty registry, no gauges, no provider and no calls |
| Lifecycle.LaunchedPipelineRuns | src/main.ts:148-151 | loading, then creating the meter and the gauges, yields a running adapter on the next generation with exactly the view's enabled ids |
| Lifecycle.LaunchState | src/main.ts:148-153 | after loading, the pipeline and the state subscriptions, the adapter runs on the next generation with the settings and flag it had, and exactly the view's enabled ids tracked |
| Lifecycle.LaunchEffects | src/main.ts:148-154 | the launch writes no state, the host's subscriptions afterwards match the registry, and the object subscription comes last |
| Lifecycle.LaunchSubscriptions | src/main.ts:148-154 | after the launch the host's individual state subscriptions are exactly what the registry calls for |
| Lifecycle.LaunchWritesNoState | src/main.ts:148-154 | the launch writes no state and subscribes to object changes last |
| Lifecycle.StartupLaunches | src/main.ts:105-155 | with complete settings, a known sub-protocol and a successful probe, the start is one indicator write followed by the launch |
| Lifecycle.StartupRuns | src/main.ts:105-155 | a successful start runs on generation 1 with exactly the view's enabled ids tracked; the subscriptions match the registry; `info.connection` is set first and objects are subscribed last |
| Traces.RunKeepsRunning | src/main.ts:316-422 | a running adapter stays running through any sequence of object and state changes |
| Traces.RunKeepsWildcard | src/main.ts:357-397 | once wildcard mode is on, it stays on through any event sequence, and no individual subscribe or unsubscribe happens again |
| Traces.RunKeepsSubscriptionsInSync | src/main.ts:316-422 | through any event sequence, the host's individual subscriptions keep matching the registry |
| Traces.StateChangesLeaveAdapterAlone | src/main.ts:412-422 | state changes alone never change the adapter |
| Traces.StartThenRun | src/main.ts:105-155 | from a successful start through any events, the adapter runs, and the subscriptions counted from the first call match the registry |

## Left out

- The network probe of `testConnectionAsync` (src/main.ts:173-208) is not modelled. Its outcome is the `probeAccepted` parameter of `Lifecycle.Startup`.
- `onUnload` is not modelled. It is a host shutdown hook outside the registry logic.
- Logging, `performance.now()` timing, the `config` JSON snapshot and `lastLogTime` are not modelled. None of them is read by the core.
- The resource attributes (`resourceFromAttributes`) and the meter provider's export interval are not modelled. These are OpenTelemetry SDK objects. Providers, meters and gauges appear only as tagged handles, and their calls as effects.
- The bootstrap wiring (constructor event registration, module export) is not modelled.
- Interleaving between the `await`s of a handler is not modelled. Each handler runs to completion as one step, so two object changes never overlap.
- Normalizer.ParseNumberWithNull: the exact digits-to-number behaviour of `parseFloat` is not modelled. It is a parameter, and numbers are reals with NaN and the infinities as tags.
- Ids that name `Object.prototype` properties (such as `constructor`) are not modelled. Neither are integer-like ids, which JavaScript orders before other keys. ioBroker ids contain dots, so neither kind occurs.
- Handlers.LoadCustomEntities: loaded entries are taken to carry no cached `state`. The source stores the block object as it is, and a block has no such field.
- Instruments.InstrumentIdentifier: an `aliasId` that is set but not a string makes `trim` throw in the source. The model types the alias as an optional string.
- Lifecycle.Startup: the configured port is taken as the text it renders to in the endpoint. A numeric port renders the same way.
- Lifecycle.Connect: uses the corrected header handling of `Transport.CreateEndpointAndExporter` (see Findings). As written, the connection test reaches src/main.ts:431 and throws when `headers` is undefined, so the adapter never connects.
- Lifecycle.StartupConnectsIff: states the iff for the corrected header handling. As written, a configuration without `headers` throws during the connection test at src/main.ts:129, and the adapter stays disconnected even with a known sub-protocol and a reachable collector.
- Lifecycle.StartupLaunches: a successful start is stated for the corrected header handling. As written, a configuration without `headers` throws before `setConnected(true)` and never launches.
- Lifecycle.StartupRuns: the running adapter after start is stated for the corrected header handling. As written, a configuration without `headers` never reaches the launch.
- Traces.StartThenRun: builds on `Lifecycle.Startup` with the corrected header handling. As written, a configuration without `headers` gives no successful start, so no event sequence follows one.
- Only the source under `src/` is modelled. The compiled `build/main.js` is an earlier revision: it lacks the `forceFlush` before `shutdown` and stops the adapter on configuration failure.

## Findings

| source | as written | input that shows it | evidently intended | confidence | as-written member | corrected member |
|---|---|---|---|---|---|---|
| src/main.ts:431 | `Object.keys(headers)` runs on the configured header table, although `iobTable2Record(headers)` two lines above is written to accept an undefined table; with no `headers` in the configuration this throws a TypeError, and `onReady` fails before connecting | protocol `http`, sub-protocol `http`, host `localhost`, port `4318`, `headers` undefined | treat a missing table as having no headers: endpoint `http://localhost:4318/v1/metrics`, empty header record | low: not executed; the admin UI may always store a table | Transport.CreateEndpointAndExporterAsWritten, Transport.MissingHeadersThrow | Transport.CreateEndpointAndExporter |
