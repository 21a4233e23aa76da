/** The adapter's handlers: startup, object changes, state changes and the
    connection indicator. Each handler runs to completion as one step. */
module Handlers {
  import opened Wrappers
  import opened Normalizer
  import opened Records
  import opened Transport
  import opened AdapterState
  import opened Subscriptions
  import opened Instruments
  import JsObject

  // ---------------------------------------------------------------------
  // Startup load (loadCustomEntitiesAsync)

  /** One row of the host's `system/custom` object view: the object id and
      the adapter's block in its custom settings (None when the row has no
      value or no block for this adapter). */
  datatype Row = Row(id: string, block: Option<CustomBlock>)

  /** The row passes both filters: it has a block and `enabled` is truthy. */
  predicate IsEnabledRow(row: Row) {
    row.block.Some? && row.block.value.enabled
  }

  /** The entry an enabled row is loaded as: keyed and real-id'd by the row's
      id, with no cached state. */
  function LoadedEntry(row: Row): Entry
    requires IsEnabledRow(row)
  {
    EntryFor(row.id, row.block.value, None, None)
  }

  /** No later enabled row carries the id of enabled row `i`. */
  ghost predicate IsLastEnabledFor(rows: seq<Row>, i: int)
    requires 0 <= i < |rows|
  {
    forall j :: i < j < |rows| && IsEnabledRow(rows[j]) ==> rows[j].id != rows[i].id
  }

  ghost function EnabledIds(rows: seq<Row>): set<string> {
    set i | 0 <= i < |rows| && IsEnabledRow(rows[i]) :: rows[i].id
  }

  /** The loop of loadCustomEntitiesAsync: enabled rows are stored first to
      last, each under its own id. */
  function LoadRows(o: JsObject.Obj<Entry>, rows: seq<Row>): (r: JsObject.Obj<Entry>)
    requires o.Valid() && KeyedByRealId(o)
    ensures r.Valid() && KeyedByRealId(r)
    decreases |rows|
  {
    if |rows| == 0 then o
    else
      var prior := LoadRows(o, rows[..|rows| - 1]);
      var row := rows[|rows| - 1];
      if IsEnabledRow(row) then JsObject.Put(prior, row.id, LoadedEntry(row)) else prior
  }

  /** The loaded registry holds the earlier entries plus one entry per
      enabled id, taken from the last enabled row with that id. */
  lemma {:induction false} LoadRowsLastWins(o: JsObject.Obj<Entry>, rows: seq<Row>)
    requires o.Valid() && KeyedByRealId(o)
    ensures LoadRows(o, rows).values.Keys == o.values.Keys + EnabledIds(rows)
    ensures forall i :: 0 <= i < |rows| && IsEnabledRow(rows[i]) && IsLastEnabledFor(rows, i) ==>
              LoadRows(o, rows).values[rows[i].id] == LoadedEntry(rows[i])
    ensures forall k :: k in o.values && k !in EnabledIds(rows) ==> LoadRows(o, rows).values[k] == o.values[k]
    decreases |rows|
  {
    if |rows| > 0 {
      var init := rows[..|rows| - 1];
      var row := rows[|rows| - 1];
      LoadRowsLastWins(o, init);
      assert EnabledIds(rows) == EnabledIds(init) + (if IsEnabledRow(row) then {row.id} else {}) by {
        forall k | k in EnabledIds(rows) ensures k in EnabledIds(init) + (if IsEnabledRow(row) then {row.id} else {}) {
          var i :| 0 <= i < |rows| && IsEnabledRow(rows[i]) && rows[i].id == k;
          if i < |init| { assert init[i] == rows[i]; }
        }
        forall k | k in EnabledIds(init) ensures k in EnabledIds(rows) {
          var i :| 0 <= i < |init| && IsEnabledRow(init[i]) && init[i].id == k;
          assert rows[i] == init[i];
        }
        if IsEnabledRow(row) { assert rows[|init|] == row; }
      }
      forall i | 0 <= i < |rows| && IsEnabledRow(rows[i]) && IsLastEnabledFor(rows, i)
        ensures LoadRows(o, rows).values[rows[i].id] == LoadedEntry(rows[i])
      {
        if i < |init| {
          assert rows[i] == init[i];
          assert IsLastEnabledFor(init, i) by {
            forall j | i < j < |init| && IsEnabledRow(init[j]) ensures init[j].id != init[i].id {
              assert init[j] == rows[j];
            }
          }
        }
      }
    }
  }

  /** loadCustomEntitiesAsync: no view, or an empty one, changes nothing;
      otherwise every enabled row's id becomes a registry key whose entry
      comes from the last enabled row with that id. */
  function LoadCustomEntities(a: Adapter, doc: Option<seq<Row>>): (r: Adapter)
    requires Inv(a)
    ensures Inv(r)
    ensures r == a.(tracked := r.tracked)
    ensures doc.None? || doc.value == [] ==> r == a
    ensures doc.Some? ==> r.tracked.values.Keys == a.tracked.values.Keys + EnabledIds(doc.value)
    ensures doc.Some? ==>
              forall i :: 0 <= i < |doc.value| && IsEnabledRow(doc.value[i]) && IsLastEnabledFor(doc.value, i) ==>
                r.tracked.values[doc.value[i].id] == LoadedEntry(doc.value[i])
  {
    if doc.None? || |doc.value| == 0 then a
    else
      LoadRowsLastWins(a.tracked, doc.value);
      a.(tracked := LoadRows(a.tracked, doc.value))
  }

  // ---------------------------------------------------------------------
  // Recording

  /** recordStateByIobId: records the normalized value on the id's gauge,
      with the entry's attributes, when the id is tracked, has a gauge, and
      its value normalizes to a number; otherwise records nothing. */
  function RecordStateByIobId(parseFloat: ParseFloat, a: Adapter, id: string, state: IobState): (r: seq<Effect>)
    ensures |r| <= 1
    ensures r != [] <==>
              id in a.tracked.values && id in a.instruments && ParseNumberWithNull(state.val, parseFloat).Some?
    ensures r != [] ==>
              r[0] == Record(a.instruments[id], ParseNumberWithNull(state.val, parseFloat).value,
                             IobTable2Record(a.tracked.values[id].attributes))
  {
    if id !in a.tracked.values then []
    else if id !in a.instruments then []
    else
      var value := ParseNumberWithNull(state.val, parseFloat);
      if value.None? then []
      else [Record(a.instruments[id], value.value, IobTable2Record(a.tracked.values[id].attributes))]
  }

  /** onStateChange: a state change for a tracked id is recorded; a deleted
      state or an untracked id is ignored. The adapter is not changed. */
  function OnStateChange(parseFloat: ParseFloat, a: Adapter, id: string, state: Option<IobState>): (r: Step)
    ensures r.next == a
    ensures |r.effects| <= 1 && NoStateSubscriptionCalls(r.effects)
    ensures r.effects != [] <==>
              && state.Some? && id in a.tracked.values && id in a.instruments
              && ParseNumberWithNull(state.value.val, parseFloat).Some?
    ensures r.effects != [] ==>
              r.effects[0] == Record(a.instruments[id], ParseNumberWithNull(state.value.val, parseFloat).value,
                                     IobTable2Record(a.tracked.values[id].attributes))
  {
    if state.None? then Step(a, [])
    else if id !in a.tracked.values then Step(a, [])
    else Step(a, RecordStateByIobId(parseFloat, a, id, state.value))
  }

  /** While running, a value is recorded exactly when the id is tracked and
      the value normalizes to a number, and always on the gauge the current
      meter made for that id, never on a stale one. */
  lemma StateChangeRecordsOnLiveGauge(parseFloat: ParseFloat, a: Adapter, id: string, state: Option<IobState>)
    requires Running(a)
    ensures var r := OnStateChange(parseFloat, a, id, state);
            && (r.effects != [] <==>
                  state.Some? && id in a.tracked.values && ParseNumberWithNull(state.value.val, parseFloat).Some?)
            && (r.effects != [] ==>
                  r.effects[0].gauge == Gauge(InstrumentIdentifier(a.tracked.values[id]), a.pipelines))
  {
  }

  /** The `from` value the adapter stamps on states it fetches itself. */
  function AdapterSource(cfg: Config): string {
    "system.adapter." + cfg.namespace
  }

  /** writeInitialValueAsync: `fetched` is what getForeignStateAsync
      returned. A missing state or an untracked id does nothing; otherwise
      the state, stamped with the adapter as its source, is cached in the
      entry and recorded. */
  function WriteInitialValue(cfg: Config, parseFloat: ParseFloat, a: Adapter, id: string, fetched: Option<IobState>): (r: Step)
    requires Inv(a)
    ensures Inv(r.next)
    ensures fetched.None? || id !in a.tracked.values ==> r == Step(a, [])
    // only the cached state of `id` changes
    ensures r.next == a.(tracked := r.next.tracked)
    ensures r.next.tracked.keys == a.tracked.keys && r.next.tracked.values.Keys == a.tracked.values.Keys
    ensures forall k :: k in a.tracked.values ==> SameButState(r.next.tracked.values[k], a.tracked.values[k])
    ensures forall k :: k != id && k in a.tracked.values ==> r.next.tracked.values[k] == a.tracked.values[k]
    // the fetched state is cached, stamped with the adapter as its source, and recorded
    ensures fetched.Some? && id in a.tracked.values ==>
              var stamped := fetched.value.(from := AdapterSource(cfg));
              && r.next.tracked.values[id].state == Some(stamped)
              && r.effects == RecordStateByIobId(parseFloat, a, id, stamped)
  {
    if fetched.None? || id !in a.tracked.values then Step(a, [])
    else
      var stamped := fetched.value.(from := AdapterSource(cfg));
      var next := a.(tracked := JsObject.Put(a.tracked, id, a.tracked.values[id].(state := Some(stamped))));
      Step(next, RecordStateByIobId(parseFloat, next, id, stamped))
  }

  // ---------------------------------------------------------------------
  // Object changes

  /** isTrackedDataPoint, applied to `obj?.common?.custom?.[namespace]`: the
      block exists and has both `aliasId` and `enabled` as own properties. */
  predicate IsTrackedDataPoint(block: Option<CustomBlock>) {
    block.Some? && block.value.hasAliasId && block.value.hasEnabled
  }

  /** The registry mutation an object change starts with. */
  function Mutate(a: Adapter, id: string, block: CustomBlock): (r: Step)
    requires Inv(a)
    ensures Inv(r.next)
  {
    if block.enabled then AddTrackedDataPoint(a, id, block) else RemoveTrackedDataPoint(a, id)
  }

  /** The pipeline rebuild of onObjectChange: the old provider is flushed
      and shut down; if an exporter can be built, a new provider and meter
      are created and every tracked key gets a gauge of the new meter. */
  function Rebuild(cfg: Config, a: Adapter): (r: Step)
    requires Inv(a)
    ensures Inv(r.next)
    ensures r.next.tracked == a.tracked && r.next.subscribeAll == a.subscribeAll
    ensures r.next.settings == a.settings && r.next.connected == a.connected
    ensures NoStateSubscriptionCalls(r.effects) && NoRecords(r.effects)
    ensures forall k :: k in a.instruments && k !in a.tracked.values ==> k in r.next.instruments && r.next.instruments[k] == a.instruments[k]
    ensures r.next.instruments.Keys <= a.instruments.Keys + a.tracked.values.Keys
    ensures !KnownSubProtocol(a.settings.otlProtocol) ==> r == TearDown(a)
    ensures KnownSubProtocol(a.settings.otlProtocol) ==>
              && r.next.pipelines == a.pipelines + 1
              && r.next.meterProvider.Some? && r.next.meterProvider.value.generation == r.next.pipelines
              && r.next.meter.Some? && r.next.meter.value.generation == r.next.pipelines
              && (forall k :: k in a.tracked.values ==>
                    k in r.next.instruments && r.next.instruments[k] == GaugeFor(a.tracked.values[k], r.next.meter.value))
              && r.effects == TearDown(a).effects + [StartPipeline(r.next.meterProvider.value.exporter, r.next.pipelines)]
  {
    var t := TearDown(a);
    var exporter := CreateEndpointAndExporter(a.settings, cfg.headers).exporter;
    if exporter.None? then t
    else
      var p := CreateMeter(cfg, t.next, exporter.value);
      Step(CreateMetricInstruments(p.next), t.effects + p.effects)
  }

  /** The initial-value write of onObjectChange, made only when `seeded`:
      it caches a state in the registry and records it, and nothing else. */
  function Seed(cfg: Config, parseFloat: ParseFloat, a: Adapter, id: string,
                seeded: bool, fetched: Option<IobState>): (r: Step)
    requires Inv(a)
    ensures Inv(r.next)
    ensures r.next == a.(tracked := r.next.tracked)
    ensures r.next.tracked.keys == a.tracked.keys && r.next.tracked.values.Keys == a.tracked.values.Keys
    ensures forall k :: k in a.tracked.values ==> SameButState(r.next.tracked.values[k], a.tracked.values[k])
    ensures forall k :: k != id && k in a.tracked.values ==> r.next.tracked.values[k] == a.tracked.values[k]
    ensures forall i :: 0 <= i < |r.effects| ==> r.effects[i].Record?
  {
    if seeded then WriteInitialValue(cfg, parseFloat, a, id, fetched) else Step(a, [])
  }

  /** What onObjectChange does after the registry mutation: rebuild the
      pipeline and, when it was rebuilt for an enabled datapoint, write the
      initial value. */
  function RebuildAndSeed(cfg: Config, parseFloat: ParseFloat, a: Adapter, id: string,
                          enabled: bool, fetched: Option<IobState>): (r: Step)
    requires Inv(a)
    ensures Inv(r.next)
  {
    var b := Rebuild(cfg, a);
    var w := Seed(cfg, parseFloat, b.next, id, enabled && KnownSubProtocol(a.settings.otlProtocol), fetched);
    Step(w.next, b.effects + w.effects)
  }

  /** The rebuild changes no registry entry except the cached state of
      `id`. */
  lemma RebuildAndSeedKeepsEntries(cfg: Config, parseFloat: ParseFloat, a: Adapter, id: string,
                                   enabled: bool, fetched: Option<IobState>)
    requires Inv(a)
    ensures var r := RebuildAndSeed(cfg, parseFloat, a, id, enabled, fetched);
            && r.next.tracked.keys == a.tracked.keys && r.next.tracked.values.Keys == a.tracked.values.Keys
            && (forall k :: k in a.tracked.values ==> SameButState(r.next.tracked.values[k], a.tracked.values[k]))
            && (forall k :: k != id && k in a.tracked.values ==> r.next.tracked.values[k] == a.tracked.values[k])
  {
    var b := Rebuild(cfg, a);
  }

  /** The rebuild makes no subscription calls, leaves the wildcard flag and
      the settings alone, and keeps the stale gauges in the lookup. */
  lemma RebuildAndSeedFrame(cfg: Config, parseFloat: ParseFloat, a: Adapter, id: string,
                            enabled: bool, fetched: Option<IobState>)
    requires Inv(a)
    ensures var r := RebuildAndSeed(cfg, parseFloat, a, id, enabled, fetched);
            && r.next.subscribeAll == a.subscribeAll && r.next.settings == a.settings
            && NoStateSubscriptionCalls(r.effects)
            && (forall k :: k in a.instruments && k !in a.tracked.values ==>
                  k in r.next.instruments && r.next.instruments[k] == a.instruments[k])
  {
    var b := Rebuild(cfg, a);
    var w := Seed(cfg, parseFloat, b.next, id, enabled && KnownSubProtocol(a.settings.otlProtocol), fetched);
    NoStateSubscriptionCallsAppend(b.effects, w.effects);
  }

  /** Rebuilding on a known sub-protocol leaves the adapter running on a new
      pipeline generation, provided no gauge is newer than the current one. */
  lemma RebuildAndSeedRuns(cfg: Config, parseFloat: ParseFloat, a: Adapter, id: string,
                           enabled: bool, fetched: Option<IobState>)
    requires Inv(a) && KnownSubProtocol(a.settings.otlProtocol)
    requires forall k :: k in a.instruments ==> a.instruments[k].generation <= a.pipelines
    ensures var r := RebuildAndSeed(cfg, parseFloat, a, id, enabled, fetched);
            Running(r.next) && r.next.pipelines == a.pipelines + 1
  {
    var b := Rebuild(cfg, a);
    assert Running(b.next);
    var w := Seed(cfg, parseFloat, b.next, id, enabled, fetched);
    assert w.next.instruments == b.next.instruments && w.next.meter == b.next.meter;
    forall k | k in w.next.tracked.values
      ensures GaugeFor(w.next.tracked.values[k], w.next.meter.value) == GaugeFor(b.next.tracked.values[k], b.next.meter.value)
    {
      assert SameButState(w.next.tracked.values[k], b.next.tracked.values[k]);
    }
    assert GaugesCurrent(w.next);
  }

  /** onObjectChange. `fetched` is what getForeignStateAsync returns for the
      initial value. */
  function OnObjectChange(cfg: Config, parseFloat: ParseFloat, a: Adapter, id: string,
                          block: Option<CustomBlock>, fetched: Option<IobState>): (r: Step)
    requires Inv(a)
    ensures Inv(r.next)
    ensures !IsTrackedDataPoint(block) ==> r == Step(a, [])
  {
    if !IsTrackedDataPoint(block) then Step(a, [])
    else
      var m := Mutate(a, id, block.value);
      var t := RebuildAndSeed(cfg, parseFloat, m.next, id, block.value.enabled, fetched);
      Step(t.next, m.effects + t.effects)
  }

  /** Enabling tracks the id under its real id with the block's settings;
      disabling drops it from the registry but not from the instrument
      lookup. Other registry entries are untouched either way. */
  lemma ObjectChangeUpdatesOnlyItsEntry(cfg: Config, parseFloat: ParseFloat, a: Adapter, id: string,
                                        block: Option<CustomBlock>, fetched: Option<IobState>)
    requires Inv(a) && IsTrackedDataPoint(block)
    ensures var r := OnObjectChange(cfg, parseFloat, a, id, block, fetched);
            && (block.value.enabled ==>
                  && id in r.next.tracked.values
                  && r.next.tracked.values[id].realId == id
                  && r.next.tracked.values[id].aliasId == block.value.aliasId
                  && r.next.tracked.values[id].attributes == block.value.attributes)
            && (!block.value.enabled ==>
                  && id !in r.next.tracked.values
                  && (id in a.instruments ==> id in r.next.instruments))
            && (forall k :: k != id ==> (k in r.next.tracked.values <==> k in a.tracked.values))
            && (forall k :: k != id && k in a.tracked.values ==> r.next.tracked.values[k] == a.tracked.values[k])
  {
    var m := Mutate(a, id, block.value);
    RebuildAndSeedFrame(cfg, parseFloat, m.next, id, block.value.enabled, fetched);
    if !block.value.enabled && id in a.instruments {
      assert m.next.instruments == a.instruments;
      assert id !in m.next.tracked.values;
    }
  }

  /** Wildcard mode survives every object change, and while it is on an
      object change makes no subscribe or unsubscribe call. */
  lemma ObjectChangeKeepsWildcard(cfg: Config, parseFloat: ParseFloat, a: Adapter, id: string,
                                  block: Option<CustomBlock>, fetched: Option<IobState>)
    requires Inv(a) && a.subscribeAll
    ensures var r := OnObjectChange(cfg, parseFloat, a, id, block, fetched);
            r.next.subscribeAll && NoStateSubscriptionCalls(r.effects)
  {
    if IsTrackedDataPoint(block) {
      var m := Mutate(a, id, block.value);
      assert m.effects == [];
      RebuildAndSeedFrame(cfg, parseFloat, m.next, id, block.value.enabled, fetched);
    }
  }

  /** Every object change keeps the host's individual subscriptions in step
      with the registry. */
  lemma ObjectChangeKeepsSubscriptionsInSync(cfg: Config, parseFloat: ParseFloat, a: Adapter, id: string,
                                             block: Option<CustomBlock>, fetched: Option<IobState>, net: set<string>)
    requires Inv(a) && InSync(a, net)
    ensures var r := OnObjectChange(cfg, parseFloat, a, id, block, fetched);
            InSync(r.next, Subscribed(net, r.effects))
  {
    if IsTrackedDataPoint(block) {
      var r := OnObjectChange(cfg, parseFloat, a, id, block, fetched);
      var m := Mutate(a, id, block.value);
      var t := RebuildAndSeed(cfg, parseFloat, m.next, id, block.value.enabled, fetched);
      if block.value.enabled {
        AddKeepsSubscriptionsInSync(a, id, block.value, net);
      } else {
        RemoveKeepsSubscriptionsInSync(a, id, net);
      }
      RebuildAndSeedFrame(cfg, parseFloat, m.next, id, block.value.enabled, fetched);
      SubscribedAppend(net, m.effects, t.effects);
      SubscribedIgnoresOtherCalls(Subscribed(net, m.effects), t.effects);
    }
  }

  /** While running, an object change rebuilds the pipeline in order: the
      subscription calls of the registry change, then flush and shutdown
      of the old provider, then the new provider, then at most the initial
      value's record. */
  lemma ObjectChangeFlushesBeforeReplacing(cfg: Config, parseFloat: ParseFloat, a: Adapter, id: string,
                                           block: Option<CustomBlock>, fetched: Option<IobState>)
    returns (i: nat)
    requires Running(a) && IsTrackedDataPoint(block)
    ensures var r := OnObjectChange(cfg, parseFloat, a, id, block, fetched);
            && i + 3 <= |r.effects|
            && r.effects[i] == ForceFlush(a.pipelines)
            && r.effects[i + 1] == Shutdown(a.pipelines)
            && r.effects[i + 2].StartPipeline? && r.effects[i + 2].generation == a.pipelines + 1
            && (forall j :: 0 <= j < i ==> r.effects[j].SubscribeStates? || r.effects[j].UnsubscribeStates?)
            && (forall j :: i + 3 <= j < |r.effects| ==> r.effects[j].Record?)
  {
    var m := Mutate(a, id, block.value);
    MutateMakesOnlySubscriptionCalls(a, id, block.value);
    var t := RebuildAndSeed(cfg, parseFloat, m.next, id, block.value.enabled, fetched);
    RebuildAndSeedOrder(cfg, parseFloat, m.next, id, block.value.enabled, fetched);
    assert OnObjectChange(cfg, parseFloat, a, id, block, fetched).effects == m.effects + t.effects;
    i := |m.effects|;
  }

  lemma MutateMakesOnlySubscriptionCalls(a: Adapter, id: string, block: CustomBlock)
    requires Inv(a)
    ensures var m := Mutate(a, id, block);
            && m.next.meterProvider == a.meterProvider && m.next.settings == a.settings
            && m.next.pipelines == a.pipelines
            && forall j :: 0 <= j < |m.effects| ==> m.effects[j].SubscribeStates? || m.effects[j].UnsubscribeStates?
  {
    if block.enabled && !a.subscribeAll && id !in a.tracked.values && |a.tracked.keys| >= IndividualLimit - 1 {
      var unsubs := PerRealId(a.tracked.values, a.tracked.keys, false);
      assert forall j :: 0 <= j < |unsubs| ==> unsubs[j].UnsubscribeStates?;
    }
  }

  lemma RebuildAndSeedOrder(cfg: Config, parseFloat: ParseFloat, a: Adapter, id: string,
                            enabled: bool, fetched: Option<IobState>)
    requires Inv(a) && KnownSubProtocol(a.settings.otlProtocol) && a.meterProvider.Some?
    ensures var t := RebuildAndSeed(cfg, parseFloat, a, id, enabled, fetched);
            && 3 <= |t.effects|
            && t.effects[0] == ForceFlush(a.meterProvider.value.generation)
            && t.effects[1] == Shutdown(a.meterProvider.value.generation)
            && t.effects[2].StartPipeline? && t.effects[2].generation == a.pipelines + 1
            && (forall j :: 3 <= j < |t.effects| ==> t.effects[j].Record?)
  {
    var b := Rebuild(cfg, a);
    var g := a.meterProvider.value.generation;
    var start := StartPipeline(b.next.meterProvider.value.exporter, a.pipelines + 1);
    assert b.effects == [ForceFlush(g), Shutdown(g), start];
    var w := Seed(cfg, parseFloat, b.next, id, enabled, fetched);
    assert RebuildAndSeed(cfg, parseFloat, a, id, enabled, fetched).effects == b.effects + w.effects;
  }

  /** A running adapter keeps running through any object change: the
      provider is replaced by one of the next generation, every tracked key
      has that generation's gauge, and the gauges left behind are stale. */
  lemma ObjectChangeKeepsRunning(cfg: Config, parseFloat: ParseFloat, a: Adapter, id: string,
                                 block: Option<CustomBlock>, fetched: Option<IobState>)
    requires Running(a)
    ensures var r := OnObjectChange(cfg, parseFloat, a, id, block, fetched);
            && Running(r.next)
            && r.next.pipelines == if IsTrackedDataPoint(block) then a.pipelines + 1 else a.pipelines
  {
    if IsTrackedDataPoint(block) {
      var m := Mutate(a, id, block.value);
      MutateMakesOnlySubscriptionCalls(a, id, block.value);
      assert m.next.instruments == a.instruments;
      forall k | k in m.next.instruments ensures m.next.instruments[k].generation <= m.next.pipelines {
        if k in a.tracked.values {
          assert a.instruments[k] == GaugeFor(a.tracked.values[k], a.meter.value);
        }
      }
      RebuildAndSeedRuns(cfg, parseFloat, m.next, id, block.value.enabled, fetched);
    }
  }

  /** While running, enabling a datapoint whose state exists caches that
      state, stamped with the adapter as its source, and ends by recording
      its value on the new generation's gauge for the datapoint, provided
      the value normalizes to a number; otherwise nothing is recorded. */
  lemma ObjectChangeRecordsInitialValue(cfg: Config, parseFloat: ParseFloat, a: Adapter, id: string,
                                        block: Option<CustomBlock>, fetched: Option<IobState>)
    requires Running(a) && IsTrackedDataPoint(block) && block.value.enabled && fetched.Some?
    ensures var r := OnObjectChange(cfg, parseFloat, a, id, block, fetched);
            var value := ParseNumberWithNull(fetched.value.val, parseFloat);
            && r.next.tracked.values[id].state == Some(fetched.value.(from := AdapterSource(cfg)))
            && (value.Some? <==> r.effects[|r.effects| - 1].Record?)
            && (value.Some? ==>
                  r.effects[|r.effects| - 1]
                  == Record(Gauge(InstrumentIdentifier(EntryFor(id, block.value, None, None)), a.pipelines + 1),
                            value.value, IobTable2Record(block.value.attributes)))
  {
    var m := Mutate(a, id, block.value);
    MutateMakesOnlySubscriptionCalls(a, id, block.value);
    var b := Rebuild(cfg, m.next);
    assert id in b.next.tracked.values;
    var w := WriteInitialValue(cfg, parseFloat, b.next, id, fetched);
    var r := OnObjectChange(cfg, parseFloat, a, id, block, fetched);
    assert r.effects == m.effects + (b.effects + w.effects);
    assert |b.effects| >= 1;
    assert InstrumentIdentifier(b.next.tracked.values[id]) == InstrumentIdentifier(EntryFor(id, block.value, None, None));
    assert b.next.instruments[id] == Gauge(InstrumentIdentifier(EntryFor(id, block.value, None, None)), a.pipelines + 1);
  }
}
