/** The subscription manager: individual state subscriptions while the
    registry is small, one wildcard subscription from the twentieth tracked
    datapoint on, and never back. Also holds the registry's add and remove
    transitions, which drive it. */
module Subscriptions {
  import opened Wrappers
  import opened AdapterState
  import JsObject

  /** Registries of fewer entries than this are subscribed individually. */
  const IndividualLimit: nat := 20

  /** `subscribeForeignStates(p)` or `unsubscribeForeignStates(p)`. */
  function StatesCall(subscribe: bool, pattern: string): Effect {
    if subscribe then SubscribeStates(pattern) else UnsubscribeStates(pattern)
  }

  /** One (un)subscribe call per key, on that entry's real id, in key order. */
  function PerRealId(entries: map<string, Entry>, keys: seq<string>, subscribe: bool): (r: seq<Effect>)
    requires forall i :: 0 <= i < |keys| ==> keys[i] in entries
    ensures |r| == |keys|
    ensures forall i :: 0 <= i < |r| ==> r[i] == StatesCall(subscribe, entries[keys[i]].realId)
  {
    if |keys| == 0 then []
    else [StatesCall(subscribe, entries[keys[0]].realId)] + PerRealId(entries, keys[1..], subscribe)
  }

  /** Over a registry's own keys, PerRealId makes exactly one call per
      tracked id and no other call. */
  lemma {:induction false} PerRealIdOncePerEntry(entries: map<string, Entry>, keys: seq<string>, subscribe: bool)
    requires JsObject.Distinct(keys)
    requires forall i :: 0 <= i < |keys| ==> keys[i] in entries && entries[keys[i]].realId == keys[i]
    ensures forall p :: multiset(PerRealId(entries, keys, subscribe))[StatesCall(subscribe, p)]
                        == (if p in keys then 1 else 0)
    ensures forall e :: e in PerRealId(entries, keys, subscribe) ==>
              if subscribe then e.SubscribeStates? else e.UnsubscribeStates?
    decreases |keys|
  {
    if |keys| > 0 {
      var rest := PerRealId(entries, keys[1..], subscribe);
      PerRealIdOncePerEntry(entries, keys[1..], subscribe);
      assert PerRealId(entries, keys, subscribe) == [StatesCall(subscribe, keys[0])] + rest;
      assert keys[0] !in keys[1..];
      assert forall p :: p in keys <==> p == keys[0] || p in keys[1..];
    }
  }

  /** The set of individually subscribed patterns after `effects`, starting
      from `net`: a subscribe adds its pattern, an unsubscribe removes it. */
  function Subscribed(net: set<string>, effects: seq<Effect>): set<string>
    decreases |effects|
  {
    if |effects| == 0 then net
    else
      var e := effects[0];
      var net' := if e.SubscribeStates? then net + {e.pattern}
                  else if e.UnsubscribeStates? then net - {e.pattern}
                  else net;
      Subscribed(net', effects[1..])
  }

  lemma {:induction false} SubscribedAppend(net: set<string>, e1: seq<Effect>, e2: seq<Effect>)
    ensures Subscribed(net, e1 + e2) == Subscribed(Subscribed(net, e1), e2)
    decreases |e1|
  {
    if |e1| > 0 {
      assert (e1 + e2)[0] == e1[0];
      assert (e1 + e2)[1..] == e1[1..] + e2;
      var e := e1[0];
      var net' := if e.SubscribeStates? then net + {e.pattern}
                  else if e.UnsubscribeStates? then net - {e.pattern}
                  else net;
      SubscribedAppend(net', e1[1..], e2);
    } else {
      assert e1 + e2 == e2;
    }
  }

  /** Effects that make no state subscription calls leave the set alone. */
  lemma {:induction false} SubscribedIgnoresOtherCalls(net: set<string>, effects: seq<Effect>)
    requires NoStateSubscriptionCalls(effects)
    ensures Subscribed(net, effects) == net
    decreases |effects|
  {
    if |effects| > 0 {
      SubscribedIgnoresOtherCalls(net, effects[1..]);
    }
  }

  /** Calls other than state subscriptions around `mid` do not matter. */
  lemma SubscribedAround(net: set<string>, pre: seq<Effect>, mid: seq<Effect>, post: seq<Effect>)
    requires NoStateSubscriptionCalls(pre) && NoStateSubscriptionCalls(post)
    ensures Subscribed(net, pre + mid + post) == Subscribed(net, mid)
  {
    SubscribedAppend(net, pre + mid, post);
    SubscribedAppend(net, pre, mid);
    SubscribedIgnoresOtherCalls(net, pre);
    SubscribedIgnoresOtherCalls(Subscribed(net, mid), post);
  }

  lemma {:induction false} SubscribedOfPerRealId(net: set<string>, entries: map<string, Entry>, keys: seq<string>, subscribe: bool)
    requires forall i :: 0 <= i < |keys| ==> keys[i] in entries && entries[keys[i]].realId == keys[i]
    ensures Subscribed(net, PerRealId(entries, keys, subscribe))
            == if subscribe then net + set k | k in keys else net - set k | k in keys
    decreases |keys|
  {
    if |keys| > 0 {
      var net' := if subscribe then net + {keys[0]} else net - {keys[0]};
      SubscribedOfPerRealId(net', entries, keys[1..], subscribe);
      assert (set k | k in keys) == {keys[0]} + set k | k in keys[1..];
    }
  }

  /** The host's individual subscriptions match the registry: exactly the
      wildcard once it is active, exactly the tracked ids before. */
  ghost predicate InSync(a: Adapter, net: set<string>) {
    if a.subscribeAll then net == {Wildcard} else net == a.tracked.values.Keys
  }

  /** subscribeToStates: with fewer than twenty entries, one subscribe per
      entry's real id; otherwise a single wildcard subscribe and wildcard
      mode on. Only state subscriptions are made either way. */
  function SubscribeToStates(a: Adapter): (r: Step)
    requires Inv(a)
    ensures r.next == a.(subscribeAll := r.next.subscribeAll)
    ensures forall i :: 0 <= i < |r.effects| ==> r.effects[i].SubscribeStates?
    ensures |a.tracked.keys| < IndividualLimit ==> r.next == a
    ensures |a.tracked.keys| >= IndividualLimit ==>
              r.next == a.(subscribeAll := true) && r.effects == [SubscribeStates(Wildcard)]
    ensures !a.subscribeAll ==> InSync(r.next, Subscribed({}, r.effects))
  {
    if |a.tracked.keys| < IndividualLimit then
      var effects := PerRealId(a.tracked.values, a.tracked.keys, true);
      SubscribedOfPerRealId({}, a.tracked.values, a.tracked.keys, true);
      Step(a, effects)
    else
      Step(a.(subscribeAll := true), [SubscribeStates(Wildcard)])
  }

  /** Below the limit, subscribeToStates subscribes each tracked id exactly
      once and nothing else. */
  lemma SubscribeToStatesOncePerEntry(a: Adapter)
    requires Inv(a) && |a.tracked.keys| < IndividualLimit
    ensures var r := SubscribeToStates(a);
            forall p :: multiset(r.effects)[SubscribeStates(p)] == if p in a.tracked.values then 1 else 0
  {
    PerRealIdOncePerEntry(a.tracked.values, a.tracked.keys, true);
  }

  /** The entry addTrackedDataPoint stores for `id`. */
  function EntryFor(id: string, block: CustomBlock, state: Option<IobState>, skipped: Option<IobState>): Entry {
    Entry(block.aliasId, block.enabled, block.attributes, id, state, skipped)
  }

  /** addTrackedDataPoint */
  function AddTrackedDataPoint(a: Adapter, id: string, block: CustomBlock): (r: Step)
    requires Inv(a)
    ensures Inv(r.next)
    // the entry: keyed by the real id, settings from the block, cached values carried over
    ensures id in r.next.tracked.values
    ensures var e := r.next.tracked.values[id];
            && e.realId == id && e.aliasId == block.aliasId && e.attributes == block.attributes
            && e.state == (if id in a.tracked.values then a.tracked.values[id].state else None)
            && e.skipped == (if id in a.tracked.values then a.tracked.values[id].skipped else None)
    // nothing else changes
    ensures forall k :: k != id ==> (k in r.next.tracked.values <==> k in a.tracked.values)
    ensures forall k :: k != id && k in a.tracked.values ==> r.next.tracked.values[k] == a.tracked.values[k]
    ensures r.next == a.(tracked := r.next.tracked, subscribeAll := r.next.subscribeAll)
    // the subscription calls are decided on the registry as it was
    ensures r.effects == AddSubscriptionCalls(a, id).effects
    ensures r.next.subscribeAll == AddSubscriptionCalls(a, id).next.subscribeAll
    // wildcard mode is a ratchet, and silences subscription calls
    ensures a.subscribeAll ==> r.next.subscribeAll && r.effects == []
  {
    var calls := AddSubscriptionCalls(a, id);
    var isNew := id !in a.tracked.values;
    var state := if isNew then None else a.tracked.values[id].state;
    var skipped := if isNew then None else a.tracked.values[id].skipped;
    var tracked := JsObject.Put(a.tracked, id, EntryFor(id, block, state, skipped));
    Step(a.(subscribeAll := calls.next.subscribeAll, tracked := tracked), calls.effects)
  }

  /** The subscription half of addTrackedDataPoint, decided before the
      entry is stored. */
  function AddSubscriptionCalls(a: Adapter, id: string): (r: Step)
    requires Inv(a)
    ensures r.next == a.(subscribeAll := r.next.subscribeAll)
    ensures a.subscribeAll || id in a.tracked.values ==>
              r.next.subscribeAll == a.subscribeAll && r.effects == []
    ensures id !in a.tracked.values && !a.subscribeAll && |a.tracked.keys| < IndividualLimit - 1 ==>
              !r.next.subscribeAll && r.effects == [SubscribeStates(id)]
    ensures id !in a.tracked.values && !a.subscribeAll && |a.tracked.keys| >= IndividualLimit - 1 ==>
              && r.next.subscribeAll
              && r.effects == PerRealId(a.tracked.values, a.tracked.keys, false) + [SubscribeStates(Wildcard)]
  {
    if a.subscribeAll || id in a.tracked.values then Step(a, [])
    else if |a.tracked.keys| >= IndividualLimit - 1 then
      Step(a.(subscribeAll := true), PerRealId(a.tracked.values, a.tracked.keys, false) + [SubscribeStates(Wildcard)])
    else Step(a, [SubscribeStates(id)])
  }

  /** removeTrackedDataPoint */
  function RemoveTrackedDataPoint(a: Adapter, id: string): (r: Step)
    requires Inv(a)
    ensures Inv(r.next)
    ensures id !in a.tracked.values ==> r == Step(a, [])
    ensures r.next.tracked.values == a.tracked.values - {id}
    // the instrument lookup, the wildcard flag and everything else stay as they were
    ensures r.next == a.(tracked := r.next.tracked)
    ensures id in a.tracked.values ==>
              r.effects == if a.subscribeAll then [] else [UnsubscribeStates(id)]
  {
    if id !in a.tracked.values then Step(a, [])
    else
      var effects := if a.subscribeAll then [] else [UnsubscribeStates(id)];
      Step(a.(tracked := JsObject.Delete(a.tracked, id)), effects)
  }

  /** Adding keeps the host's subscriptions in step with the registry. */
  lemma AddKeepsSubscriptionsInSync(a: Adapter, id: string, block: CustomBlock, net: set<string>)
    requires Inv(a) && InSync(a, net)
    ensures var r := AddTrackedDataPoint(a, id, block);
            InSync(r.next, Subscribed(net, r.effects))
  {
    var r := AddTrackedDataPoint(a, id, block);
    assert r.next.tracked.values.Keys == a.tracked.values.Keys + {id};
    if a.subscribeAll || id in a.tracked.values {
      assert r.effects == [];
    } else if |a.tracked.keys| < IndividualLimit - 1 {
      assert r.effects == [SubscribeStates(id)];
      assert Subscribed(net, r.effects) == Subscribed(net + {id}, []);
    } else {
      RatchetLeavesOnlyWildcard(a, id, net);
      assert r.effects == PerRealId(a.tracked.values, a.tracked.keys, false) + [SubscribeStates(Wildcard)];
    }
  }

  lemma RatchetLeavesOnlyWildcard(a: Adapter, id: string, net: set<string>)
    requires Inv(a) && !a.subscribeAll && net == a.tracked.values.Keys
    ensures Subscribed(net, PerRealId(a.tracked.values, a.tracked.keys, false) + [SubscribeStates(Wildcard)])
            == {Wildcard}
  {
    var unsubs := PerRealId(a.tracked.values, a.tracked.keys, false);
    SubscribedAppend(net, unsubs, [SubscribeStates(Wildcard)]);
    SubscribedOfPerRealId(net, a.tracked.values, a.tracked.keys, false);
    assert (set k | k in a.tracked.keys) == net;
    assert Subscribed(net, unsubs) == {};
    assert Subscribed({}, [SubscribeStates(Wildcard)]) == Subscribed({Wildcard}, []);
  }

  /** Adding the twentieth datapoint outside wildcard mode unsubscribes
      every tracked id exactly once, subscribes the wildcard exactly once as
      the last call, and subscribes nothing else: in particular not the new
      id. */
  lemma TwentiethAddSwitchesToWildcard(a: Adapter, id: string, block: CustomBlock)
    requires Inv(a) && !a.subscribeAll
    requires id !in a.tracked.values && |a.tracked.keys| >= IndividualLimit - 1
    ensures var r := AddTrackedDataPoint(a, id, block);
            && r.next.subscribeAll
            && |r.effects| == |a.tracked.keys| + 1
            && r.effects[|r.effects| - 1] == SubscribeStates(Wildcard)
            && (forall p :: multiset(r.effects)[UnsubscribeStates(p)] == if p in a.tracked.values then 1 else 0)
            && (forall p :: p != Wildcard ==> multiset(r.effects)[SubscribeStates(p)] == 0)
  {
    var r := AddTrackedDataPoint(a, id, block);
    assert r.effects == PerRealId(a.tracked.values, a.tracked.keys, false) + [SubscribeStates(Wildcard)];
    UnsubscribeEachThenWildcard(a.tracked.values, a.tracked.keys);
  }

  lemma UnsubscribeEachThenWildcard(entries: map<string, Entry>, keys: seq<string>)
    requires JsObject.Distinct(keys)
    requires forall i :: 0 <= i < |keys| ==> keys[i] in entries && entries[keys[i]].realId == keys[i]
    ensures var e := PerRealId(entries, keys, false) + [SubscribeStates(Wildcard)];
            && (forall p :: multiset(e)[UnsubscribeStates(p)] == if p in keys then 1 else 0)
            && (forall p :: p != Wildcard ==> multiset(e)[SubscribeStates(p)] == 0)
  {
    var unsubs := PerRealId(entries, keys, false);
    var e := unsubs + [SubscribeStates(Wildcard)];
    PerRealIdOncePerEntry(entries, keys, false);
    assert multiset(e) == multiset(unsubs) + multiset{SubscribeStates(Wildcard)};
    forall p ensures multiset(e)[UnsubscribeStates(p)] == if p in keys then 1 else 0 {
      assert multiset(unsubs)[StatesCall(false, p)] == if p in keys then 1 else 0;
    }
    forall p | p != Wildcard ensures multiset(e)[SubscribeStates(p)] == 0 {
      assert SubscribeStates(p) !in unsubs;
    }
  }

  /** Removing keeps the host's subscriptions in step with the registry. */
  lemma RemoveKeepsSubscriptionsInSync(a: Adapter, id: string, net: set<string>)
    requires Inv(a) && InSync(a, net)
    ensures var r := RemoveTrackedDataPoint(a, id);
            InSync(r.next, Subscribed(net, r.effects))
  {
  }
}
