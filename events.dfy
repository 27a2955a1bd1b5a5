/** The event-listener registry and the bridge from the widget's internal
    events to the caller's listeners (packages/guard-core-v6/src/index.tsx,
    eventListeners, on, _render). */
module Events {
  import opened Wrappers
  import opened JsValues
  import opened GuardOptions

  /** A registered listener, by identity. */
  type HandlerId = nat

  /** Event name (kebab-case, as in `GuardEventsCamelToKebabMapping`) to its
      listeners in registration order. */
  type Registry = map<string, seq<HandlerId>>

  const CloseEvent := "close"

  /** The `reduce` that builds `eventListeners`: every mapped event name with
      an empty listener list, and no other name. */
  function EmptyRegistry(names: seq<string>): (r: Registry)
    ensures forall n :: n in r <==> n in names
    ensures forall n :: n in r ==> r[n] == []
  {
    if |names| == 0 then map[]
    else EmptyRegistry(names[..|names| - 1])[names[|names| - 1] := []]
  }

  /** `on(evt, handler)`, i.e. `eventListeners[evt].push(handler)`: the
      handler goes to the end of `evt`'s list and nothing else changes; an
      event name outside the registry makes `push` throw on `undefined`. */
  function Register(reg: Registry, evt: string, h: HandlerId): (r: Result<Registry, Error>)
    ensures r.Failure? <==> evt !in reg
    ensures r.Failure? ==> r.error == UnknownEvent(evt)
    ensures r.Success? ==>
      && r.value.Keys == reg.Keys
      && r.value[evt] == reg[evt] + [h]
      && forall e :: e in reg && e != evt ==> r.value[e] == reg[e]
  {
    if evt in reg then Success(reg[evt := reg[evt] + [h]]) else Failure(UnknownEvent(evt))
  }

  /** `listeners.map(item => item(...rest))`: each listener called once, in
      registration order; `None` is a `null` or `undefined` return. */
  function Results(listeners: seq<HandlerId>, invoke: HandlerId -> Option<Value>): (rs: seq<Option<Value>>)
    ensures |rs| == |listeners|
    ensures forall i :: 0 <= i < |listeners| ==> rs[i] == invoke(listeners[i])
  {
    seq(|listeners|, i requires 0 <= i < |listeners| => invoke(listeners[i]))
  }

  /** `results.slice(-1)[0] ?? true`: the last result, unless there is none
      or it is `null`/`undefined`. */
  function LastOrTrue(results: seq<Option<Value>>): (v: Value)
    ensures |results| == 0 ==> v == Bool(true)
    ensures |results| > 0 ==> v == results[|results| - 1].GetOr(Bool(true))
  {
    if |results| > 0 && results[|results| - 1].Some? then results[|results| - 1].value
    else Bool(true)
  }

  /** What a bridged handler returns to the widget for `evt`'s listeners. */
  function BridgeResult(listeners: seq<HandlerId>, invoke: HandlerId -> Option<Value>): Value {
    LastOrTrue(Results(listeners, invoke))
  }

  /** The bridged value is decided by the last listener alone: its result when
      it returns one, `true` when it returns `null`/`undefined` or when no
      listener is registered. */
  lemma BridgeResultIsLastListener(listeners: seq<HandlerId>, invoke: HandlerId -> Option<Value>)
    ensures |listeners| == 0 ==> BridgeResult(listeners, invoke) == Bool(true)
    ensures |listeners| > 0 ==>
      BridgeResult(listeners, invoke) == invoke(listeners[|listeners| - 1]).GetOr(Bool(true))
  {
  }

  /** Appending a listener makes it the one whose result is bridged back. */
  lemma RegisterMakesLast(reg: Registry, evt: string, h: HandlerId, invoke: HandlerId -> Option<Value>)
    requires evt in reg
    ensures var r := Register(reg, evt, h).value;
      && Results(r[evt], invoke) == Results(reg[evt], invoke) + [invoke(h)]
      && BridgeResult(r[evt], invoke) == invoke(h).GetOr(Bool(true))
  {
    var r := Register(reg, evt, h).value;
    assert r[evt] == reg[evt] + [h];
  }

  /** Two listeners A then B on a freshly built registry: the bridge calls A
      then B and returns B's result, or `true` when B returns nothing. */
  lemma {:induction false} TwoListenersInOrder(names: seq<string>, evt: string, a: HandlerId, b: HandlerId,
                                                invoke: HandlerId -> Option<Value>)
    requires evt in names
    ensures var r1 := Register(EmptyRegistry(names), evt, a);
      && r1.Success?
      && var r2 := Register(r1.value, evt, b);
      && r2.Success?
      && r2.value[evt] == [a, b]
      && Results(r2.value[evt], invoke) == [invoke(a), invoke(b)]
      && BridgeResult(r2.value[evt], invoke) == invoke(b).GetOr(Bool(true))
  {
    var reg := EmptyRegistry(names);
    assert evt in reg && reg[evt] == [];
    var r1 := Register(reg, evt, a).value;
    assert r1[evt] == [a];
    var r2 := Register(r1, evt, b).value;
    assert r2[evt] == [a, b];
  }
}
