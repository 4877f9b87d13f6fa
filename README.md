# Thing: a verified model of the in-memory Thing of node-wot

A Thing is the in-process model of one network-addressable device or service. It has a
name, fixed when it is constructed, and three string-keyed maps:

- `propStates`: property name to current value;
- `propListeners`: property name to the ordered list of update listeners;
- `actionHandlers`: action name to a handler, or to `null` for an action declared but not bound.

Every operation reads or writes one entry of these maps. The model follows the code of
`src/thing.ts` as written, including behaviour that differs from what its method names
and doc comments suggest:

- A property "exists" for `getProperty` and `setProperty` when its current value is truthy,
  not when its name is a key. A property declared without a truthy initial value holds
  `null` and can be neither read nor written. Writing a falsy value (`0`, `""`, `false`,
  `null`, ...) to a live property succeeds, and after that the property can be neither read
  nor written until it is declared again with a truthy value.
- `setProperty` never calls the listeners registered with `onUpdateProperty`. They are
  stored and never called, although the doc comment of `onUpdateProperty`
  (src/thing.ts:95) describes them as called on every change with (newValue, oldValue).
- `onInvokeAction` binds a handler even to an action that was never declared.
  `invokeAction` rejects in the same way ("No handler for ...") for an unbound action and
  for an undeclared one.
- The event operations (`addEvent`, `emitEvent`, `addListener`, `removeListener`,
  `removeAllListeners`) change nothing and return the Thing or nothing; no per-event
  listener list exists. `removeProperty`, `removeAction`
  and `removeEvent` always return `false`, even when they delete something.

Layout:

- `values.dfy` (module `Values`): JavaScript values, `Truthy` (the test `if (v)` makes),
  and `Option` and `Result`. A promise that resolves or rejects is modelled as `Ok(v)` or
  `Err(message)`.
- `thing_model.dfy` (module `ThingModel`): the state as a value (`ThingState`) and one
  function per operation. It also holds the laws that relate one operation to the next.
- `thing_trace.dfy` (module `ThingTrace`): arbitrary sequences of calls (`Op`, `Step`,
  `Run`, `Replies`), with lemmas proved by induction that hold along any sequence.
- `thing.dfy` (module `Things`): the class `Thing` with the three maps as fields. Each
  method states its effect field by field and is proved equal to the matching
  `ThingModel` function, so the lemmas about the model apply to the class.
  `TemperatureScenario` and `RebootScenario` are clients that drive the class using only
  the method contracts: a property declared with 20, written with 25 and read back, and
  an action invoked before and after a handler is bound.

Handlers are pure functions `Value -> Value`. Listeners are values of type
`(Value, Value) -> ()`; the code only stores them. An omitted optional argument is passed
as `Undefined`. `Thing.EmitEvent` has no result and no effect, so it has no contract.

## Model

| member | source | states |
|---|---|---|
| `Values.FalsyValues` | src/thing.ts:38 | the values `if (v)` rejects are exactly `undefined`, `null`, `false`, `0`, `NaN` and `""` |
| `Things.Thing.constructor` | src/thing.ts:5-14 | a new Thing has the given name and three empty maps, which is the initial model state and is well formed |
| `Things.Thing.InvokeAction` | src/thing.ts:20-28 | resolves with `handler(parameter)` exactly when the action's slot holds a handler; rejects with "No handler for " + name both when the slot holds null and when the name is absent; its own code reads only (handlers are modelled as pure) |
| `Things.Thing.SetProperty` | src/thing.ts:36-45 | succeeds exactly when the current value is truthy: the value becomes `newValue` and the result is `newValue`; on failure it rejects with "No property called " + name and the value map is untouched; listeners and handlers never change |
| `Things.Thing.GetProperty` | src/thing.ts:51-59 | resolves with the stored value exactly when the key is present and its value truthy; otherwise rejects with "No property called " + name; reads only |
| `Things.Thing.AddListener` | src/thing.ts:66-68 | returns this Thing and changes nothing |
| `Things.Thing.RemoveListener` | src/thing.ts:70-72 | returns this Thing and changes nothing |
| `Things.Thing.RemoveAllListeners` | src/thing.ts:74-76 | returns this Thing and changes nothing |
| `Things.Thing.OnInvokeAction` | src/thing.ts:84-90 | the action's slot holds the new handler, whether or not the action was declared; every other entry is unchanged |
| `Things.Thing.OnUpdateProperty` | src/thing.ts:97-104 | when the property has a listener list, the listener is appended at its end; otherwise nothing changes |
| `Things.Thing.AddProperty` | src/thing.ts:118-125 | the value becomes the initial value if truthy, else null; the listener list is reset to empty; actions unchanged |
| `Things.Thing.AddAction` | src/thing.ts:133-139 | the action's slot holds null, unbinding any earlier handler; properties unchanged |
| `Things.Thing.AddEvent` | src/thing.ts:144 | returns this Thing and changes nothing |
| `Things.Thing.RemoveProperty` | src/thing.ts:149-153 | deletes the name from the value map and the listener map and returns false |
| `Things.Thing.RemoveAction` | src/thing.ts:158-161 | deletes the name from the handler map and returns false |
| `Things.Thing.RemoveEvent` | src/thing.ts:166 | returns false and changes nothing |
| `ThingModel.GetAfterSet` | src/thing.ts:36-59 | after a successful set, get returns the new value if it is truthy and rejects otherwise; every other property reads as before |
| `ThingModel.FalsySetKillsProperty` | src/thing.ts:38-39 | writing a falsy value to a live property succeeds, and the next write to it, of any value, is rejected |
| `ThingModel.AfterAddProperty` | src/thing.ts:118-120 | after declaration the value is the truthy initial value or null and the listener list is empty; get returns the initial value exactly when it is truthy; with a falsy initial value set is rejected; a listener registered next is the list's only element |
| `ThingModel.AfterRemoveProperty` | src/thing.ts:149-153 | after removal the name is in neither property map; get and set reject, and set and onUpdateProperty change nothing |
| `ThingModel.InvokeAfterBind` | src/thing.ts:84-90 | after binding `h`, invoking the action yields `h(p)`; invoking any other action yields what it did before |
| `ThingModel.InvokeAfterAddOrRemoveAction` | src/thing.ts:133-134 | after addAction (first or repeated) or removeAction, invoking the action rejects with "No handler for " + name |
| `ThingModel.ListenerAppended` | src/thing.ts:97-99 | in a well-formed state, a declared property always takes a new listener, appended after the earlier ones |
| `ThingTrace.StepPreservesWf` | src/thing.ts:118-153 | every single call keeps the keys of the value map and the listener map equal, and keeps the name |
| `ThingTrace.RunPreservesWf` | src/thing.ts:118-153 | along any sequence of calls the two property maps keep the same keys and the name never changes |
| `ThingTrace.ReachableWf` | src/thing.ts:5-14 | every state reachable from a new Thing has equal key sets in its property maps and the name it was constructed with |
| `ThingTrace.PropertyFrame` | src/thing.ts:36-153 | calls that do not name property `n` leave its value and its listener list, present or absent, as they were |
| `ThingTrace.ActionFrame` | src/thing.ts:84-161 | calls that do not name action `n` leave its handler slot, present or absent, as it was |
| `ThingTrace.LastBindingWins` | src/thing.ts:20-28 | after `onInvokeAction(n, h)`, and until `n` is bound, declared or removed again, invoking `n` with `p` yields `h(p)` |
| `ThingTrace.DeadPropertyStaysDead` | src/thing.ts:38-53 | a property whose value is falsy or absent stays unreadable until it is declared with a truthy initial value, and every get or set of it in between is rejected with "No property called " + name |
| `ThingTrace.ListenersInOrder` | src/thing.ts:97-104 | until a property is declared again or removed, its listener list is the old list followed by every listener registered for it since, in call order |
| `ThingTrace.ListenersSinceDeclaration` | src/thing.ts:118-120 | after `addProperty(n, ...)` and until the next declaration or removal of `n`, the listener list is exactly the listeners registered since, in call order |
| `ThingTrace.FalsyWriteKillsProperty` | src/thing.ts:36-59 | writing a falsy value to a live property resolves with that value; from then on, until the property is declared again with a truthy initial value, it stays unreadable and every get or set of it is rejected with "No property called " + name |
| `ThingTrace.QueriesChangeNothing` | src/thing.ts:20-76 | any sequence of gets, invocations, removeEvent calls and event-stub calls leaves the whole state unchanged, as far as the Thing's own code goes (handlers are modelled as pure) |

## Left out

- `getDescription` (src/thing.ts:109-111) hands the Thing to `serializeTD` in `./tdparser`, which is not part of this model.
- `src/protocols/protocol-client.ts` declares only interfaces: the four resource verbs, start/stop, the supported schemes, and a client factory. It has no behaviour to model. Transport implementations are not part of this model.
- The maps are plain JavaScript objects, so they also "contain" keys inherited from `Object.prototype`. Examples are `constructor`, `toString` and `__proto__`, which can make `invokeAction("constructor", p)` call `Object(p)`. The model treats the maps as holding only the keys the Thing stored.
- A handler that throws, or that returns a promise, would reject the promise or be adopted by it. Handlers are modelled as pure total functions, so neither case is captured.
- Things.Thing.InvokeAction: "changes nothing" describes only the Thing's own code. The handler runs synchronously inside the call and may have side effects, including calls back into the same Thing (`setProperty`, `removeAction`, ...) that change its maps. Handlers are modelled as pure functions, so those effects are not captured.
- ThingTrace.QueriesChangeNothing: an invocation leaves the state unchanged only because handlers are modelled as pure. A handler that calls back into the Thing is not captured, so the lemma speaks about the Thing's own code only.
- Things.Thing.OnInvokeAction: the code type-checks without null checks (src/thing.ts:134 stores `null` where a function is expected), so `onInvokeAction(n, null)` is accepted and leaves the same state as `addAction(n)`. The model's handler parameter is always a function, so this call is not captured; `Things.Thing.AddAction` gives the resulting state.
- Promises are modelled as results settled within the call. No scheduling is modelled.
- The `console.debug` and `console.error` messages (src/thing.ts:86, src/thing.ts:101) are left out.
- `Thing.EmitEvent` (src/thing.ts:64) does nothing and returns nothing, so its model has no contract.
- The JSON-schema arguments (`valueType`, `inputType`, `outputType`) are accepted and ignored, as in the code. Calls in `ThingTrace.Op` leave them out.
- Numbers are modelled as exact reals, plus `NaN`. Floating-point arithmetic plays no part in this code.
- `name` is a public field in the code, and outside code could assign to it. In the model it is a constant, because no method of the Thing changes it.
