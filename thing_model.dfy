/** The state of a Thing as a value, and each of its operations as a function
    from the state before to the state (and answer) after. The class in
    module Things is proved to behave as these functions say. */
module ThingModel {
  import opened Values

  /** An action handler: takes the (possibly undefined) parameter, returns the result. */
  type Handler = Value -> Value

  /** A property listener, registered to receive (newValue, oldValue). It is stored, never called. */
  type Listener = (Value, Value) -> ()

  /** An event listener, as passed to the event stubs. */
  type EventListener = Value -> ()

  /** The three string-keyed maps of a Thing and its name.
      An action slot holding None is an action declared with `null` as handler. */
  datatype ThingState = ThingState(
    name: string,
    actionHandlers: map<string, Option<Handler>>,
    propListeners: map<string, seq<Listener>>,
    propStates: map<string, Value>)

  /** A freshly constructed Thing. */
  function Initial(name: string): ThingState
  {
    ThingState(name, map[], map[], map[])
  }

  function NoHandler(actionName: string): string
  {
    "No handler for " + actionName
  }

  function NoProperty(propertyName: string): string
  {
    "No property called " + propertyName
  }

  /** The test getProperty and setProperty use for "the property exists":
      a truthy current value, not the presence of the key. */
  predicate IsLive(s: ThingState, propertyName: string)
  {
    propertyName in s.propStates && Truthy(s.propStates[propertyName])
  }

  /** An action whose slot holds a handler (a function is always truthy). */
  predicate IsBound(s: ThingState, actionName: string)
  {
    actionName in s.actionHandlers && s.actionHandlers[actionName].Some?
  }

  /** Keys the property maps agree on: every declared property has a listener list. */
  ghost predicate Wf(s: ThingState)
  {
    s.propStates.Keys == s.propListeners.Keys
  }

  /** invokeAction: the handler's result, or a rejection when no handler is bound. */
  function InvokeAction(s: ThingState, actionName: string, parameter: Value): Result<Value>
  {
    if IsBound(s, actionName) then Ok(s.actionHandlers[actionName].value(parameter))
    else Err(NoHandler(actionName))
  }

  /** setProperty: overwrite a live property; listeners are left alone. */
  function SetProperty(s: ThingState, propertyName: string, newValue: Value): (ThingState, Result<Value>)
  {
    if IsLive(s, propertyName) then
      (s.(propStates := s.propStates[propertyName := newValue]), Ok(newValue))
    else
      (s, Err(NoProperty(propertyName)))
  }

  /** getProperty: the current value of a live property. */
  function GetProperty(s: ThingState, propertyName: string): Result<Value>
  {
    if IsLive(s, propertyName) then Ok(s.propStates[propertyName])
    else Err(NoProperty(propertyName))
  }

  /** onInvokeAction: bind or rebind, whether or not the action was declared. */
  function OnInvokeAction(s: ThingState, actionName: string, handler: Handler): ThingState
  {
    s.(actionHandlers := s.actionHandlers[actionName := Some(handler)])
  }

  /** onUpdateProperty: append to an existing listener list; otherwise nothing changes. */
  function OnUpdateProperty(s: ThingState, propertyName: string, listener: Listener): ThingState
  {
    if propertyName in s.propListeners then
      s.(propListeners := s.propListeners[propertyName := s.propListeners[propertyName] + [listener]])
    else
      s
  }

  /** addProperty: store the initial value if truthy, else null, and reset the listeners. */
  function AddProperty(s: ThingState, propertyName: string, initialValue: Value): ThingState
  {
    s.(propStates := s.propStates[propertyName := if Truthy(initialValue) then initialValue else Null],
       propListeners := s.propListeners[propertyName := []])
  }

  /** addAction: declare the action with a null handler, unbinding any earlier one. */
  function AddAction(s: ThingState, actionName: string): ThingState
  {
    s.(actionHandlers := s.actionHandlers[actionName := None])
  }

  /** removeProperty: delete the value and the listener list. */
  function RemoveProperty(s: ThingState, propertyName: string): ThingState
  {
    s.(propStates := s.propStates - {propertyName}, propListeners := s.propListeners - {propertyName})
  }

  /** removeAction: delete the handler slot. */
  function RemoveAction(s: ThingState, actionName: string): ThingState
  {
    s.(actionHandlers := s.actionHandlers - {actionName})
  }

  // ---------------------------------------------------------------------
  // Laws relating one operation to the next
  // ---------------------------------------------------------------------

  /** A successful set is visible to get exactly when the new value is truthy;
      other properties read as before. */
  lemma GetAfterSet(s: ThingState, n: string, v: Value, m: string)
    requires SetProperty(s, n, v).1.Ok?
    ensures GetProperty(SetProperty(s, n, v).0, n) == if Truthy(v) then Ok(v) else Err(NoProperty(n))
    ensures m != n ==> GetProperty(SetProperty(s, n, v).0, m) == GetProperty(s, m)
  {
  }

  /** Writing a falsy value makes the property unreadable and unwritable. */
  lemma FalsySetKillsProperty(s: ThingState, n: string, v: Value, w: Value)
    requires IsLive(s, n) && !Truthy(v)
    ensures SetProperty(s, n, v).1 == Ok(v)
    ensures SetProperty(SetProperty(s, n, v).0, n, w).1 == Err(NoProperty(n))
  {
  }

  /** A property declared with a falsy or omitted initial value holds null, cannot be read
      or written, but accepts listeners; a truthy initial value is read back. */
  lemma AfterAddProperty(s: ThingState, n: string, init: Value, v: Value, l: Listener)
    ensures AddProperty(s, n, init).propStates[n] == (if Truthy(init) then init else Null)
    ensures AddProperty(s, n, init).propListeners[n] == []
    ensures GetProperty(AddProperty(s, n, init), n) == if Truthy(init) then Ok(init) else Err(NoProperty(n))
    ensures !Truthy(init) ==> SetProperty(AddProperty(s, n, init), n, v).1 == Err(NoProperty(n))
    ensures OnUpdateProperty(AddProperty(s, n, init), n, l).propListeners[n] == [l]
  {
  }

  /** After removeProperty the name is absent: get and set fail, onUpdateProperty does nothing. */
  lemma AfterRemoveProperty(s: ThingState, n: string, v: Value, l: Listener)
    ensures n !in RemoveProperty(s, n).propStates && n !in RemoveProperty(s, n).propListeners
    ensures GetProperty(RemoveProperty(s, n), n) == Err(NoProperty(n))
    ensures SetProperty(RemoveProperty(s, n), n, v) == (RemoveProperty(s, n), Err(NoProperty(n)))
    ensures OnUpdateProperty(RemoveProperty(s, n), n, l) == RemoveProperty(s, n)
  {
  }

  /** Binding makes invokeAction apply the new handler, replacing any earlier one;
      other actions are untouched. */
  lemma InvokeAfterBind(s: ThingState, n: string, h: Handler, p: Value, m: string, q: Value)
    ensures InvokeAction(OnInvokeAction(s, n, h), n, p) == Ok(h(p))
    ensures m != n ==> InvokeAction(OnInvokeAction(s, n, h), m, q) == InvokeAction(s, m, q)
  {
  }

  /** Declaring an action, freshly or again, leaves it unbound; removing it too.
      Both failures carry the same message as an action never declared. */
  lemma InvokeAfterAddOrRemoveAction(s: ThingState, n: string, p: Value)
    ensures n in AddAction(s, n).actionHandlers
    ensures InvokeAction(AddAction(s, n), n, p) == Err(NoHandler(n))
    ensures n !in RemoveAction(s, n).actionHandlers
    ensures InvokeAction(RemoveAction(s, n), n, p) == Err(NoHandler(n))
  {
  }

  /** A declared property (in Wf state) always takes a new listener, at the end of its list. */
  lemma ListenerAppended(s: ThingState, n: string, l: Listener)
    requires Wf(s) && n in s.propStates
    ensures n in OnUpdateProperty(s, n, l).propListeners
    ensures OnUpdateProperty(s, n, l).propListeners[n] == s.propListeners[n] + [l]
  {
  }
}
